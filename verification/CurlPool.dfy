/**
 The worker pool of the curl master (examples/curl/curl_fuse.cpp): workers move
 between an idle and a busy list, and a second behavior covers the first one
 while no worker is idle.
 */
module CurlPool {

  /**
   `waiting` counts the behaviors pushed on top of the initial one. `jobs` and
   `finished` are the requests and the notifications that are under way, each
   named by its worker. `dropped` counts reads that no handler matched, and
   `faults` counts accesses to the last element of an empty idle list.
   */
  datatype Pool = Pool(
    idle: seq<nat>,
    busy: seq<nat>,
    waiting: nat,
    jobs: multiset<nat>,
    finished: multiset<nat>,
    dropped: nat,
    faults: nat)

  datatype Event = Read | Serve(w: nat) | Finish(w: nat)

  // -- handlers ---------------------------------------------------------------

  function Remove(s: seq<nat>, w: nat): seq<nat> {
    if s == [] then [] else if s[0] == w then s[1..] else [s[0]] + Remove(s[1..], w)
  }

  function OnRead(p: Pool): Pool {
    if p.waiting > 0 then p.(dropped := p.dropped + 1)
    else if p.idle == [] then p.(faults := p.faults + 1)
    else
      var n := |p.idle| - 1;
      var w := p.idle[n];
      p.(idle := p.idle[..n], busy := p.busy + [w], jobs := p.jobs + multiset{w},
         waiting := if n == 0 then p.waiting + 1 else p.waiting)
  }

  /** A worker answers its client and tells the master. */
  function OnServe(p: Pool, w: nat): Pool {
    p.(jobs := p.jobs - multiset{w}, finished := p.finished + multiset{w})
  }

  function WorkerFinished(p: Pool, w: nat): Pool {
    if w in p.busy then p.(idle := p.idle + [w], busy := Remove(p.busy, w)) else p
  }

  function OnFinished(p: Pool, w: nat): Pool {
    var p1 := WorkerFinished(p, w).(finished := p.finished - multiset{w});
    if p.waiting > 0 then p1.(waiting := p.waiting - 1) else p1
  }

  predicate Enabled(p: Pool, e: Event) {
    match e
    case Read => true
    case Serve(w) => w in p.jobs
    case Finish(w) => w in p.finished
  }

  function Next(p: Pool, e: Event): Pool {
    match e
    case Read => OnRead(p)
    case Serve(w) => OnServe(p, w)
    case Finish(w) => OnFinished(p, w)
  }

  // -- invariant --------------------------------------------------------------

  function Workers(n: nat): seq<nat> {
    if n == 0 then [] else Workers(n - 1) + [n - 1]
  }

  /** Idle and busy workers together are all workers, once each. */
  ghost predicate Partition(n: nat, p: Pool) {
    multiset(p.idle) + multiset(p.busy) == multiset(Workers(n))
  }

  ghost predicate Inv(n: nat, p: Pool) {
    && Partition(n, p)
    && multiset(p.busy) == p.jobs + p.finished
    && p.waiting == (if p.idle == [] then 1 else 0)
    && p.faults == 0
  }

  lemma {:induction false} RemoveMultiset(s: seq<nat>, w: nat)
    requires w in s
    ensures multiset(Remove(s, w)) + multiset{w} == multiset(s)
  {
    assert s == [s[0]] + s[1..];
    if s[0] != w {
      RemoveMultiset(s[1..], w);
    }
  }

  lemma ReadKeeps(n: nat, p: Pool)
    requires Inv(n, p)
    ensures Inv(n, OnRead(p))
  {
    if p.waiting == 0 {
      var k := |p.idle| - 1;
      assert p.idle == p.idle[..k] + [p.idle[k]];
    }
  }

  lemma FinishKeeps(n: nat, p: Pool, w: nat)
    requires Inv(n, p) && w in p.finished
    ensures Inv(n, OnFinished(p, w))
  {
    assert w in multiset(p.busy);
    RemoveMultiset(p.busy, w);
    assert multiset(p.idle + [w]) == multiset(p.idle) + multiset{w};
    Shift(multiset(p.idle), multiset(Remove(p.busy, w)), multiset(p.busy), w);
    Cancel(multiset(Remove(p.busy, w)), multiset(p.busy), p.jobs, p.finished, w);
  }

  lemma Shift<E>(idle: multiset<E>, rest: multiset<E>, busy: multiset<E>, w: E)
    requires rest + multiset{w} == busy
    ensures idle + multiset{w} + rest == idle + busy
  {
  }

  lemma Cancel<E>(rest: multiset<E>, busy: multiset<E>, jobs: multiset<E>, finished: multiset<E>, w: E)
    requires rest + multiset{w} == busy == jobs + finished && w in finished
    ensures rest == jobs + (finished - multiset{w})
  {
    assert rest == busy - multiset{w};
  }

  lemma ServeKeeps(n: nat, p: Pool, w: nat)
    requires Inv(n, p) && w in p.jobs
    ensures Inv(n, OnServe(p, w))
  {
  }

  /** Removing the first occurrence is removing at its position. */
  lemma {:induction false} RemovesAt(s: seq<nat>, w: nat, i: nat)
    requires i < |s| && s[i] == w && w !in s[..i]
    ensures Remove(s, w) == s[..i] + s[i + 1..]
  {
    if i > 0 {
      assert s[0] in s[..i];
      assert s[1..][..i - 1] == s[..i][1..];
      RemovesAt(s[1..], w, i - 1);
      assert s[..i] == [s[0]] + s[1..][..i - 1] && s[1..][i..] == s[i + 1..];
    }
  }

  lemma InvNext(n: nat, p: Pool, e: Event)
    requires Inv(n, p) && Enabled(p, e)
    ensures Inv(n, Next(p, e))
  {
    match e
    case Read => ReadKeeps(n, p);
    case Serve(w) => ServeKeeps(n, p, w);
    case Finish(w) => FinishKeeps(n, p, w);
  }

  // -- whole runs -------------------------------------------------------------

  function Initial(n: nat): Pool {
    Pool(Workers(n), [], 0, multiset{}, multiset{}, 0, 0)
  }

  ghost predicate IsRun(n: nat, run: seq<Pool>, events: seq<Event>) {
    && |run| == |events| + 1
    && run[0] == Initial(n)
    && forall i :: 0 <= i < |events| ==> Enabled(run[i], events[i]) && run[i + 1] == Next(run[i], events[i])
  }

  lemma {:induction false} RunInv(n: nat, run: seq<Pool>, events: seq<Event>, i: nat)
    requires n > 0 && IsRun(n, run, events) && i < |run|
    ensures Inv(n, run[i])
  {
    if i > 0 {
      RunInv(n, run, events, i - 1);
      InvNext(n, run[i - 1], events[i - 1]);
    }
  }

  lemma {:induction false} WorkersOnce(n: nat, w: nat)
    ensures multiset(Workers(n))[w] == if w < n then 1 else 0
  {
    if n > 0 {
      WorkersOnce(n - 1, w);
    }
  }

  /** Every worker is in exactly one of the two lists, exactly once. */
  lemma WorkersArePartitioned(n: nat, run: seq<Pool>, events: seq<Event>, i: nat, w: nat)
    requires n > 0 && IsRun(n, run, events) && i < |run| && w < n
    ensures multiset(run[i].idle)[w] + multiset(run[i].busy)[w] == 1
  {
    RunInv(n, run, events, i);
    WorkersOnce(n, w);
    assert (multiset(run[i].idle) + multiset(run[i].busy))[w] == 1;
  }

  /** A busy worker has exactly one job or one notification under way; an idle one has neither. */
  lemma OneErrandEach(n: nat, run: seq<Pool>, events: seq<Event>, i: nat, w: nat)
    requires n > 0 && IsRun(n, run, events) && i < |run| && w < n
    ensures run[i].jobs[w] + run[i].finished[w] == if w in run[i].busy then 1 else 0
  {
    RunInv(n, run, events, i);
    WorkersArePartitioned(n, run, events, i, w);
    assert (run[i].jobs + run[i].finished)[w] == multiset(run[i].busy)[w];
  }

  /** The waiting behavior covers the initial one exactly while no worker is idle, so no read takes from an empty list. */
  lemma WaitsExactlyWhenNoneIdle(n: nat, run: seq<Pool>, events: seq<Event>, i: nat)
    requires n > 0 && IsRun(n, run, events) && i < |run|
    ensures run[i].waiting == (if run[i].idle == [] then 1 else 0) && run[i].faults == 0
  {
    RunInv(n, run, events, i);
  }

  // -- what becomes of requests -----------------------------------------------

  /** How many of the first `k` events are of the kind that `kind` accepts. */
  ghost function Count(kind: Event -> bool, events: seq<Event>, k: nat): nat
    requires k <= |events|
  {
    if k == 0 then 0 else Count(kind, events, k - 1) + if kind(events[k - 1]) then 1 else 0
  }

  /** Idle worker `w` gets a new job and becomes busy; nothing else changes hands. */
  ghost predicate Hires(p: Pool, q: Pool, w: nat) {
    && w in p.idle
    && multiset(q.idle) + multiset{w} == multiset(p.idle)
    && multiset(q.busy) == multiset(p.busy) + multiset{w}
    && q.jobs == p.jobs + multiset{w} && q.finished == p.finished
  }

  lemma ReadHires(p: Pool) returns (w: nat)
    requires p.idle != [] && p.waiting == 0
    ensures Hires(p, OnRead(p), w)
  {
    w := p.idle[|p.idle| - 1];
    assert p.idle == p.idle[..|p.idle| - 1] + [w];
  }

  lemma ReadStep(n: nat, p: Pool) returns (w: nat)
    requires Inv(n, p)
    ensures if p.idle == [] then OnRead(p) == p.(dropped := p.dropped + 1)
      else OnRead(p).dropped == p.dropped && Hires(p, OnRead(p), w)
  {
    w := 0;
    if p.idle != [] {
      w := ReadHires(p);
    }
  }

  /**
   A read is dropped exactly while no worker is idle, and changes nothing else
   then. Any other read makes one idle worker busy with one new job.
   */
  lemma ReadsStartJobsUnlessNoneIdle(n: nat, run: seq<Pool>, events: seq<Event>, k: nat) returns (w: nat)
    requires n > 0 && IsRun(n, run, events) && k < |events| && events[k].Read?
    ensures if run[k].idle == [] then run[k + 1] == run[k].(dropped := run[k].dropped + 1)
      else run[k + 1].dropped == run[k].dropped && Hires(run[k], run[k + 1], w)
  {
    RunInv(n, run, events, k);
    assert run[k + 1] == Next(run[k], events[k]);
    w := ReadStep(n, run[k]);
  }

  /** Nothing but a read starts a job or drops a request. */
  lemma OnlyReadsStartJobs(n: nat, run: seq<Pool>, events: seq<Event>, k: nat)
    requires IsRun(n, run, events) && k < |events| && !events[k].Read?
    ensures run[k + 1].dropped == run[k].dropped && run[k + 1].jobs <= run[k].jobs
  {
    assert run[k + 1] == Next(run[k], events[k]);
  }

  ghost predicate Accounted(p: Pool, asked: nat, served: nat, done: nat) {
    asked == p.dropped + served + |p.jobs| && served == done + |p.finished|
  }

  lemma AccountedNext(n: nat, p: Pool, e: Event, asked: nat, served: nat, done: nat)
    requires Inv(n, p) && Enabled(p, e) && Accounted(p, asked, served, done)
    ensures Accounted(Next(p, e), asked + (if e.Read? then 1 else 0),
                      served + (if e.Serve? then 1 else 0), done + if e.Finish? then 1 else 0)
  {
  }

  /** Every read is dropped, under way, or served; every answer is under way to the master or has arrived. */
  lemma {:induction false} RequestsAddUp(n: nat, run: seq<Pool>, events: seq<Event>, k: nat)
    requires n > 0 && IsRun(n, run, events) && k < |run|
    ensures Accounted(run[k], Count((e: Event) => e.Read?, events, k), Count((e: Event) => e.Serve?, events, k),
                      Count((e: Event) => e.Finish?, events, k))
  {
    if k > 0 {
      RequestsAddUp(n, run, events, k - 1);
      RunInv(n, run, events, k - 1);
      AccountedNext(n, run[k - 1], events[k - 1], Count((e: Event) => e.Read?, events, k - 1),
                    Count((e: Event) => e.Serve?, events, k - 1), Count((e: Event) => e.Finish?, events, k - 1));
    }
  }

  // -- the master as it runs --------------------------------------------------

  class Master {
    const n: nat
    var idle: seq<nat>
    var busy: seq<nat>
    var waiting: nat
    var jobs: multiset<nat>
    var finished: multiset<nat>
    var dropped: nat
    var faults: nat

    ghost function Now(): Pool
      reads this
    {
      Pool(idle, busy, waiting, jobs, finished, dropped, faults)
    }

    ghost predicate Valid()
      reads this
    {
      n > 0 && Inv(n, Now())
    }

    /** A master that shows the result of an event is valid again. */
    lemma StaysValid(p: Pool, e: Event)
      requires n > 0 && Inv(n, p) && Enabled(p, e) && Now() == Next(p, e)
      ensures Valid()
    {
      InvNext(n, p, e);
    }

    /** Spawns the workers. */
    constructor (n: nat)
      requires n > 0
      ensures Valid() && this.n == n && Now() == Initial(n)
    {
      this.n := n;
      idle, busy, waiting := Workers(n), [], 0;
      jobs, finished, dropped, faults := multiset{}, multiset{}, 0, 0;
    }

    method ReceiveRead()
      requires Valid()
      modifies this
      ensures Valid() && Now() == OnRead(old(Now()))
    {
      ghost var p := Now();
      if waiting > 0 {
        dropped := dropped + 1;
      } else {
        Forward();
      }
      StaysValid(p, Read);
    }

    /** Hands the job to the last idle worker; a valid master that does not wait has one. */
    method Forward()
      requires waiting == 0 && idle != []
      modifies this
      ensures Now() == OnRead(old(Now()))
    {
      var worker := idle[|idle| - 1];
      idle := idle[..|idle| - 1];
      busy := busy + [worker];
      jobs := jobs + multiset{worker};
      if idle == [] {
        waiting := waiting + 1;
      }
    }

    method MoveToIdle(sender: nat)
      modifies `idle, `busy
      ensures Now() == WorkerFinished(old(Now()), sender)
    {
      var i := 0;
      while i < |busy| && busy[i] != sender
        invariant i <= |busy| && idle == old(idle) && busy == old(busy)
        invariant sender !in busy[..i]
      {
        i := i + 1;
      }
      if i < |busy| {
        RemovesAt(busy, sender, i);
        idle := idle + [busy[i]];
        busy := busy[..i] + busy[i + 1..];
      }
    }

    method ReceiveFinished(sender: nat)
      requires Valid() && sender in finished
      modifies this
      ensures Valid() && Now() == OnFinished(old(Now()), sender)
    {
      ghost var p := Now();
      finished := finished - multiset{sender};
      MoveToIdle(sender);
      if waiting > 0 {
        waiting := waiting - 1;
      }
      StaysValid(p, Finish(sender));
    }
  }
}
