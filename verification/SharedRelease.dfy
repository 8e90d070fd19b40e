/**
 Threads that share one reference-counted object (libcaf_core/caf/ref_counted.hpp,
 libcaf_core/src/ref_counted.cpp, libcaf_core/caf/intrusive_cow_ptr.hpp).

 Giving up a reference takes two atomic accesses: a load that may find the count
 to be 1, and otherwise a decrement. Copy-on-write adds a load of its own before
 it writes in place. Steps of different threads interleave in any order, and the
 model lets a thread touch the object after its deletion, so that doing so shows
 up in `faults`.
 */
module SharedRelease {

  /** Subtracting: the load saw other owners. Copying: a writer did. Writing: it saw none. */
  datatype Phase = Ready | Subtracting | Copying | Writing

  datatype Thread = Thread(refs: nat, phase: Phase)

  datatype State = State(rc: int, threads: seq<Thread>, deletions: nat, faults: nat)

  datatype Step =
    | Retain(t: nat)
    | Hand(t: nat, to: nat)
    | Load(t: nat)
    | Decrement(t: nat)
    | OpenWrite(t: nat)
    | CloseWrite(t: nat)

  function Total(threads: seq<Thread>): nat {
    if threads == [] then 0 else Total(threads[..|threads| - 1]) + threads[|threads| - 1].refs
  }

  // -- steps ------------------------------------------------------------------

  /** What the program order of thread `t` allows; nothing here asks whether the object still lives. */
  predicate Enabled(s: State, step: Step) {
    && step.t < |s.threads|
    && var me := s.threads[step.t];
    match step
    case Retain(_) => me.refs > 0 && me.phase.Ready?
    case Hand(_, to) => me.refs > 0 && me.phase.Ready? && to < |s.threads|
    case Load(_) => me.refs > 0 && (me.phase.Ready? || me.phase.Copying?)
    case Decrement(_) => me.refs > 0 && me.phase.Subtracting?
    case OpenWrite(_) => me.refs > 0 && me.phase.Ready?
    case CloseWrite(_) => me.phase.Writing?
  }

  function Touch(s: State): State {
    if s.deletions > 0 then s.(faults := s.faults + 1) else s
  }

  function Own(s: State, t: nat, refs: nat, phase: Phase): State
    requires t < |s.threads|
  {
    s.(threads := s.threads[t := Thread(refs, phase)])
  }

  function Next(s: State, step: Step): State
    requires Enabled(s, step)
  {
    var t := step.t;
    var me := s.threads[t];
    match step
    case Retain(_) => Own(Touch(s).(rc := s.rc + 1), t, me.refs + 1, Ready)
    case Hand(_, to) =>
      var s1 := Own(s, t, me.refs - 1, Ready);
      Own(s1, to, s1.threads[to].refs + 1, s1.threads[to].phase)
    case Load(_) =>
      if s.rc == 1 then
        Own(Touch(s).(deletions := s.deletions + 1), t, me.refs - 1, Ready)
      else
        Own(Touch(s), t, me.refs, Subtracting)
    case Decrement(_) =>
      var s1 := Own(Touch(s).(rc := s.rc - 1), t, me.refs - 1, Ready);
      if s.rc == 1 then s1.(deletions := s.deletions + 1) else s1
    case OpenWrite(_) => Own(Touch(s), t, me.refs, if s.rc == 1 then Writing else Copying)
    case CloseWrite(_) => Own(Touch(s), t, me.refs, Ready)
  }

  // -- invariant --------------------------------------------------------------

  predicate Busy(th: Thread) {
    !th.phase.Ready?
  }

  predicate Inv(s: State) {
    && s.faults == 0
    && s.deletions == (if Total(s.threads) == 0 then 1 else 0)
    && (Total(s.threads) > 0 ==> s.rc == Total(s.threads))
    && (forall t :: 0 <= t < |s.threads| && Busy(s.threads[t]) ==> s.threads[t].refs > 0)
    && (forall t :: 0 <= t < |s.threads| && s.threads[t].phase.Writing? ==> s.rc == 1)
  }

  lemma {:induction false} TotalUpdate(threads: seq<Thread>, t: nat, th: Thread)
    requires t < |threads|
    ensures Total(threads[t := th]) == Total(threads) - threads[t].refs + th.refs
  {
    var n := |threads| - 1;
    if t == n {
      assert threads[t := th][..n] == threads[..n];
    } else {
      TotalUpdate(threads[..n], t, th);
      assert threads[t := th][..n] == threads[..n][t := th];
    }
  }

  lemma {:induction false} TotalBound(threads: seq<Thread>, t: nat, u: nat)
    requires t < |threads| && u < |threads|
    ensures threads[t].refs <= Total(threads)
    ensures t != u ==> threads[t].refs + threads[u].refs <= Total(threads)
  {
    var n := |threads| - 1;
    if t < n && u < n {
      TotalBound(threads[..n], t, u);
    } else if t < n {
      TotalBound(threads[..n], t, t);
    } else if u < n {
      TotalBound(threads[..n], u, u);
    }
  }

  /** The effect of a step on the thread that takes it, apart from handing references over. */
  lemma OwnKeeps(s: State, s1: State, t: nat, refs: nat, phase: Phase)
    requires Inv(s) && t < |s.threads| && s.threads[t].refs > 0
    requires s1.threads == s.threads[t := Thread(refs, phase)] && s1.faults == 0
    requires !phase.Ready? ==> refs > 0
    requires s.threads[t].refs - 1 <= refs
    requires s1.rc - s.rc == refs - s.threads[t].refs || (s.rc == 1 && refs == 0)
    requires phase.Writing? ==> s1.rc == 1
    requires s1.deletions == s.deletions + if s.rc == 1 && refs == 0 then 1 else 0
    ensures Inv(s1)
  {
    TotalUpdate(s.threads, t, Thread(refs, phase));
    TotalBound(s.threads, t, t);
    forall u | 0 <= u < |s1.threads| && s1.threads[u].phase.Writing? ensures s1.rc == 1 {
      TotalBound(s.threads, t, u);
    }
  }

  lemma HandKeeps(s: State, t: nat, to: nat)
    requires Inv(s) && Enabled(s, Hand(t, to))
    ensures Inv(Next(s, Hand(t, to)))
  {
    var s1 := Own(s, t, s.threads[t].refs - 1, Ready);
    TotalUpdate(s.threads, t, s1.threads[t]);
    TotalUpdate(s1.threads, to, Thread(s1.threads[to].refs + 1, s1.threads[to].phase));
  }

  lemma InvNext(s: State, step: Step)
    requires Inv(s) && Enabled(s, step)
    ensures Inv(Next(s, step))
  {
    var t := step.t;
    if step.Hand? {
      HandKeeps(s, t, step.to);
    } else {
      TotalBound(s.threads, t, t);
      var s1 := Next(s, step);
      OwnKeeps(s, s1, t, s1.threads[t].refs, s1.threads[t].phase);
    }
  }

  // -- whole runs -------------------------------------------------------------

  /** One thread has just created the object; the others have never seen it. */
  predicate Initial(s: State) {
    && s.threads != [] && s.threads[0].refs == 1
    && (forall t :: 0 < t < |s.threads| ==> s.threads[t].refs == 0)
    && (forall t :: 0 <= t < |s.threads| ==> s.threads[t].phase.Ready?)
    && s.rc == 1 && s.deletions == 0 && s.faults == 0
  }

  ghost predicate IsRun(run: seq<State>, steps: seq<Step>) {
    && |run| == |steps| + 1
    && Initial(run[0])
    && forall i :: 0 <= i < |steps| ==> Enabled(run[i], steps[i]) && run[i + 1] == Next(run[i], steps[i])
  }

  lemma {:induction false} TotalInitial(threads: seq<Thread>)
    requires threads != [] && threads[0].refs == 1
    requires forall t :: 0 < t < |threads| ==> threads[t].refs == 0
    ensures Total(threads) == 1
  {
    if |threads| > 1 {
      TotalInitial(threads[..|threads| - 1]);
    } else {
      assert Total(threads[..0]) == 0;
    }
  }

  lemma {:induction false} RunInv(run: seq<State>, steps: seq<Step>, i: nat)
    requires IsRun(run, steps) && i < |run|
    ensures Inv(run[i])
  {
    if i == 0 {
      TotalInitial(run[0].threads);
    } else {
      RunInv(run, steps, i - 1);
      InvNext(run[i - 1], steps[i - 1]);
    }
  }

  /** However threads interleave, the object is deleted once, by whoever gives up the last reference. */
  lemma DeletedOnceWithLastReference(run: seq<State>, steps: seq<Step>, i: nat)
    requires IsRun(run, steps) && i < |run|
    ensures run[i].deletions == if Total(run[i].threads) == 0 then 1 else 0
  {
    RunInv(run, steps, i);
  }

  /** No thread touches the count or the object after the deletion. */
  lemma NoUseAfterDelete(run: seq<State>, steps: seq<Step>, i: nat)
    requires IsRun(run, steps) && i < |run|
    ensures run[i].faults == 0
  {
    RunInv(run, steps, i);
  }

  /** A thread that writes in place holds the only reference there is. */
  lemma WriterIsAlone(run: seq<State>, steps: seq<Step>, i: nat, t: nat, u: nat)
    requires IsRun(run, steps) && i < |run| && t < |run[i].threads| && u < |run[i].threads|
    requires run[i].threads[t].phase.Writing?
    ensures run[i].threads[t].refs == 1 && (u != t ==> run[i].threads[u] == Thread(0, Ready))
  {
    RunInv(run, steps, i);
    TotalBound(run[i].threads, t, u);
    assert Busy(run[i].threads[t]);
    assert Busy(run[i].threads[u]) || run[i].threads[u].phase.Ready?;
  }
}
