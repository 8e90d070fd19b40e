/**
 What becomes of the sends that a pass learns of: none is lost or reordered, and
 a receive waits exactly as long as none of them has the wanted fields
 (tools/caf-vec.cpp).
 */
module HeardSends {
  import opened Basics
  import opened VectorLog
  import opened AnnotatedRuns
  import opened Annotator
  import opened GroupReplay

  // -- merging two sequences --------------------------------------------------

  /** `zs` holds the elements of `xs` and of `ys`, each in their order. */
  ghost predicate IsMerge<T>(xs: seq<T>, ys: seq<T>, zs: seq<T>) {
    if zs == [] then xs == [] && ys == [] else
    var k := |zs| - 1;
    || (xs != [] && xs[|xs| - 1] == zs[k] && IsMerge(xs[..|xs| - 1], ys, zs[..k]))
    || (ys != [] && ys[|ys| - 1] == zs[k] && IsMerge(xs, ys[..|ys| - 1], zs[..k]))
  }

  lemma MergeSnoc<T>(xs: seq<T>, ys: seq<T>, zs: seq<T>, x: T)
    requires IsMerge(xs, ys, zs)
    ensures IsMerge(xs + [x], ys, zs + [x]) && IsMerge(xs, ys + [x], zs + [x])
  {
    assert (zs + [x])[..|zs|] == zs && (xs + [x])[..|xs|] == xs && (ys + [x])[..|ys|] == ys;
  }

  lemma {:induction false} MergeMore<T>(xs: seq<T>, ys: seq<T>, zs: seq<T>, more: seq<T>)
    requires IsMerge(xs, ys, zs)
    ensures IsMerge(xs, ys + more, zs + more)
  {
    if more == [] {
      assert ys + more == ys && zs + more == zs;
    } else {
      var init, x := more[..|more| - 1], more[|more| - 1];
      MergeMore(xs, ys, zs, init);
      MergeSnoc(xs, ys + init, zs + init, x);
      assert ys + more == ys + init + [x] && zs + more == zs + init + [x];
    }
  }

  lemma {:induction false} MergeCounts<T>(xs: seq<T>, ys: seq<T>, zs: seq<T>)
    requires IsMerge(xs, ys, zs)
    ensures multiset(zs) == multiset(xs) + multiset(ys)
  {
    if zs != [] {
      var k := |zs| - 1;
      assert zs == zs[..k] + [zs[k]];
      if xs != [] && xs[|xs| - 1] == zs[k] && IsMerge(xs[..|xs| - 1], ys, zs[..k]) {
        MergeCounts(xs[..|xs| - 1], ys, zs[..k]);
        assert xs == xs[..|xs| - 1] + [zs[k]];
      } else {
        MergeCounts(xs, ys[..|ys| - 1], zs[..k]);
        assert ys == ys[..|ys| - 1] + [zs[k]];
      }
    }
  }

  // -- what a pass learns of --------------------------------------------------

  ghost function HeardBy(act: Act, n: nat): seq<SendEvent> {
    if act.Hears? && act.node == n then [act.x] else []
  }

  /** The broadcasts that reached pass `n`, in order of arrival. */
  ghost function Heard(acts: seq<Act>, n: nat): seq<SendEvent> {
    if acts == [] then [] else
    Heard(acts[..|acts| - 1], n) + HeardBy(acts[|acts| - 1], n)
  }

  /** The send that pass `n` logs with an act, carrying the clock of its entity. */
  ghost function OwnSend(logs: map<nat, seq<Entry>>, g: Group, act: Act, g': Group, n: nat): seq<SendEvent> {
    if act == Work(n) && n in logs && n in g.taken && g.taken[n] < |logs[n]| && n in g'.passes then
      var entry, p := logs[n][g.taken[n]], g'.passes[n];
      if entry.event.Send? && entry.owner in p.node.clocks
      then [SendEvent(g.count, entry.event.fields, p.node.clocks[entry.owner])] else []
    else []
  }

  /** The sends in the log of node `n` that its pass came across in the first `k` acts. */
  ghost function Logged(logs: map<nat, seq<Entry>>, gs: seq<Group>, acts: seq<Act>, n: nat, k: nat): seq<SendEvent>
    requires |gs| == |acts| + 1 && k <= |acts|
  {
    if k == 0 then [] else Logged(logs, gs, acts, n, k - 1) + OwnSend(logs, gs[k - 1], acts[k - 1], gs[k], n)
  }

  /**
   The mailbox holds the latest sends heard, in order of arrival; the sends in
   flight are a merge of the earlier ones with those that the log produced.
   */
  ghost predicate Keeps(p: Progress, heard: seq<SendEvent>, logged: seq<SendEvent>) {
    && |p.mailbox| <= |heard|
    && (p.status.Blocked? ==> p.mailbox == [])
    && var h := |heard| - |p.mailbox|;
       p.mailbox == heard[h..] && IsMerge(logged, heard[..h], p.node.messages)
  }

  // -- one act ----------------------------------------------------------------

  /** Replaying an entry moves a prefix of the mailbox among the sends in flight, or adds the entry's own send. */
  ghost predicate Moves(p: Progress, p': Progress, own: seq<SendEvent>, j: nat) {
    && j <= |p.mailbox| && p'.mailbox == p.mailbox[j..]
    && p'.node.messages == p.node.messages + p.mailbox[..j] + own
    && (own != [] ==> j == 0)
    && (p'.status.Blocked? ==> j == |p.mailbox|)
  }

  ghost function SendOf(p: Progress, entry: Entry, id: nat): seq<SendEvent> {
    if entry.event.Send? && entry.owner in p.node.clocks
    then [SendEvent(id, entry.event.fields, p.node.clocks[entry.owner])] else []
  }

  /** A receive takes the mailbox up to the first match, or all of it, unless a match is in flight already. */
  lemma ReceiveMoves(cfg: Config, p: Progress, entry: Entry, id: nat) returns (j: nat)
    requires p.Ok(cfg) && p.status == Finished && entry.event.Receive? && entry.owner in p.node.clocks
    ensures Moves(p, Advance(cfg, p, entry, id), [], j)
  {
    var f := entry.event.fields;
    var i := FirstSend(p.mailbox, f);
    j := if FirstSend(p.node.messages, f) < |p.node.messages| then 0 else if i < |p.mailbox| then i + 1 else i;
  }

  lemma AdvanceMoves(cfg: Config, p: Progress, entry: Entry, id: nat) returns (j: nat)
    requires p.Ok(cfg) && p.status == Finished
    ensures Moves(p, Advance(cfg, p, entry, id), SendOf(Advance(cfg, p, entry, id), entry, id), j)
  {
    j := 0;
    if entry.event.Receive? && entry.owner in p.node.clocks {
      j := ReceiveMoves(cfg, p, entry, id);
    }
  }

  lemma MovesKeeps(p: Progress, p': Progress, own: seq<SendEvent>, j: nat, heard: seq<SendEvent>, logged: seq<SendEvent>)
    requires Keeps(p, heard, logged) && Moves(p, p', own, j) && |own| <= 1
    ensures Keeps(p', heard, logged + own)
  {
    if own == [] {
      MailboxMoves(p, p', j, heard, logged);
      Unchanged(logged);
    } else {
      OwnSendJoins(p, p', own[0], heard, logged);
      assert own == [own[0]];
    }
  }

  lemma MailboxMoves(p: Progress, p': Progress, j: nat, heard: seq<SendEvent>, logged: seq<SendEvent>)
    requires Keeps(p, heard, logged) && Moves(p, p', [], j)
    ensures Keeps(p', heard, logged)
  {
    var h := |heard| - |p.mailbox|;
    MergeMore(logged, heard[..h], p.node.messages, p.mailbox[..j]);
    assert heard[..h + j] == heard[..h] + p.mailbox[..j] && p.mailbox[j..] == heard[h + j..];
    Unchanged(p.node.messages + p.mailbox[..j]);
  }

  lemma OwnSendJoins(p: Progress, p': Progress, x: SendEvent, heard: seq<SendEvent>, logged: seq<SendEvent>)
    requires Keeps(p, heard, logged) && Moves(p, p', [x], 0)
    ensures Keeps(p', heard, logged + [x])
  {
    MergeSnoc(logged, heard[..|heard| - |p.mailbox|], p.node.messages, x);
    assert p.node.messages + p.mailbox[..0] == p.node.messages && p.mailbox[0..] == p.mailbox;
  }

  lemma Unchanged<T>(xs: seq<T>)
    ensures xs + [] == xs
  {
  }

  lemma HearKeeps(cfg: Config, p: Progress, x: SendEvent, id: nat, heard: seq<SendEvent>, logged: seq<SendEvent>)
    requires p.Ok(cfg) && |x.vstamp| == |cfg.entities| && Keeps(p, heard, logged)
    ensures Keeps(Hear(cfg, p, x, id), heard + [x], logged)
  {
    if p.status.Blocked? {
      TakesUp(p, Hear(cfg, p, x, id), x, heard, logged);
    } else {
      PutsAside(p, Hear(cfg, p, x, id), x, heard, logged);
    }
  }

  lemma TakesUp(p: Progress, p': Progress, x: SendEvent, heard: seq<SendEvent>, logged: seq<SendEvent>)
    requires Keeps(p, heard, logged) && p.mailbox == p'.mailbox == [] && p'.node.messages == p.node.messages + [x]
    ensures Keeps(p', heard + [x], logged)
  {
    assert heard[..|heard|] == heard && (heard + [x])[..|heard| + 1] == heard + [x];
    MergeSnoc(logged, heard, p.node.messages, x);
  }

  lemma PutsAside(p: Progress, p': Progress, x: SendEvent, heard: seq<SendEvent>, logged: seq<SendEvent>)
    requires Keeps(p, heard, logged) && !p'.status.Blocked?
    requires p'.mailbox == p.mailbox + [x] && p'.node.messages == p.node.messages
    ensures Keeps(p', heard + [x], logged)
  {
    var h := |heard| - |p.mailbox|;
    assert (heard + [x])[..h] == heard[..h] && (heard + [x])[h..] == heard[h..] + [x];
  }

  // -- waiting ----------------------------------------------------------------

  ghost predicate NoneHas(xs: seq<SendEvent>, f: Fields) {
    forall i :: 0 <= i < |xs| ==> xs[i].fields != f
  }

  /** How the pass stands with `entry`, the one that it began last. */
  ghost predicate Settled(p: Progress, entry: Entry) {
    match p.status
    case Failed => entry.owner !in p.node.clocks
    case Blocked(waiting) =>
      && waiting == entry && entry.owner in p.node.clocks
      && entry.event.Receive? && NoneHas(p.node.messages, entry.event.fields)
    case Finished =>
      && entry.owner in p.node.clocks
      && (entry.event.Receive? ==> !NoneHas(p.node.messages, entry.event.fields))
  }

  lemma AdvanceSettled(cfg: Config, p: Progress, entry: Entry, id: nat)
    requires p.Ok(cfg) && p.status == Finished
    ensures Settled(Advance(cfg, p, entry, id), entry)
  {
    if entry.event.Receive? && entry.owner in p.node.clocks {
      var f, ms := entry.event.fields, p.node.messages;
      var i, j := FirstSend(ms, f), FirstSend(p.mailbox, f);
      var ms' := Advance(cfg, p, entry, id).node.messages;
      if i < |ms| {
        assert ms'[i].fields == f;
      } else if j < |p.mailbox| {
        assert ms'[|ms| + j].fields == f;
      }
    }
  }

  lemma HearSettled(cfg: Config, p: Progress, x: SendEvent, id: nat, entry: Entry)
    requires p.Ok(cfg) && |x.vstamp| == |cfg.entities| && Settled(p, entry)
    ensures Settled(Hear(cfg, p, x, id), entry)
  {
    var p' := Hear(cfg, p, x, id);
    if p.status.Blocked? {
      assert p'.node.messages[|p.node.messages|] == x;
      assert forall i :: 0 <= i < |p.node.messages| ==> p'.node.messages[i] == p.node.messages[i];
    }
  }

  /** Position `i` is the first of `xs` with the wanted fields. */
  ghost predicate IsFirst(xs: seq<SendEvent>, f: Fields, i: nat) {
    i < |xs| && xs[i].fields == f && forall j :: 0 <= j < i ==> xs[j].fields != f
  }

  /** What a receive of entity `e` that merges `x` changes: one clock and one printed line. */
  ghost predicate Merges(cfg: Config, p: Progress, clock: Clock, entry: Entry, id: nat, x: SendEvent, p': Progress)
    requires |clock| == |x.vstamp| && entry.owner < |cfg.entities|
  {
    var c := Join(clock, x.vstamp);
    && p'.status == Finished
    && p'.node.clocks == p.node.clocks[entry.owner := c]
    && p'.node.spawns == p.node.spawns && p'.node.scoped == p.node.scoped
    && p'.lines == p.lines + LineOf(cfg, entry, id, c)
  }

  /** A receive that need not wait merges the first match among the sends in flight and then the mailbox. */
  lemma ReceiveMergesFirstMatch(cfg: Config, p: Progress, entry: Entry, id: nat) returns (i: nat)
    requires p.Ok(cfg) && p.status == Finished && entry.event.Receive? && Advance(cfg, p, entry, id).status == Finished
    ensures entry.owner in p.node.clocks && IsFirst(p.node.messages + p.mailbox, entry.event.fields, i)
    ensures var x := (p.node.messages + p.mailbox)[i];
      && |x.vstamp| == |cfg.entities|
      && Merges(cfg, p, Ticked(cfg, p.node, entry.owner), entry, id, x, Advance(cfg, p, entry, id))
  {
    i := FirstOfBoth(p.node.messages, p.mailbox, entry.event.fields);
  }

  lemma FirstOfBoth(ms: seq<SendEvent>, box: seq<SendEvent>, f: Fields) returns (k: nat)
    ensures var i, j := FirstSend(ms, f), FirstSend(box, f);
      && (i < |ms| ==> IsFirst(ms + box, f, k) && (ms + box)[k] == ms[i])
      && (i == |ms| && j < |box| ==> IsFirst(ms + box, f, k) && (ms + box)[k] == box[j])
  {
    var i := FirstSend(ms, f);
    k := if i < |ms| then i else |ms| + FirstSend(box, f);
  }

  /** A receive that waits merges the first match to arrive; it ticked when it began. */
  lemma WaitingMergesFirstArrival(cfg: Config, p: Progress, x: SendEvent, id: nat)
    requires p.Ok(cfg) && p.status.Blocked? && |x.vstamp| == |cfg.entities|
    ensures var p', entry := Hear(cfg, p, x, id), p.status.entry;
      if x.fields == entry.event.fields then Merges(cfg, p, p.node.clocks[entry.owner], entry, id, x, p')
      else p' == p.(node := p'.node) && p'.node == p.node.(messages := p'.node.messages)
  {
  }

  // -- whole runs -------------------------------------------------------------

  /** Pass `p` has begun `taken` entries of `log`, and lost nothing of what it heard and logged. */
  ghost predicate PassOk(p: Progress, log: seq<Entry>, taken: nat, heard: seq<SendEvent>, logged: seq<SendEvent>) {
    && Keeps(p, heard, logged)
    && taken <= |log|
    && (if taken == 0 then p.status == Finished else Settled(p, log[taken - 1]))
  }

  lemma WorkOk(
      cfg: Config, p: Progress, log: seq<Entry>, taken: nat, id: nat, heard: seq<SendEvent>, logged: seq<SendEvent>)
    requires p.Ok(cfg) && p.status == Finished && taken < |log| && PassOk(p, log, taken, heard, logged)
    ensures var p' := Advance(cfg, p, log[taken], id);
      PassOk(p', log, taken + 1, heard, logged + SendOf(p', log[taken], id))
  {
    var j := AdvanceMoves(cfg, p, log[taken], id);
    var p' := Advance(cfg, p, log[taken], id);
    MovesKeeps(p, p', SendOf(p', log[taken], id), j, heard, logged);
    AdvanceSettled(cfg, p, log[taken], id);
  }

  lemma HearOk(
      cfg: Config, p: Progress, log: seq<Entry>, taken: nat, x: SendEvent, id: nat,
      heard: seq<SendEvent>, logged: seq<SendEvent>)
    requires p.Ok(cfg) && |x.vstamp| == |cfg.entities| && PassOk(p, log, taken, heard, logged)
    ensures PassOk(Hear(cfg, p, x, id), log, taken, heard + [x], logged)
  {
    HearKeeps(cfg, p, x, id, heard, logged);
    if taken > 0 {
      HearSettled(cfg, p, x, id, log[taken - 1]);
    }
  }

  /** Pass `n` of the group has lost nothing of `heard` and `logged`. */
  ghost predicate SeenOk(logs: map<nat, seq<Entry>>, g: Group, n: nat, heard: seq<SendEvent>, logged: seq<SendEvent>) {
    && n in g.passes && n in g.taken && n in logs
    && PassOk(g.passes[n], logs[n], g.taken[n], heard, logged)
  }

  lemma WorkSeen(
      cfg: Config, logs: map<nat, seq<Entry>>, g: Group, g': Group, n: nat, heard: seq<SendEvent>, logged: seq<SendEvent>)
    requires GroupOk(cfg, g) && SeenOk(logs, g, n, heard, logged) && WorkNext(cfg, logs[n], g, n, g')
    ensures SeenOk(logs, g', n, heard + HeardBy(Work(n), n), logged + OwnSend(logs, g, Work(n), g', n))
  {
    WorkOk(cfg, g.passes[n], logs[n], g.taken[n], g.count, heard, logged);
    Unchanged(heard);
  }

  lemma HearSeen(
      cfg: Config, logs: map<nat, seq<Entry>>, g: Group, x: SendEvent, g': Group, n: nat,
      heard: seq<SendEvent>, logged: seq<SendEvent>)
    requires GroupOk(cfg, g) && SeenOk(logs, g, n, heard, logged) && HearNext(cfg, g, n, x, g')
    ensures SeenOk(logs, g', n, heard + HeardBy(Hears(n, x), n), logged + OwnSend(logs, g, Hears(n, x), g', n))
  {
    var p' := Hear(cfg, g.passes[n], x, g.count);
    HearOk(cfg, g.passes[n], logs[n], g.taken[n], x, g.count, heard, logged);
    assert g'.passes[n] == p' && g'.taken[n] == g.taken[n];
    Unchanged(logged);
    assert HeardBy(Hears(n, x), n) == [x] && OwnSend(logs, g, Hears(n, x), g', n) == [];
  }

  lemma OtherSeen(
      cfg: Config, logs: map<nat, seq<Entry>>, g: Group, act: Act, g': Group, n: nat,
      heard: seq<SendEvent>, logged: seq<SendEvent>)
    requires GroupOk(cfg, g) && SeenOk(logs, g, n, heard, logged) && GroupNext(cfg, logs, g, act, g') && act.node != n
    ensures SeenOk(logs, g', n, heard + HeardBy(act, n), logged + OwnSend(logs, g, act, g', n))
  {
    Unchanged(heard);
    Unchanged(logged);
  }

  /** One act of the group, seen from pass `n`. */
  lemma ActOk(
      cfg: Config, logs: map<nat, seq<Entry>>, g: Group, act: Act, g': Group, n: nat,
      heard: seq<SendEvent>, logged: seq<SendEvent>)
    requires GroupOk(cfg, g) && GroupNext(cfg, logs, g, act, g') && SeenOk(logs, g, n, heard, logged)
    ensures SeenOk(logs, g', n, heard + HeardBy(act, n), logged + OwnSend(logs, g, act, g', n))
  {
    if act.node != n {
      OtherSeen(cfg, logs, g, act, g', n, heard, logged);
    } else if act.Work? {
      WorkSeen(cfg, logs, g, g', n, heard, logged);
    } else {
      HearSeen(cfg, logs, g, act.x, g', n, heard, logged);
    }
  }

  lemma StartSeen(cfg: Config, logs: map<nat, seq<Entry>>, g: Group, n: nat)
    requires Start(cfg, logs, g) && n in logs
    ensures SeenOk(logs, g, n, [], [])
  {
  }

  lemma RunActOk(
      cfg: Config, logs: map<nat, seq<Entry>>, gs: seq<Group>, acts: seq<Act>, n: nat, i: nat,
      heard: seq<SendEvent>, logged: seq<SendEvent>)
    requires IsGroupRun(cfg, logs, gs, acts) && i < |acts| && SeenOk(logs, gs[i], n, heard, logged)
    ensures SeenOk(logs, gs[i + 1], n, heard + HeardBy(acts[i], n), logged + OwnSend(logs, gs[i], acts[i], gs[i + 1], n))
  {
    ActOk(cfg, logs, gs[i], acts[i], gs[i + 1], n, heard, logged);
  }

  lemma HeardNext(acts: seq<Act>, n: nat, i: nat)
    requires i < |acts|
    ensures Heard(acts[..i + 1], n) == Heard(acts[..i], n) + HeardBy(acts[i], n)
  {
    assert acts[..i + 1][..i] == acts[..i];
  }

  /** After `k` acts, pass `n` has lost nothing of what it heard and logged. */
  ghost predicate SeenAt(logs: map<nat, seq<Entry>>, gs: seq<Group>, acts: seq<Act>, n: nat, k: nat) {
    && |gs| == |acts| + 1 && k <= |acts|
    && SeenOk(logs, gs[k], n, Heard(acts[..k], n), Logged(logs, gs, acts, n, k))
  }

  lemma SeenNext(cfg: Config, logs: map<nat, seq<Entry>>, gs: seq<Group>, acts: seq<Act>, n: nat, i: nat)
    requires IsGroupRun(cfg, logs, gs, acts) && i < |acts| && SeenAt(logs, gs, acts, n, i)
    ensures SeenAt(logs, gs, acts, n, i + 1)
  {
    RunActOk(cfg, logs, gs, acts, n, i, Heard(acts[..i], n), Logged(logs, gs, acts, n, i));
    HeardNext(acts, n, i);
  }

  lemma {:induction false} RunSeen(
      cfg: Config, logs: map<nat, seq<Entry>>, gs: seq<Group>, acts: seq<Act>, n: nat, k: nat)
    requires IsGroupRun(cfg, logs, gs, acts) && k < |gs| && n in logs
    ensures SeenAt(logs, gs, acts, n, k)
  {
    if k == 0 {
      StartSeen(cfg, logs, gs[0], n);
    } else {
      RunSeen(cfg, logs, gs, acts, n, k - 1);
      SeenNext(cfg, logs, gs, acts, n, k - 1);
    }
  }

  /**
   Nothing heard is lost: at any time, the sends in flight and the mailbox of a
   pass hold exactly what it heard and what its log produced, the heard ones in
   order of arrival.
   */
  lemma NothingHeardIsLost(
      cfg: Config, logs: map<nat, seq<Entry>>, gs: seq<Group>, acts: seq<Act>, n: nat, k: nat)
    requires IsGroupRun(cfg, logs, gs, acts) && k < |gs| && n in logs
    ensures n in gs[k].passes
    ensures var p, heard, logged := gs[k].passes[n], Heard(acts[..k], n), Logged(logs, gs, acts, n, k);
      && multiset(p.node.messages) + multiset(p.mailbox) == multiset(heard) + multiset(logged)
      && IsMerge(logged, heard, p.node.messages + p.mailbox)
      && |p.mailbox| <= |heard| && p.mailbox == heard[|heard| - |p.mailbox|..]
  {
    RunSeen(cfg, logs, gs, acts, n, k);
    KeepsAll(gs[k].passes[n], Heard(acts[..k], n), Logged(logs, gs, acts, n, k));
  }

  lemma KeepsAll(p: Progress, heard: seq<SendEvent>, logged: seq<SendEvent>)
    requires Keeps(p, heard, logged)
    ensures multiset(p.node.messages) + multiset(p.mailbox) == multiset(heard) + multiset(logged)
    ensures IsMerge(logged, heard, p.node.messages + p.mailbox)
  {
    var h := |heard| - |p.mailbox|;
    MergeMore(logged, heard[..h], p.node.messages, p.mailbox);
    assert heard[..h] + p.mailbox == heard;
    MergeCounts(logged, heard, p.node.messages + p.mailbox);
  }

  lemma MergeHas(xs: seq<SendEvent>, ys: seq<SendEvent>, zs: seq<SendEvent>, f: Fields)
    requires multiset(zs) == multiset(xs) + multiset(ys)
    ensures NoneHas(zs, f) <==> NoneHas(xs, f) && NoneHas(ys, f)
  {
    forall x: SendEvent ensures x in zs <==> x in xs || x in ys {
      assert x in multiset(zs) <==> x in multiset(xs) || x in multiset(ys);
    }
    forall s: seq<SendEvent> ensures NoneHas(s, f) <==> forall x :: x in s ==> x.fields != f {
    }
  }

  /**
   A pass fails exactly on entries of unknown loggers, and waits exactly if its
   latest entry is a receive and no send that it heard or logged has the fields.
   */
  lemma WaitsExactlyWithoutMatch(
      cfg: Config, logs: map<nat, seq<Entry>>, gs: seq<Group>, acts: seq<Act>, n: nat, k: nat)
    requires IsGroupRun(cfg, logs, gs, acts) && k < |gs| && n in logs
    ensures n in gs[k].passes && n in gs[k].taken && gs[k].taken[n] <= |logs[n]|
    ensures gs[k].taken[n] == 0 ==> gs[k].passes[n].status == Finished
    ensures gs[k].taken[n] > 0 ==>
      var p, entry := gs[k].passes[n], logs[n][gs[k].taken[n] - 1];
      && (p.status.Failed? <==> entry.owner !in p.node.clocks)
      && (p.status.Blocked? <==>
            && entry.owner in p.node.clocks && entry.event.Receive?
            && NoneHas(Heard(acts[..k], n), entry.event.fields)
            && NoneHas(Logged(logs, gs, acts, n, k), entry.event.fields))
  {
    RunSeen(cfg, logs, gs, acts, n, k);
    if gs[k].taken[n] > 0 {
      PassWaits(gs[k].passes[n], logs[n], gs[k].taken[n], Heard(acts[..k], n), Logged(logs, gs, acts, n, k));
    }
  }

  lemma PassWaits(p: Progress, log: seq<Entry>, taken: nat, heard: seq<SendEvent>, logged: seq<SendEvent>)
    requires PassOk(p, log, taken, heard, logged) && taken > 0
    ensures var entry := log[taken - 1];
      p.status.Blocked? <==>
        && entry.owner in p.node.clocks && entry.event.Receive?
        && NoneHas(heard, entry.event.fields) && NoneHas(logged, entry.event.fields)
  {
    var entry, h := log[taken - 1], |heard| - |p.mailbox|;
    if entry.event.Receive? {
      MergeCounts(logged, heard[..h], p.node.messages);
      MergeHas(logged, heard[..h], p.node.messages, entry.event.fields);
      if p.status.Blocked? {
        assert heard[..h] == heard;
      } else if !NoneHas(heard[..h], entry.event.fields) {
        var i :| 0 <= i < h && heard[..h][i].fields == entry.event.fields;
        assert heard[i].fields == entry.event.fields;
      }
    }
  }
}
