/**
 Which events the annotator pairs up, stated over the logs alone: a receive is
 paired with a send of equal fields, an init with the oldest unclaimed spawn of
 its ID on the same node, and the end of a scoped actor with its parent.
 */
module EventMatching {
  import opened Basics
  import opened VectorLog
  import opened CausalHistory
  import opened AnnotatedRuns

  // -- the pairing, read off the log ------------------------------------------

  /** Entry `k` belongs to the log of node `n`. */
  ghost predicate On(cfg: Config, tr: Trace, k: nat, n: nat) {
    k < |tr| && tr[k].owner < |cfg.entities| && cfg.entities[tr[k].owner].node == n
  }

  /** Some init was already paired with spawn `k`. */
  ghost predicate Claimed(tr: Trace, k: nat) {
    exists i :: 0 <= i < |tr| && tr[i].event.Init? && tr[i].cause == Some(k)
  }

  ghost predicate OpenSpawn(cfg: Config, tr: Trace, n: nat, id: string, k: nat) {
    On(cfg, tr, k, n) && tr[k].event == Spawn(id) && !Claimed(tr, k)
  }

  ghost predicate LocalSend(cfg: Config, tr: Trace, n: nat, f: Fields, k: nat) {
    On(cfg, tr, k, n) && tr[k].event == Send(f)
  }

  /** Parent that the next terminate of `e` propagates to. */
  ghost function Parent(tr: Trace, e: nat): Option<nat> {
    if tr == [] then None else
    var f, p := tr[|tr| - 1], Parent(tr[..|tr| - 1], e);
    if f.owner != e then p
    else if f.event.Terminate? then None
    else if f.event == Init(SCOPED_ACTOR) && f.cause.Some? && f.cause.value < |tr| && p.None?
    then Some(tr[f.cause.value].owner)
    else p
  }

  ghost predicate Paired(cfg: Config, tr: Trace, f: Fact)
    requires f.owner < |cfg.entities|
  {
    var n, id := cfg.entities[f.owner].node, cfg.entities[f.owner].idText;
    match f.event
    case Receive(x) =>
      && f.heir.None? && f.cause.Some? && f.cause.value < |tr|
      && tr[f.cause.value].event == Send(x)
      && (On(cfg, tr, f.cause.value, n) ==> forall k :: LocalSend(cfg, tr, n, x, k) ==> f.cause.value <= k)
    case Init(_) =>
      && f.heir.None?
      && (f.cause.None? ==> forall k :: !OpenSpawn(cfg, tr, n, id, k))
      && (f.cause.Some? ==>
            && OpenSpawn(cfg, tr, n, id, f.cause.value)
            && forall k :: OpenSpawn(cfg, tr, n, id, k) ==> f.cause.value <= k)
    case Terminate => f.cause.None? && f.heir == Parent(tr, f.owner)
    case _ => f.cause.None? && f.heir.None?
  }

  // -- the stores track the log -----------------------------------------------

  ghost predicate Queued(ss: seq<SpawnEvent>, k: nat) {
    exists x :: 0 <= x < |ss| && ss[x].origin == k
  }

  ghost predicate SpawnsTrack(cfg: Config, tr: Trace, n: nat, ss: seq<SpawnEvent>) {
    && (forall x :: 0 <= x < |ss| ==>
          OpenSpawn(cfg, tr, n, ss[x].id, ss[x].origin) && ss[x].source == tr[ss[x].origin].owner)
    && (forall x, y :: 0 <= x < y < |ss| ==> ss[x].origin < ss[y].origin)
    && (forall id, k :: OpenSpawn(cfg, tr, n, id, k) ==> Queued(ss, k))
  }

  ghost predicate Holds(ms: seq<SendEvent>, upto: nat, k: nat)
    requires upto <= |ms|
  {
    exists x :: 0 <= x < upto && ms[x].origin == k
  }

  ghost predicate MessagesTrack(cfg: Config, tr: Trace, n: nat, ms: seq<SendEvent>) {
    && (forall x :: 0 <= x < |ms| ==> ms[x].origin < |tr| && tr[ms[x].origin].event == Send(ms[x].fields))
    && (forall f, k :: LocalSend(cfg, tr, n, f, k) ==> Holds(ms, |ms|, k))
    && (forall y, f, k: nat :: 0 <= y < |ms| && On(cfg, tr, ms[y].origin, n) && LocalSend(cfg, tr, n, f, k) ==>
          k < ms[y].origin ==> Holds(ms, y, k))
  }

  ghost predicate ScopedTrack(tr: Trace, node: Node) {
    forall e :: e in node.clocks ==> Parent(tr, e) == if e in node.scoped then Some(node.scoped[e]) else None
  }

  ghost predicate Tracks(cfg: Config, tr: Trace, n: nat, node: Node) {
    && SpawnsTrack(cfg, tr, n, node.spawns)
    && MessagesTrack(cfg, tr, n, node.messages)
    && ScopedTrack(tr, node)
  }

  ghost predicate Tracked(cfg: Config, w: World) {
    && WorldOk(cfg, w)
    && (forall s :: s in w.sent ==> s.origin < |w.trace| && w.trace[s.origin].event == Send(s.fields))
    && (forall n :: n in w.nodes ==> Tracks(cfg, w.trace, n, w.nodes[n]))
  }

  ghost predicate AllPaired(cfg: Config, tr: Trace) {
    forall i :: 0 <= i < |tr| ==> tr[i].owner < |cfg.entities| && Paired(cfg, tr[..i], tr[i])
  }

  // -- each entry is paired as stated -----------------------------------------

  lemma FirstSendLeast(cfg: Config, tr: Trace, n: nat, ms: seq<SendEvent>, f: Fields)
    requires MessagesTrack(cfg, tr, n, ms)
    ensures var i := FirstSend(ms, f);
      forall k :: LocalSend(cfg, tr, n, f, k) ==>
        i < |ms| && (On(cfg, tr, ms[i].origin, n) ==> ms[i].origin <= k)
  {
    var i := FirstSend(ms, f);
    forall k | LocalSend(cfg, tr, n, f, k)
      ensures i < |ms| && (On(cfg, tr, ms[i].origin, n) ==> ms[i].origin <= k)
    {
      assert Holds(ms, |ms|, k);
    }
  }

  lemma FirstSpawnLeast(cfg: Config, tr: Trace, n: nat, ss: seq<SpawnEvent>, id: string)
    requires SpawnsTrack(cfg, tr, n, ss)
    ensures var i := FirstSpawn(ss, id);
      forall k :: OpenSpawn(cfg, tr, n, id, k) ==> i < |ss| && ss[i].origin <= k
  {
  }

  /** A receive is paired with the first stored send of equal fields, or with the first in the mailbox. */
  lemma ReceivePaired(
      cfg: Config, tr: Trace, sent: set<SendEvent>, n: nat, node: Node, mailbox: seq<SendEvent>, e: nat, f: Fields)
    requires NodeOk(cfg, node) && SizedSends(cfg, mailbox) && e in node.clocks && cfg.entities[e].node == n
    requires MessagesTrack(cfg, tr, n, node.messages)
    requires forall s :: s in mailbox ==> s in sent
    requires forall s :: s in sent ==> s.origin < |tr| && tr[s.origin].event == Send(s.fields)
    requires ReceiveStep(cfg, node, mailbox, e, f).Done?
    ensures var r := ReceiveStep(cfg, node, mailbox, e, f);
      forall printed, stamp :: Paired(cfg, tr, Fact(e, Receive(f), printed, stamp, r.cause, r.heir))
  {
    FirstSendLeast(cfg, tr, n, node.messages, f);
    var i, j := FirstSend(node.messages, f), FirstSend(mailbox, f);
    if i == |node.messages| {
      assert mailbox[j] in sent;
    }
  }

  /** An init is paired with the first stored spawn of its ID. */
  lemma InitPaired(cfg: Config, tr: Trace, n: nat, node: Node, mailbox: seq<SendEvent>, e: nat, name: string)
    requires NodeOk(cfg, node) && SizedSends(cfg, mailbox) && e in node.clocks && cfg.entities[e].node == n
    requires SpawnsTrack(cfg, tr, n, node.spawns)
    ensures var r := InitStep(cfg, node, mailbox, e, name);
      forall printed, stamp :: Paired(cfg, tr, Fact(e, Init(name), printed, stamp, r.cause, r.heir))
  {
    FirstSpawnLeast(cfg, tr, n, node.spawns, cfg.entities[e].idText);
  }

  lemma EntryPaired(
      cfg: Config, tr: Trace, sent: set<SendEvent>, n: nat, node: Node, mailbox: seq<SendEvent>, entry: Entry, id: nat,
      r: Outcome)
    requires NodeOk(cfg, node) && SizedSends(cfg, mailbox) && Tracks(cfg, tr, n, node)
    requires r == ReplayStep(cfg, node, mailbox, entry, id) && r.Done?
    requires entry.owner < |cfg.entities| && cfg.entities[entry.owner].node == n
    requires forall s :: s in mailbox ==> s in sent
    requires forall s :: s in sent ==> s.origin < |tr| && tr[s.origin].event == Send(s.fields)
    ensures Paired(cfg, tr, FactOf(cfg, entry, r))
  {
    var e := entry.owner;
    var ticked := node.(clocks := node.clocks[e := Ticked(cfg, node, e)]);
    match entry.event
    case Receive(f) => ReceivePaired(cfg, tr, sent, n, ticked, mailbox, e, f);
    case Init(name) => InitPaired(cfg, tr, n, ticked, mailbox, e, name);
    case _ =>
  }

  lemma StepPaired(cfg: Config, w: World, l: Label, w': World)
    requires Tracked(cfg, w) && Next(cfg, w, l, w')
    ensures l.entry.owner < |cfg.entities| && Paired(cfg, w.trace, w'.trace[|w.trace|])
  {
    var node, id := w.nodes[l.node], |w.trace|;
    var r := ReplayStep(cfg, node, l.mailbox, l.entry, id);
    EntryPaired(cfg, w.trace, w.sent, l.node, node, l.mailbox, l.entry, id, r);
  }

  // -- the stores keep tracking -----------------------------------------------

  lemma ClaimedExtend(tr: Trace, f: Fact, k: nat)
    ensures Claimed(tr + [f], k) <==> Claimed(tr, k) || (f.event.Init? && f.cause == Some(k))
  {
    var tr' := tr + [f];
    if Claimed(tr, k) {
      var i :| 0 <= i < |tr| && tr[i].event.Init? && tr[i].cause == Some(k);
      assert tr'[i] == tr[i];
    }
    assert tr'[|tr|] == f;
  }

  lemma OpenExtend(cfg: Config, tr: Trace, f: Fact, n: nat, id: string, k: nat)
    ensures OpenSpawn(cfg, tr + [f], n, id, k) <==>
      || (OpenSpawn(cfg, tr, n, id, k) && !(f.event.Init? && f.cause == Some(k)))
      || (k == |tr| && On(cfg, tr + [f], k, n) && f.event == Spawn(id) && !Claimed(tr, k))
  {
    ClaimedExtend(tr, f, k);
  }

  /** Claims only ever name earlier entries. */
  ghost predicate CausesBack(tr: Trace) {
    forall i :: 0 <= i < |tr| && tr[i].cause.Some? ==> tr[i].cause.value < i
  }

  lemma SpawnsUntouched(cfg: Config, tr: Trace, f: Fact, n: nat, ss: seq<SpawnEvent>)
    requires SpawnsTrack(cfg, tr, n, ss)
    requires On(cfg, tr + [f], |tr|, n) ==> !f.event.Spawn?
    requires f.event.Init? && f.cause.Some? ==> !On(cfg, tr, f.cause.value, n)
    ensures SpawnsTrack(cfg, tr + [f], n, ss)
  {
    forall id, k ensures OpenSpawn(cfg, tr + [f], n, id, k) <==> OpenSpawn(cfg, tr, n, id, k) {
      OpenExtend(cfg, tr, f, n, id, k);
    }
  }

  lemma SpawnsAppend(cfg: Config, tr: Trace, f: Fact, n: nat, ss: seq<SpawnEvent>, s: SpawnEvent)
    requires SpawnsTrack(cfg, tr, n, ss) && CausesBack(tr)
    requires On(cfg, tr + [f], |tr|, n) && f.event == Spawn(s.id) && s.origin == |tr| && s.source == f.owner
    ensures SpawnsTrack(cfg, tr + [f], n, ss + [s])
  {
    forall id, k ensures OpenSpawn(cfg, tr + [f], n, id, k) <==>
      OpenSpawn(cfg, tr, n, id, k) || (k == |tr| && id == s.id)
    {
      OpenExtend(cfg, tr, f, n, id, k);
    }
    var ss' := ss + [s];
    forall id, k | OpenSpawn(cfg, tr + [f], n, id, k) ensures Queued(ss', k) {
      if k == |tr| {
        assert ss'[|ss|].origin == k;
      } else {
        var x :| 0 <= x < |ss| && ss[x].origin == k;
        assert ss'[x].origin == k;
      }
    }
  }

  lemma QueuedErase(ss: seq<SpawnEvent>, i: nat, k: nat)
    requires Queued(ss, k) && i < |ss| && k != ss[i].origin
    ensures Queued(Without(ss, i), k)
  {
    var x :| 0 <= x < |ss| && ss[x].origin == k;
    assert Without(ss, i)[if x < i then x else x - 1].origin == k;
  }

  lemma SpawnsErase(cfg: Config, tr: Trace, f: Fact, n: nat, ss: seq<SpawnEvent>, i: nat)
    requires SpawnsTrack(cfg, tr, n, ss) && i < |ss|
    requires f.event.Init? && f.cause == Some(ss[i].origin)
    ensures SpawnsTrack(cfg, tr + [f], n, Without(ss, i))
  {
    var ss' := Without(ss, i);
    forall id, k ensures OpenSpawn(cfg, tr + [f], n, id, k) <==>
      OpenSpawn(cfg, tr, n, id, k) && k != ss[i].origin
    {
      OpenExtend(cfg, tr, f, n, id, k);
    }
    forall k: nat | Queued(ss, k) && k != ss[i].origin ensures Queued(ss', k) {
      QueuedErase(ss, i, k);
    }
  }

  lemma MessagesUntouched(cfg: Config, tr: Trace, f: Fact, n: nat, ms: seq<SendEvent>)
    requires MessagesTrack(cfg, tr, n, ms)
    requires On(cfg, tr + [f], |tr|, n) ==> !f.event.Send?
    ensures MessagesTrack(cfg, tr + [f], n, ms)
  {
    forall x, k ensures LocalSend(cfg, tr + [f], n, x, k) <==> LocalSend(cfg, tr, n, x, k) {
    }
    forall y | 0 <= y < |ms| ensures On(cfg, tr + [f], ms[y].origin, n) <==> On(cfg, tr, ms[y].origin, n) {
    }
  }

  lemma HoldsPrefix(ms: seq<SendEvent>, more: seq<SendEvent>, y: nat, k: nat)
    requires y <= |ms|
    ensures Holds(ms + more, y, k) <==> Holds(ms, y, k)
    ensures Holds(ms, |ms|, k) ==> forall z :: |ms| <= z <= |ms + more| ==> Holds(ms + more, z, k)
  {
    assert forall x :: 0 <= x < |ms| ==> (ms + more)[x] == ms[x];
    if Holds(ms, y, k) {
      var x :| 0 <= x < y && ms[x].origin == k;
      assert (ms + more)[x].origin == k;
    }
    if Holds(ms, |ms|, k) {
      var x :| 0 <= x < |ms| && ms[x].origin == k;
      assert (ms + more)[x].origin == k;
    }
  }

  lemma MessagesFetched(cfg: Config, tr: Trace, n: nat, ms: seq<SendEvent>, more: seq<SendEvent>)
    requires MessagesTrack(cfg, tr, n, ms)
    requires forall x :: 0 <= x < |more| ==> more[x].origin < |tr| && tr[more[x].origin].event == Send(more[x].fields)
    ensures MessagesTrack(cfg, tr, n, ms + more)
  {
    forall y: nat, k: nat | y <= |ms|
      ensures Holds(ms + more, y, k) <==> Holds(ms, y, k)
      ensures Holds(ms, |ms|, k) ==> forall z :: |ms| <= z <= |ms + more| ==> Holds(ms + more, z, k)
    {
      HoldsPrefix(ms, more, y, k);
    }
  }

  lemma MessagesAppend(cfg: Config, tr: Trace, f: Fact, n: nat, ms: seq<SendEvent>, s: SendEvent)
    requires MessagesTrack(cfg, tr, n, ms)
    requires On(cfg, tr + [f], |tr|, n) && f.event == Send(s.fields) && s.origin == |tr|
    ensures MessagesTrack(cfg, tr + [f], n, ms + [s])
  {
    var ms' := ms + [s];
    forall y: nat, k: nat | y <= |ms|
      ensures Holds(ms', y, k) <==> Holds(ms, y, k)
      ensures Holds(ms, |ms|, k) ==> Holds(ms', |ms|, k) && Holds(ms', |ms'|, k)
    {
      HoldsPrefix(ms, [s], y, k);
    }
    assert ms'[|ms|].origin == |tr|;
    forall x, k | LocalSend(cfg, tr + [f], n, x, k) ensures k == |tr| || LocalSend(cfg, tr, n, x, k) {
    }
    forall y | 0 <= y < |ms| ensures On(cfg, tr + [f], ms[y].origin, n) <==> On(cfg, tr, ms[y].origin, n) {
    }
  }

  lemma ParentExtend(tr: Trace, f: Fact, e: nat)
    ensures var tr' := tr + [f]; var p := Parent(tr, e);
      Parent(tr', e) ==
        if f.owner != e then p
        else if f.event.Terminate? then None
        else if f.event == Init(SCOPED_ACTOR) && f.cause.Some? && f.cause.value < |tr'| && p.None?
        then Some(tr'[f.cause.value].owner)
        else p
  {
  }

  // -- over whole runs --------------------------------------------------------

  lemma RemoteTracks(cfg: Config, tr: Trace, f: Fact, n: nat, node: Node)
    requires Tracks(cfg, tr, n, node) && NodeOk(cfg, node)
    requires f.owner < |cfg.entities| && cfg.entities[f.owner].node != n && Paired(cfg, tr, f)
    requires forall e :: e in node.clocks ==> cfg.entities[e].node == n
    ensures Tracks(cfg, tr + [f], n, node)
  {
    SpawnsUntouched(cfg, tr, f, n, node.spawns);
    MessagesUntouched(cfg, tr, f, n, node.messages);
    forall e | e in node.clocks ensures Parent(tr + [f], e) == Parent(tr, e) {
      ParentExtend(tr, f, e);
    }
  }

  /** Entry `entry` of node `n` is replayed after trace `tr` with result `r`. */
  ghost predicate StepsTo(cfg: Config, tr: Trace, n: nat, node: Node, mailbox: seq<SendEvent>, entry: Entry, r: Outcome) {
    && NodeOk(cfg, node) && SizedSends(cfg, mailbox)
    && entry.owner in node.clocks && cfg.entities[entry.owner].node == n
    && r == ReplayStep(cfg, node, mailbox, entry, |tr|)
    && r.Done?
  }

  lemma LocalSpawns(cfg: Config, tr: Trace, n: nat, node: Node, mailbox: seq<SendEvent>, entry: Entry, r: Outcome)
    requires StepsTo(cfg, tr, n, node, mailbox, entry, r)
    requires SpawnsTrack(cfg, tr, n, node.spawns) && CausesBack(tr)
    ensures SpawnsTrack(cfg, tr + [FactOf(cfg, entry, r)], n, r.node.spawns)
  {
    var f := FactOf(cfg, entry, r);
    if entry.event.Spawn? {
      SpawnsAppend(cfg, tr, f, n, node.spawns, SpawnEvent(|tr|, f.owner, entry.event.id, f.stamp));
    } else if entry.event.Init? && FirstSpawn(node.spawns, cfg.entities[f.owner].idText) < |node.spawns| {
      SpawnsErase(cfg, tr, f, n, node.spawns, FirstSpawn(node.spawns, cfg.entities[f.owner].idText));
    } else {
      SpawnsUntouched(cfg, tr, f, n, node.spawns);
    }
  }

  lemma LocalMessages(cfg: Config, tr: Trace, n: nat, node: Node, mailbox: seq<SendEvent>, entry: Entry, r: Outcome)
    requires StepsTo(cfg, tr, n, node, mailbox, entry, r)
    requires MessagesTrack(cfg, tr, n, node.messages)
    requires forall x :: 0 <= x < |mailbox| ==>
      mailbox[x].origin < |tr| && tr[mailbox[x].origin].event == Send(mailbox[x].fields)
    ensures MessagesTrack(cfg, tr + [FactOf(cfg, entry, r)], n, r.node.messages)
  {
    var ms, f := node.messages, FactOf(cfg, entry, r);
    if entry.event.Send? {
      MessagesAppend(cfg, tr, f, n, ms, SendEvent(|tr|, entry.event.fields, f.stamp));
    } else if entry.event.Receive? && FirstSend(ms, entry.event.fields) == |ms| {
      var more := mailbox[..FirstSend(mailbox, entry.event.fields) + 1];
      MessagesFetched(cfg, tr, n, ms, more);
      MessagesUntouched(cfg, tr, f, n, ms + more);
    } else {
      MessagesUntouched(cfg, tr, f, n, ms);
    }
  }

  /** How one entry changes the map of scoped actors. */
  lemma ScopedEffect(cfg: Config, tr: Trace, n: nat, node: Node, mailbox: seq<SendEvent>, entry: Entry, r: Outcome)
    requires StepsTo(cfg, tr, n, node, mailbox, entry, r)
    requires SpawnsTrack(cfg, tr, n, node.spawns)
    ensures r.node.clocks.Keys == node.clocks.Keys
    ensures r.node.scoped ==
      if entry.event.Terminate? then node.scoped - {entry.owner}
      else if entry.event == Init(SCOPED_ACTOR) && r.cause.Some? && r.cause.value < |tr| && entry.owner !in node.scoped
      then node.scoped[entry.owner := tr[r.cause.value].owner]
      else node.scoped
  {
  }

  lemma LocalScoped(cfg: Config, tr: Trace, n: nat, node: Node, mailbox: seq<SendEvent>, entry: Entry, r: Outcome)
    requires StepsTo(cfg, tr, n, node, mailbox, entry, r)
    requires ScopedTrack(tr, node) && SpawnsTrack(cfg, tr, n, node.spawns)
    ensures ScopedTrack(tr + [FactOf(cfg, entry, r)], r.node)
  {
    ScopedEffect(cfg, tr, n, node, mailbox, entry, r);
    ScopedKept(tr, FactOf(cfg, entry, r), node, r.node);
  }

  lemma ScopedKept(tr: Trace, f: Fact, node: Node, node': Node)
    requires ScopedTrack(tr, node) && node'.clocks.Keys == node.clocks.Keys
    requires f.owner in node.clocks
    requires f.cause.Some? && f.event.Init? ==> f.cause.value < |tr|
    requires node'.scoped ==
      if f.event.Terminate? then node.scoped - {f.owner}
      else if f.event == Init(SCOPED_ACTOR) && f.cause.Some? && f.owner !in node.scoped
      then node.scoped[f.owner := tr[f.cause.value].owner]
      else node.scoped
    ensures ScopedTrack(tr + [f], node')
  {
  }

  lemma LocalTracks(cfg: Config, w: World, l: Label, w': World)
    requires Tracked(cfg, w) && CausesBack(w.trace) && Next(cfg, w, l, w')
    ensures Tracks(cfg, w'.trace, l.node, w'.nodes[l.node])
  {
    var node, r := w.nodes[l.node], ReplayStep(cfg, w.nodes[l.node], l.mailbox, l.entry, |w.trace|);
    assert cfg.entities[l.entry.owner].node == l.node;
    assert forall x :: 0 <= x < |l.mailbox| ==> l.mailbox[x] in w.sent;
    assert StepsTo(cfg, w.trace, l.node, node, l.mailbox, l.entry, r);
    LocalSpawns(cfg, w.trace, l.node, node, l.mailbox, l.entry, r);
    LocalMessages(cfg, w.trace, l.node, node, l.mailbox, l.entry, r);
    LocalScoped(cfg, w.trace, l.node, node, l.mailbox, l.entry, r);
  }

  lemma TrackedNext(cfg: Config, w: World, l: Label, w': World)
    requires Tracked(cfg, w) && CausesBack(w.trace) && Next(cfg, w, l, w') && WorldOk(cfg, w')
    ensures Tracked(cfg, w')
  {
    StepPaired(cfg, w, l, w');
    LocalTracks(cfg, w, l, w');
    assert cfg.entities[l.entry.owner].node == l.node;
    forall n | n in w.nodes && n != l.node ensures Tracks(cfg, w'.trace, n, w.nodes[n]) {
      RemoteTracks(cfg, w.trace, w'.trace[|w.trace|], n, w.nodes[n]);
    }
  }

  lemma InitialTracked(cfg: Config, w: World)
    requires Initial(cfg, w)
    ensures Tracked(cfg, w)
  {
  }

  lemma PairedExtend(cfg: Config, tr: Trace, f: Fact)
    requires AllPaired(cfg, tr) && f.owner < |cfg.entities| && Paired(cfg, tr, f)
    ensures AllPaired(cfg, tr + [f])
  {
    forall i | 0 <= i < |tr + [f]|
      ensures (tr + [f])[i].owner < |cfg.entities| && Paired(cfg, (tr + [f])[..i], (tr + [f])[i])
    {
      assert (tr + [f])[..i] == if i < |tr| then tr[..i] else tr;
    }
  }

  /** Every entry of every run is paired as the logs alone prescribe. */
  lemma {:induction false} RunPaired(cfg: Config, ws: seq<World>, ls: seq<Label>, k: nat)
    requires IsRun(cfg, ws, ls) && k < |ws|
    ensures Tracked(cfg, ws[k]) && AllPaired(cfg, ws[k].trace) && CausesBack(ws[k].trace)
  {
    RunExact(cfg, ws, ls, k);
    if k == 0 {
      InitialTracked(cfg, ws[0]);
    } else {
      RunPaired(cfg, ws, ls, k - 1);
      assert Next(cfg, ws[k - 1], ls[k - 1], ws[k]);
      PairedNext(cfg, ws[k - 1], ls[k - 1], ws[k]);
    }
  }

  lemma PairedNext(cfg: Config, w: World, l: Label, w': World)
    requires Tracked(cfg, w) && AllPaired(cfg, w.trace) && CausesBack(w.trace)
    requires Next(cfg, w, l, w') && WorldOk(cfg, w')
    ensures Tracked(cfg, w') && AllPaired(cfg, w'.trace) && CausesBack(w'.trace)
  {
    StepPaired(cfg, w, l, w');
    TrackedNext(cfg, w, l, w');
    PairedExtend(cfg, w.trace, w'.trace[|w.trace|]);
  }

  /** No spawn is ever paired with two inits. */
  lemma SpawnsClaimedOnce(cfg: Config, ws: seq<World>, ls: seq<Label>, k: nat, i: nat, j: nat)
    requires IsRun(cfg, ws, ls) && k < |ws|
    requires i < j < |ws[k].trace| && ws[k].trace[i].event.Init? && ws[k].trace[j].event.Init?
    ensures ws[k].trace[i].cause.Some? ==> ws[k].trace[i].cause != ws[k].trace[j].cause
  {
    RunPaired(cfg, ws, ls, k);
    var tr := ws[k].trace;
    if tr[i].cause.Some? && tr[i].cause == tr[j].cause {
      assert tr[..j][i] == tr[i];
      assert Claimed(tr[..j], tr[j].cause.value);
      assert false;
    }
  }
}
