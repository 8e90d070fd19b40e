/**
 Runs of the annotator over the logs of all nodes, and the theorem that the
 printed stamps describe causality exactly.

 Every node replays its own log; a step of the run is one entry of one node.
 The mailbox of a step may hold any sends that were broadcast before, in any
 order, so every way of delivering broadcasts is covered.
 */
module AnnotatedRuns {
  import opened Basics
  import opened VectorLog
  import opened CausalHistory

  datatype World = World(nodes: map<nat, Node>, sent: set<SendEvent>, trace: Trace)

  datatype Label = Label(node: nat, entry: Entry, mailbox: seq<SendEvent>)

  ghost predicate WorldOk(cfg: Config, w: World) {
    && (forall n :: n in w.nodes ==> NodeOk(cfg, w.nodes[n]))
    && (forall n, e :: n in w.nodes && e in w.nodes[n].clocks ==> cfg.entities[e].node == n)
    && (forall s :: s in w.sent ==> |s.vstamp| == |cfg.entities|)
  }

  ghost predicate Fresh(cfg: Config, node: Node) {
    && node.messages == [] && node.spawns == [] && node.scoped == map[]
    && forall e :: e in node.clocks ==> node.clocks[e] == Zero(|cfg.entities|)
  }

  ghost predicate Initial(cfg: Config, w: World) {
    && WorldOk(cfg, w)
    && (forall n :: n in w.nodes ==> Fresh(cfg, w.nodes[n]))
    && w.sent == {}
    && w.trace == []
  }

  /** What a step broadcasts to the group. */
  ghost function Broadcast(id: nat, entry: Entry, stamp: Clock): set<SendEvent> {
    if entry.event.Send? then {SendEvent(id, entry.event.fields, stamp)} else {}
  }

  ghost function FactOf(cfg: Config, entry: Entry, r: Outcome): Fact
    requires r.Done? && entry.owner < |cfg.entities|
  {
    Fact(entry.owner, entry.event, !cfg.Internal(entry.owner), r.stamp, r.cause, r.heir)
  }

  ghost predicate Next(cfg: Config, w: World, l: Label, w': World)
    requires WorldOk(cfg, w)
  {
    && l.node in w.nodes
    && (forall s :: s in l.mailbox ==> s in w.sent)
    && var id := |w.trace|;
       var r := ReplayStep(cfg, w.nodes[l.node], l.mailbox, l.entry, id);
       && r.Done?
       && w' == World(w.nodes[l.node := r.node],
                      w.sent + Broadcast(id, l.entry, r.stamp),
                      w.trace + [FactOf(cfg, l.entry, r)])
  }

  ghost predicate IsRun(cfg: Config, ws: seq<World>, ls: seq<Label>) {
    && |ws| == |ls| + 1
    && Initial(cfg, ws[0])
    && forall i :: 0 <= i < |ls| ==> WorldOk(cfg, ws[i]) && Next(cfg, ws[i], ls[i], ws[i + 1])
  }

  // -- the invariant ----------------------------------------------------------

  /** `c` is the stamp of the causal past of entry `i`. */
  ghost predicate Describes(cfg: Config, tr: Trace, i: nat, c: Clock) {
    i < |tr| && c == StampOf(tr, Past(tr, i), |cfg.entities|)
  }

  ghost predicate ClocksExact(cfg: Config, tr: Trace, node: Node) {
    forall e :: e in node.clocks ==> node.clocks[e] == StampOf(tr, Seen(tr, e), |cfg.entities|)
  }

  ghost predicate FactsExact(cfg: Config, tr: Trace) {
    forall i :: 0 <= i < |tr| ==>
      && tr[i].owner < |cfg.entities|
      && tr[i].printed == !cfg.Internal(tr[i].owner)
      && Describes(cfg, tr, i, tr[i].stamp)
  }

  ghost predicate Exact(cfg: Config, w: World) {
    && WorldOk(cfg, w)
    && FactsExact(cfg, w.trace)
    && (forall s :: s in w.sent ==> Describes(cfg, w.trace, s.origin, s.vstamp))
    && forall n :: n in w.nodes ==>
        && ClocksExact(cfg, w.trace, w.nodes[n])
        && (forall s :: s in w.nodes[n].messages ==> s in w.sent)
        && (forall s :: s in w.nodes[n].spawns ==> Describes(cfg, w.trace, s.origin, s.vstamp))
  }

  // -- what a step does to clocks and stores ----------------------------------

  /** `o` and `c` belong to some event the node could merge. */
  ghost predicate Mergeable(node: Node, mailbox: seq<SendEvent>, o: nat, c: Clock) {
    || (exists s :: s in node.messages && s.origin == o && s.vstamp == c)
    || (exists s :: s in mailbox && s.origin == o && s.vstamp == c)
    || (exists s :: s in node.spawns && s.origin == o && s.vstamp == c)
  }

  /** The entry's own clock: ticked, and joined with the stamp of its cause. */
  ghost predicate OwnEffect(cfg: Config, node: Node, mailbox: seq<SendEvent>, e: nat, r: Outcome)
    requires NodeOk(cfg, node) && e in node.clocks && r.Done?
  {
    var c := Ticked(cfg, node, e);
    match r.cause
    case None => r.stamp == c
    case Some(o) => exists m :: Mergeable(node, mailbox, o, m) && |m| == |c| && r.stamp == Join(c, m)
  }

  /** The clocks of everybody else: unchanged, except for an heir. */
  ghost predicate OtherEffect(cfg: Config, node: Node, e: nat, r: Outcome)
    requires NodeOk(cfg, node) && e in node.clocks && r.Done?
  {
    && (r.heir.Some? ==> r.heir.value in node.clocks)
    && r.node.clocks.Keys == node.clocks.Keys
    && r.node.clocks[e] == r.stamp
    && |r.stamp| == |cfg.entities|
    && forall x :: x in node.clocks && x != e ==>
        r.node.clocks[x] == if r.heir == Some(x) then Join(node.clocks[x], r.stamp) else node.clocks[x]
  }

  ghost predicate StoreEffect(node: Node, mailbox: seq<SendEvent>, entry: Entry, id: nat, r: Outcome)
    requires r.Done?
  {
    && (forall s :: s in r.node.messages ==> s in node.messages || s in mailbox || s in Broadcast(id, entry, r.stamp))
    && (forall s :: s in r.node.spawns ==> s in node.spawns || (s.origin == id && s.vstamp == r.stamp))
  }

  ghost predicate Effect(cfg: Config, node: Node, mailbox: seq<SendEvent>, entry: Entry, id: nat, r: Outcome)
    requires NodeOk(cfg, node) && entry.owner in node.clocks
  {
    && r.Done?
    && OwnEffect(cfg, node, mailbox, entry.owner, r)
    && OtherEffect(cfg, node, entry.owner, r)
    && StoreEffect(node, mailbox, entry, id, r)
  }

  lemma ReceiveEffect(cfg: Config, node: Node, mailbox: seq<SendEvent>, entry: Entry, id: nat)
    requires NodeOk(cfg, node) && SizedSends(cfg, mailbox) && entry.owner in node.clocks && entry.event.Receive?
    requires ReplayStep(cfg, node, mailbox, entry, id).Done?
    ensures Effect(cfg, node, mailbox, entry, id, ReplayStep(cfg, node, mailbox, entry, id))
  {
  }

  lemma InitEffect(cfg: Config, node: Node, mailbox: seq<SendEvent>, entry: Entry, id: nat)
    requires NodeOk(cfg, node) && SizedSends(cfg, mailbox) && entry.owner in node.clocks && entry.event.Init?
    ensures Effect(cfg, node, mailbox, entry, id, ReplayStep(cfg, node, mailbox, entry, id))
  {
  }

  lemma TerminateEffect(cfg: Config, node: Node, mailbox: seq<SendEvent>, entry: Entry, id: nat)
    requires NodeOk(cfg, node) && SizedSends(cfg, mailbox) && entry.owner in node.clocks && entry.event.Terminate?
    ensures Effect(cfg, node, mailbox, entry, id, ReplayStep(cfg, node, mailbox, entry, id))
  {
  }

  lemma StepEffect(cfg: Config, node: Node, mailbox: seq<SendEvent>, entry: Entry, id: nat)
    requires NodeOk(cfg, node) && SizedSends(cfg, mailbox) && entry.owner in node.clocks
    requires ReplayStep(cfg, node, mailbox, entry, id).Done?
    ensures Effect(cfg, node, mailbox, entry, id, ReplayStep(cfg, node, mailbox, entry, id))
  {
    match entry.event
    case Receive(_) => ReceiveEffect(cfg, node, mailbox, entry, id);
    case Init(_) => InitEffect(cfg, node, mailbox, entry, id);
    case Terminate => TerminateEffect(cfg, node, mailbox, entry, id);
    case _ =>
  }

  // -- the invariant is kept --------------------------------------------------

  lemma DescribesExtend(cfg: Config, tr: Trace, f: Fact, i: nat, c: Clock)
    requires Describes(cfg, tr, i, c)
    ensures Describes(cfg, tr + [f], i, c)
  {
    PastExtend(tr, f, i);
    StampExtend(tr, f, Past(tr, i), |cfg.entities|);
  }

  /** Tick and join compute the stamp of the fresh entry's past. */
  lemma FreshStamp(cfg: Config, tr: Trace, f: Fact, c: Clock)
    requires f.owner < |cfg.entities|
    requires c == StampOf(tr, Seen(tr, f.owner), |cfg.entities|)
    requires f.cause.Some? ==> f.cause.value < |tr|
    ensures var n := |cfg.entities|;
      var ticked := if f.printed then Tick(c, f.owner) else c;
      StampOf(tr + [f], Past(tr + [f], |tr|), n)
      == if f.cause.Some? then Join(ticked, StampOf(tr, Past(tr, f.cause.value), n)) else ticked
  {
    StampNew(tr, f, Seen(tr, f.owner), |cfg.entities|);
    PastNew(tr, f);
    if f.cause.Some? {
      CausedStamp(tr, f, |cfg.entities|);
    } else {
      assert Seen(tr, f.owner) + {|tr|} == Past(tr + [f], |tr|);
    }
  }

  lemma CausedStamp(tr: Trace, f: Fact, n: nat)
    requires f.cause.Some? && f.cause.value < |tr|
    ensures StampOf(tr + [f], Past(tr + [f], |tr|), n)
      == Join(StampOf(tr + [f], Seen(tr, f.owner) + {|tr|}, n), StampOf(tr, Past(tr, f.cause.value), n))
  {
    var own, past := Seen(tr, f.owner) + {|tr|}, Past(tr, f.cause.value);
    OwnClosed(tr, f);
    PastClosed(tr, f.cause.value);
    assert Closed(tr + [f], past);
    StampExtend(tr, f, past, n);
    JoinIsUnion(tr + [f], own, past, n);
    PastNew(tr, f);
    assert own + past == Past(tr + [f], |tr|);
  }

  lemma OwnClosed(tr: Trace, f: Fact)
    ensures Closed(tr + [f], Seen(tr, f.owner) + {|tr|})
  {
    SeenClosed(tr, f.owner);
    forall j: nat | j < |tr| && tr[j].owner == f.owner ensures j in Seen(tr, f.owner) {
      assert Feeds(tr, j, f.owner) && j in Past(tr, j);
    }
  }

  /** A clock that takes part in neither the entry nor its inheritance keeps its meaning. */
  lemma BystanderClock(cfg: Config, tr: Trace, f: Fact, x: nat, c: Clock)
    requires c == StampOf(tr, Seen(tr, x), |cfg.entities|)
    requires f.owner != x && f.heir != Some(x)
    ensures c == StampOf(tr + [f], Seen(tr + [f], x), |cfg.entities|)
  {
    SeenNew(tr, f, x);
    assert Seen(tr + [f], x) == Seen(tr, x);
    StampExtend(tr, f, Seen(tr, x), |cfg.entities|);
  }

  lemma HeirClock(cfg: Config, tr: Trace, f: Fact, x: nat, c: Clock)
    requires c == StampOf(tr, Seen(tr, x), |cfg.entities|)
    requires f.heir == Some(x) && Describes(cfg, tr + [f], |tr|, f.stamp)
    ensures Join(c, f.stamp) == StampOf(tr + [f], Seen(tr + [f], x), |cfg.entities|)
  {
    var tr' := tr + [f];
    SeenNew(tr, f, x);
    StampExtend(tr, f, Seen(tr, x), |cfg.entities|);
    SeenClosed(tr, x);
    PastClosed(tr', |tr|);
    assert Closed(tr', Seen(tr, x));
    JoinIsUnion(tr', Seen(tr, x), Past(tr', |tr|), |cfg.entities|);
  }

  lemma OwnerClock(cfg: Config, tr: Trace, f: Fact)
    requires f.cause.Some? ==> f.cause.value < |tr|
    ensures Seen(tr + [f], f.owner) == Past(tr + [f], |tr|)
  {
  }

  lemma MergeableDescribed(cfg: Config, w: World, l: Label, o: nat, c: Clock)
    requires Exact(cfg, w) && l.node in w.nodes && forall s :: s in l.mailbox ==> s in w.sent
    requires Mergeable(w.nodes[l.node], l.mailbox, o, c)
    ensures Describes(cfg, w.trace, o, c)
  {
  }

  /** The stamp recorded for the entry describes its past. */
  lemma StepStamp(cfg: Config, w: World, l: Label)
    requires Exact(cfg, w) && l.node in w.nodes && forall s :: s in l.mailbox ==> s in w.sent
    requires ReplayStep(cfg, w.nodes[l.node], l.mailbox, l.entry, |w.trace|).Done?
    ensures var r := ReplayStep(cfg, w.nodes[l.node], l.mailbox, l.entry, |w.trace|);
      var f := FactOf(cfg, l.entry, r);
      && (f.cause.Some? ==> f.cause.value < |w.trace|)
      && Describes(cfg, w.trace + [f], |w.trace|, f.stamp)
  {
    var node := w.nodes[l.node];
    var r := ReplayStep(cfg, node, l.mailbox, l.entry, |w.trace|);
    StepEffect(cfg, node, l.mailbox, l.entry, |w.trace|);
    EffectStamp(cfg, w, l, r);
  }

  lemma EffectStamp(cfg: Config, w: World, l: Label, r: Outcome)
    requires Exact(cfg, w) && l.node in w.nodes && forall s :: s in l.mailbox ==> s in w.sent
    requires l.entry.owner in w.nodes[l.node].clocks && r.Done?
    requires OwnEffect(cfg, w.nodes[l.node], l.mailbox, l.entry.owner, r)
    ensures var f := FactOf(cfg, l.entry, r);
      && (f.cause.Some? ==> f.cause.value < |w.trace|)
      && Describes(cfg, w.trace + [f], |w.trace|, f.stamp)
  {
    var node, f := w.nodes[l.node], FactOf(cfg, l.entry, r);
    if r.cause.Some? {
      var m :| Mergeable(node, l.mailbox, r.cause.value, m) && |m| == |cfg.entities|
               && r.stamp == Join(Ticked(cfg, node, f.owner), m);
      MergeableDescribed(cfg, w, l, r.cause.value, m);
    }
    FreshStamp(cfg, w.trace, f, node.clocks[f.owner]);
  }

  lemma StepClocks(cfg: Config, w: World, l: Label, x: nat)
    requires Exact(cfg, w) && l.node in w.nodes && forall s :: s in l.mailbox ==> s in w.sent
    requires ReplayStep(cfg, w.nodes[l.node], l.mailbox, l.entry, |w.trace|).Done?
    requires x in w.nodes[l.node].clocks
    ensures var r := ReplayStep(cfg, w.nodes[l.node], l.mailbox, l.entry, |w.trace|);
      var tr' := w.trace + [FactOf(cfg, l.entry, r)];
      x in r.node.clocks && r.node.clocks[x] == StampOf(tr', Seen(tr', x), |cfg.entities|)
  {
    var node := w.nodes[l.node];
    var r := ReplayStep(cfg, node, l.mailbox, l.entry, |w.trace|);
    var f := FactOf(cfg, l.entry, r);
    StepStamp(cfg, w, l);
    StepEffect(cfg, node, l.mailbox, l.entry, |w.trace|);
    if x == f.owner {
      OwnerClock(cfg, w.trace, f);
    } else if f.heir == Some(x) {
      HeirClock(cfg, w.trace, f, x, node.clocks[x]);
    } else {
      BystanderClock(cfg, w.trace, f, x, node.clocks[x]);
    }
  }

  /** Heirs log on the node of the entry, so the clocks of other nodes are bystanders. */
  lemma RemoteClocks(cfg: Config, w: World, l: Label, n: nat, x: nat)
    requires Exact(cfg, w) && l.node in w.nodes && forall s :: s in l.mailbox ==> s in w.sent
    requires ReplayStep(cfg, w.nodes[l.node], l.mailbox, l.entry, |w.trace|).Done?
    requires n in w.nodes && n != l.node && x in w.nodes[n].clocks
    ensures var r := ReplayStep(cfg, w.nodes[l.node], l.mailbox, l.entry, |w.trace|);
      var tr' := w.trace + [FactOf(cfg, l.entry, r)];
      w.nodes[n].clocks[x] == StampOf(tr', Seen(tr', x), |cfg.entities|)
  {
    var r := ReplayStep(cfg, w.nodes[l.node], l.mailbox, l.entry, |w.trace|);
    StepEffect(cfg, w.nodes[l.node], l.mailbox, l.entry, |w.trace|);
    assert cfg.entities[x].node == n;
    assert cfg.entities[l.entry.owner].node == l.node;
    assert r.heir.Some? ==> cfg.entities[r.heir.value].node == l.node;
    BystanderClock(cfg, w.trace, FactOf(cfg, l.entry, r), x, w.nodes[n].clocks[x]);
  }

  lemma StepFacts(cfg: Config, tr: Trace, f: Fact)
    requires FactsExact(cfg, tr)
    requires f.owner < |cfg.entities| && f.printed == !cfg.Internal(f.owner)
    requires Describes(cfg, tr + [f], |tr|, f.stamp)
    ensures FactsExact(cfg, tr + [f])
  {
    forall i: nat | i < |tr| ensures Describes(cfg, tr + [f], i, tr[i].stamp) {
      DescribesExtend(cfg, tr, f, i, tr[i].stamp);
    }
  }

  /** Everything in flight after a step still describes the past of its origin. */
  lemma StepStores(cfg: Config, w: World, l: Label, w': World)
    requires Exact(cfg, w) && Next(cfg, w, l, w')
    ensures forall s :: s in w'.sent ==> Describes(cfg, w'.trace, s.origin, s.vstamp)
    ensures forall n, s :: n in w'.nodes && s in w'.nodes[n].messages ==> s in w'.sent
    ensures forall n, s :: n in w'.nodes && s in w'.nodes[n].spawns ==> Describes(cfg, w'.trace, s.origin, s.vstamp)
  {
    StepStamp(cfg, w, l);
    StepEffect(cfg, w.nodes[l.node], l.mailbox, l.entry, |w.trace|);
    forall i: nat, c | Describes(cfg, w.trace, i, c) ensures Describes(cfg, w'.trace, i, c) {
      DescribesExtend(cfg, w.trace, w'.trace[|w.trace|], i, c);
    }
  }

  lemma ExactNext(cfg: Config, w: World, l: Label, w': World)
    requires Exact(cfg, w) && Next(cfg, w, l, w')
    ensures Exact(cfg, w')
  {
    StepStamp(cfg, w, l);
    StepFacts(cfg, w.trace, w'.trace[|w.trace|]);
    StepStores(cfg, w, l, w');
    forall n | n in w'.nodes ensures ClocksExact(cfg, w'.trace, w'.nodes[n]) {
      NodeClocks(cfg, w, l, w', n);
    }
  }

  lemma NodeClocks(cfg: Config, w: World, l: Label, w': World, n: nat)
    requires Exact(cfg, w) && Next(cfg, w, l, w') && n in w'.nodes
    ensures ClocksExact(cfg, w'.trace, w'.nodes[n])
  {
    forall x | x in w'.nodes[n].clocks
      ensures w'.nodes[n].clocks[x] == StampOf(w'.trace, Seen(w'.trace, x), |cfg.entities|)
    {
      if n == l.node {
        StepClocks(cfg, w, l, x);
      } else {
        RemoteClocks(cfg, w, l, n, x);
      }
    }
  }

  lemma InitialExact(cfg: Config, w: World)
    requires Initial(cfg, w)
    ensures Exact(cfg, w)
  {
  }

  lemma {:induction false} RunExact(cfg: Config, ws: seq<World>, ls: seq<Label>, k: nat)
    requires IsRun(cfg, ws, ls) && k < |ws|
    ensures Exact(cfg, ws[k])
  {
    if k == 0 {
      InitialExact(cfg, ws[0]);
    } else {
      RunExact(cfg, ws, ls, k - 1);
      ExactNext(cfg, ws[k - 1], ls[k - 1], ws[k]);
    }
  }

  // -- what the stamps say ----------------------------------------------------

  /**
   The stamps decide happened-before: for two printed entries of a run, the
   later stamp has caught up with the earlier entry's own tick exactly when the
   earlier entry reaches the later one.
   */
  lemma StampsDecideCausality(cfg: Config, ws: seq<World>, ls: seq<Label>, k: nat, a: nat, b: nat)
    requires IsRun(cfg, ws, ls) && k < |ws|
    requires var tr := ws[k].trace;
      a < |tr| && b < |tr| && a != b && tr[a].printed && tr[b].printed
    ensures var tr := ws[k].trace; var v := tr[a].owner;
      && v < |tr[a].stamp| == |tr[b].stamp|
      && (tr[b].stamp[v] >= tr[a].stamp[v] <==> Reaches(tr, a, b))
  {
    RunExact(cfg, ws, ls, k);
    var tr := ws[k].trace;
    assert Describes(cfg, tr, a, tr[a].stamp) && Describes(cfg, tr, b, tr[b].stamp);
    TickInStamp(tr, a, b);
    PastIsReaches(tr, a, b);
  }

  /** Comparing whole stamps decides causality too; incomparable stamps are concurrent entries. */
  lemma StampOrderIsCausalOrder(cfg: Config, ws: seq<World>, ls: seq<Label>, k: nat, a: nat, b: nat)
    requires IsRun(cfg, ws, ls) && k < |ws|
    requires var tr := ws[k].trace;
      a < |tr| && b < |tr| && a != b && tr[a].printed && tr[b].printed
    ensures var tr := ws[k].trace;
      && (Leq(tr[a].stamp, tr[b].stamp) <==> Reaches(tr, a, b))
      && tr[a].stamp != tr[b].stamp
  {
    RunExact(cfg, ws, ls, k);
    var tr := ws[k].trace;
    assert Describes(cfg, tr, a, tr[a].stamp) && Describes(cfg, tr, b, tr[b].stamp);
    StampsDecideCausality(cfg, ws, ls, k, a, b);
    StampsDecideCausality(cfg, ws, ls, k, b, a);
    PastIsReaches(tr, a, b);
    PastIsReaches(tr, b, a);
    if a in Past(tr, b) {
      forall j | j in Past(tr, a) ensures j in Past(tr, b) {
        PastTransitive(tr, j, a, b);
      }
      SubsetStamp(tr, Past(tr, a), Past(tr, b), |cfg.entities|);
    }
  }

  // -- what the clocks say ----------------------------------------------------

  /** Printed entries of entity `e` so far. */
  ghost function Printed(tr: Trace, e: nat): set<nat> {
    Own(tr, Below(|tr|), e)
  }

  /** An entity's own component counts its printed entries; nobody is ahead of it. */
  lemma OwnComponentCounts(cfg: Config, ws: seq<World>, ls: seq<Label>, k: nat, n: nat, e: nat)
    requires IsRun(cfg, ws, ls) && k < |ws| && n in ws[k].nodes && e in ws[k].nodes[n].clocks
    ensures e < |cfg.entities| && WorldOk(cfg, ws[k])
    ensures var own := |Printed(ws[k].trace, e)|; var w := ws[k];
      && w.nodes[n].clocks[e][e] == own
      && (forall m, x :: m in w.nodes && x in w.nodes[m].clocks ==> w.nodes[m].clocks[x][e] <= own)
      && (forall s :: s in w.sent ==> s.vstamp[e] <= own)
      && (forall m, s :: m in w.nodes && s in w.nodes[m].spawns ==> s.vstamp[e] <= own)
  {
    RunExact(cfg, ws, ls, k);
    var tr := ws[k].trace;
    forall s: set<nat> ensures |Own(tr, s, e)| <= |Printed(tr, e)| {
      SubsetCard(Own(tr, s, e), Printed(tr, e));
    }
    forall j | j in Printed(tr, e) ensures j in Seen(tr, e) {
      assert Feeds(tr, j, e) && j in Past(tr, j);
    }
    assert Own(tr, Seen(tr, e), e) == Printed(tr, e);
  }

  lemma StampsGrow(cfg: Config, tr: Trace, f: Fact, e: nat)
    ensures var n := |cfg.entities|;
      Leq(StampOf(tr, Seen(tr, e), n), StampOf(tr + [f], Seen(tr + [f], e), n))
  {
    SeenNew(tr, f, e);
    StampExtend(tr, f, Seen(tr, e), |cfg.entities|);
    SubsetStamp(tr + [f], Seen(tr, e), Seen(tr + [f], e), |cfg.entities|);
  }

  lemma PrintedNew(tr: Trace, f: Fact, e: nat)
    ensures |Printed(tr + [f], e)| == |Printed(tr, e)| + if f.owner == e && f.printed then 1 else 0
  {
    if f.owner == e && f.printed {
      assert Printed(tr + [f], e) == Printed(tr, e) + {|tr|};
    } else {
      assert Printed(tr + [f], e) == Printed(tr, e);
    }
  }

  /** Clocks never go back, and an own component moves only by the entity's own printed entries. */
  lemma ClocksAdvance(cfg: Config, ws: seq<World>, ls: seq<Label>, k: nat, n: nat, e: nat)
    requires IsRun(cfg, ws, ls) && k < |ls| && n in ws[k].nodes && e in ws[k].nodes[n].clocks
    ensures n in ws[k + 1].nodes && e in ws[k + 1].nodes[n].clocks && e < |cfg.entities|
    ensures var c, c' := ws[k].nodes[n].clocks[e], ws[k + 1].nodes[n].clocks[e];
      && Leq(c, c')
      && c'[e] == c[e] + if ls[k].entry.owner == e && !cfg.Internal(e) then 1 else 0
  {
    assert Next(cfg, ws[k], ls[k], ws[k + 1]);
    RunExact(cfg, ws, ls, k);
    RunExact(cfg, ws, ls, k + 1);
    OwnComponentCounts(cfg, ws, ls, k, n, e);
    OwnComponentCounts(cfg, ws, ls, k + 1, n, e);
    var f := ws[k + 1].trace[|ws[k].trace|];
    StampsGrow(cfg, ws[k].trace, f, e);
    PrintedNew(ws[k].trace, f, e);
  }
}
