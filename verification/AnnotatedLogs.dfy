/**
 End to end: for all logs of a group of nodes, however their passes interleave
 and whenever broadcasts arrive, comparing the stamps of two printed lines
 decides whether one entry happened before the other, where the matching of
 events is read off the logs.
 */
module AnnotatedLogs {
  import opened Basics
  import opened VectorLog
  import opened CausalHistory
  import opened AnnotatedRuns
  import opened EventMatching
  import opened Annotator
  import opened GroupReplay

  /**
   Trace `tr` is a reading of the logs as far as the group has come: it merges
   the completed entries of all nodes, pairs their events as the logs prescribe,
   and yields the printed lines.
   */
  ghost predicate Explains(cfg: Config, logs: map<nat, seq<Entry>>, g: Group, tr: Trace) {
    && AllPaired(cfg, tr)
    && logs.Keys == g.passes.Keys && g.taken.Keys == g.passes.Keys
    && (forall i :: 0 <= i < |tr| ==> cfg.entities[tr[i].owner].node in g.passes)
    && forall n :: n in g.passes ==>
        && 0 <= Completed(g.passes[n], g.taken[n]) <= |logs[n]|
        && EntriesOn(cfg, tr, n) == logs[n][..Completed(g.passes[n], g.taken[n])]
        && g.passes[n].lines == LinesOn(cfg, tr, n)
  }

  lemma {:induction false} LinesAreFacts(cfg: Config, tr: Trace, n: nat, x: Line)
    requires x in LinesOn(cfg, tr, n)
    ensures x.id < |tr| && tr[x.id].printed && x == Line(x.id, tr[x.id].owner, tr[x.id].stamp)
  {
    var i := |tr| - 1;
    if x in LinesOn(cfg, tr[..i], n) {
      LinesAreFacts(cfg, tr[..i], n, x);
    }
  }

  /** Only the nodes of a run own entries. */
  lemma {:induction false} RunOwners(cfg: Config, ws: seq<World>, ls: seq<Label>, k: nat)
    requires IsRun(cfg, ws, ls) && k < |ws|
    ensures ws[k].nodes.Keys == ws[0].nodes.Keys
    ensures forall i :: 0 <= i < |ws[k].trace| ==>
      ws[k].trace[i].owner < |cfg.entities| && cfg.entities[ws[k].trace[i].owner].node in ws[k].nodes
  {
    if k > 0 {
      RunOwners(cfg, ws, ls, k - 1);
      assert WorldOk(cfg, ws[k - 1]) && Next(cfg, ws[k - 1], ls[k - 1], ws[k]) by {
        var j := k - 1;
        assert Next(cfg, ws[j], ls[j], ws[j + 1]);
      }
      OwnersNext(cfg, ws[k - 1], ls[k - 1], ws[k]);
    }
  }

  lemma OwnersNext(cfg: Config, w: World, l: Label, w': World)
    requires WorldOk(cfg, w) && Next(cfg, w, l, w')
    requires forall i :: 0 <= i < |w.trace| ==>
      w.trace[i].owner < |cfg.entities| && cfg.entities[w.trace[i].owner].node in w.nodes
    ensures w'.nodes.Keys == w.nodes.Keys
    ensures forall i :: 0 <= i < |w'.trace| ==>
      w'.trace[i].owner < |cfg.entities| && cfg.entities[w'.trace[i].owner].node in w'.nodes
  {
    var f := w'.trace[|w.trace|];
    assert f.owner in w.nodes[l.node].clocks && cfg.entities[f.owner].node == l.node;
  }

  lemma MirrorExplains(
      cfg: Config, logs: map<nat, seq<Entry>>, g: Group, w: World, held: map<nat, seq<SendEvent>>)
    requires Mirrors(cfg, logs, g, w, held) && AllPaired(cfg, w.trace)
    requires forall i :: 0 <= i < |w.trace| ==>
      w.trace[i].owner < |cfg.entities| && cfg.entities[w.trace[i].owner].node in w.nodes
    ensures Explains(cfg, logs, g, w.trace)
  {
    forall n | n in g.passes
      ensures
        && 0 <= Completed(g.passes[n], g.taken[n]) <= |logs[n]|
        && EntriesOn(cfg, w.trace, n) == logs[n][..Completed(g.passes[n], g.taken[n])]
        && g.passes[n].lines == LinesOn(cfg, w.trace, n)
    {
      assert SeatOk(cfg, logs[n], g.passes[n], g.taken[n], n, w.nodes[n], held[n], w);
    }
  }

  /** The stamps of two different printed lines are ordered exactly as their entries are. */
  ghost predicate LinesDecide(g: Group, tr: Trace) {
    forall m, n, a, b ::
      m in g.passes && n in g.passes && a in g.passes[m].lines && b in g.passes[n].lines && a.id != b.id ==>
        (Leq(a.stamp, b.stamp) <==> Reaches(tr, a.id, b.id))
  }

  /**
   For every run of a group there is one reading of its logs such that, for all
   pairs of lines that any of its nodes has printed, comparing the stamps decides
   happened-before.
   */
  lemma PrintedLinesDecideCausality(cfg: Config, logs: map<nat, seq<Entry>>, gs: seq<Group>, acts: seq<Act>)
    returns (tr: Trace)
    requires IsGroupRun(cfg, logs, gs, acts)
    ensures Explains(cfg, logs, gs[|acts|], tr)
    ensures LinesDecide(gs[|acts|], tr)
  {
    GroupRunIsRun(cfg, logs, gs, acts, |acts|);
    tr := MirroredDecide(cfg, logs, gs[|acts|]);
  }

  lemma MirroredDecide(cfg: Config, logs: map<nat, seq<Entry>>, g: Group) returns (tr: Trace)
    requires Mirrored(cfg, logs, g)
    ensures Explains(cfg, logs, g, tr) && LinesDecide(g, tr)
  {
    var ws: seq<World>, ls: seq<Label>, held: map<nat, seq<SendEvent>> :| IsMirrorRun(cfg, logs, g, ws, ls, held);
    tr := ws[|ls|].trace;
    RunPaired(cfg, ws, ls, |ls|);
    RunOwners(cfg, ws, ls, |ls|);
    MirrorExplains(cfg, logs, g, ws[|ls|], held);
    RunStampsDecide(cfg, ws, ls);
    LinesDecideToo(cfg, g, tr);
  }

  /** The stamps of different printed entries are ordered exactly as the entries are. */
  ghost predicate StampsDecide(tr: Trace) {
    forall i, j :: 0 <= i < |tr| && 0 <= j < |tr| && i != j && tr[i].printed && tr[j].printed ==>
      (Leq(tr[i].stamp, tr[j].stamp) <==> Reaches(tr, i, j))
  }

  lemma RunStampsDecide(cfg: Config, ws: seq<World>, ls: seq<Label>)
    requires IsRun(cfg, ws, ls)
    ensures StampsDecide(ws[|ls|].trace)
  {
    var tr := ws[|ls|].trace;
    forall i, j | 0 <= i < |tr| && 0 <= j < |tr| && i != j && tr[i].printed && tr[j].printed
      ensures Leq(tr[i].stamp, tr[j].stamp) <==> Reaches(tr, i, j)
    {
      StampOrderIsCausalOrder(cfg, ws, ls, |ls|, i, j);
    }
  }

  lemma LinesDecideToo(cfg: Config, g: Group, tr: Trace)
    requires StampsDecide(tr) && forall n :: n in g.passes ==> g.passes[n].lines == LinesOn(cfg, tr, n)
    ensures LinesDecide(g, tr)
  {
    forall m, n, a, b |
      m in g.passes && n in g.passes && a in g.passes[m].lines && b in g.passes[n].lines && a.id != b.id
      ensures Leq(a.stamp, b.stamp) <==> Reaches(tr, a.id, b.id)
    {
      LinesAreFacts(cfg, tr, m, a);
      LinesAreFacts(cfg, tr, n, b);
    }
  }

  // -- the reading is determined by the logs ----------------------------------

  ghost predicate SameEntries(tr: Trace, tr': Trace) {
    |tr| == |tr'| && forall i :: 0 <= i < |tr| ==> tr[i].owner == tr'[i].owner && tr[i].event == tr'[i].event
  }

  ghost predicate SamePairing(tr: Trace, tr': Trace)
    requires |tr| == |tr'|
  {
    forall i :: 0 <= i < |tr| ==> tr[i].cause == tr'[i].cause && tr[i].heir == tr'[i].heir
  }

  /** Receives are paired alike, as they are if only one node has logs. */
  ghost predicate SameReceives(tr: Trace, tr': Trace)
    requires |tr| == |tr'|
  {
    forall i :: 0 <= i < |tr| && tr[i].event.Receive? ==> tr[i].cause == tr'[i].cause
  }

  lemma {:induction false} SameParent(tr: Trace, tr': Trace, e: nat)
    requires SameEntries(tr, tr') && SamePairing(tr, tr')
    ensures Parent(tr, e) == Parent(tr', e)
  {
    if tr != [] {
      var i := |tr| - 1;
      SameParent(tr[..i], tr'[..i], e);
    }
  }

  lemma SameOpenSpawn(cfg: Config, tr: Trace, tr': Trace, n: nat, id: string, k: nat)
    requires SameEntries(tr, tr') && SamePairing(tr, tr')
    ensures OpenSpawn(cfg, tr, n, id, k) ==> OpenSpawn(cfg, tr', n, id, k)
  {
  }

  lemma NextPairing(cfg: Config, tr: Trace, tr': Trace, f: Fact, f': Fact)
    requires SameEntries(tr, tr') && SamePairing(tr, tr')
    requires f.owner == f'.owner < |cfg.entities| && f.event == f'.event
    requires Paired(cfg, tr, f) && Paired(cfg, tr', f') && (f.event.Receive? ==> f.cause == f'.cause)
    ensures f.cause == f'.cause && f.heir == f'.heir
  {
    var n, id := cfg.entities[f.owner].node, cfg.entities[f.owner].idText;
    if f.event.Init? {
      forall k: nat ensures OpenSpawn(cfg, tr, n, id, k) <==> OpenSpawn(cfg, tr', n, id, k) {
        SameOpenSpawn(cfg, tr, tr', n, id, k);
        SameOpenSpawn(cfg, tr', tr, n, id, k);
      }
    }
    SameParent(tr, tr', f.owner);
  }

  lemma {:induction false} PairingUpTo(cfg: Config, tr: Trace, tr': Trace, k: nat)
    requires AllPaired(cfg, tr) && AllPaired(cfg, tr') && SameEntries(tr, tr') && SameReceives(tr, tr') && k <= |tr|
    ensures SamePairing(tr[..k], tr'[..k])
  {
    if k > 0 {
      PairingUpTo(cfg, tr, tr', k - 1);
      NextPairing(cfg, tr[..k - 1], tr'[..k - 1], tr[k - 1], tr'[k - 1]);
      Longer(tr, tr', k - 1);
    }
  }

  lemma Longer(tr: Trace, tr': Trace, k: nat)
    requires k < |tr| == |tr'| && SamePairing(tr[..k], tr'[..k])
    requires tr[k].cause == tr'[k].cause && tr[k].heir == tr'[k].heir
    ensures SamePairing(tr[..k + 1], tr'[..k + 1])
  {
    forall i | 0 <= i < k ensures tr[i].cause == tr'[i].cause && tr[i].heir == tr'[i].heir {
      assert tr[..k][i] == tr[i] && tr'[..k][i] == tr'[i];
    }
  }

  /** Entries and the pairing of receives determine every other pairing. */
  lemma PairingIsDetermined(cfg: Config, tr: Trace, tr': Trace)
    requires AllPaired(cfg, tr) && AllPaired(cfg, tr') && SameEntries(tr, tr') && SameReceives(tr, tr')
    ensures SamePairing(tr, tr')
  {
    PairingUpTo(cfg, tr, tr', |tr|);
    assert tr[..|tr|] == tr && tr'[..|tr|] == tr';
  }

  // -- a single log -----------------------------------------------------------

  ghost predicate OneNode(cfg: Config, tr: Trace, n: nat) {
    forall i :: 0 <= i < |tr| ==> OnNode(cfg, tr[i], n)
  }

  lemma {:induction false} EntriesOfOneNode(cfg: Config, tr: Trace, n: nat)
    requires OneNode(cfg, tr, n)
    ensures |EntriesOn(cfg, tr, n)| == |tr|
    ensures forall i :: 0 <= i < |tr| ==> EntriesOn(cfg, tr, n)[i] == Entry(tr[i].owner, tr[i].event)
  {
    if tr != [] {
      EntriesOfOneNode(cfg, tr[..|tr| - 1], n);
    }
  }

  lemma OneNodeReceives(cfg: Config, tr: Trace, tr': Trace, n: nat)
    requires AllPaired(cfg, tr) && AllPaired(cfg, tr') && SameEntries(tr, tr') && OneNode(cfg, tr, n)
    ensures SameReceives(tr, tr')
  {
    forall i | 0 <= i < |tr| && tr[i].event.Receive? ensures tr[i].cause == tr'[i].cause {
      FirstLocalSend(cfg, tr[..i], tr'[..i], tr[i], tr'[i], n);
    }
  }

  lemma FirstLocalSend(cfg: Config, tr: Trace, tr': Trace, f: Fact, f': Fact, n: nat)
    requires SameEntries(tr, tr') && OneNode(cfg, tr, n)
    requires OnNode(cfg, f, n) && f.owner == f'.owner && f.event == f'.event && f.event.Receive?
    requires Paired(cfg, tr, f) && Paired(cfg, tr', f')
    ensures f.cause == f'.cause
  {
    var x, c, c' := f.event.fields, f.cause.value, f'.cause.value;
    assert LocalSend(cfg, tr, n, x, c) && LocalSend(cfg, tr', n, x, c');
    assert LocalSend(cfg, tr, n, x, c') && LocalSend(cfg, tr', n, x, c);
  }

  /** The log of a single node has one reading: owners, events and all pairings are a function of the log. */
  lemma OneLogOneReading(cfg: Config, logs: map<nat, seq<Entry>>, g: Group, n: nat, tr: Trace, tr': Trace)
    requires Explains(cfg, logs, g, tr) && Explains(cfg, logs, g, tr') && g.passes.Keys == {n}
    ensures SameEntries(tr, tr') && SamePairing(tr, tr')
  {
    assert n in g.passes;
    EntriesOfOneNode(cfg, tr, n);
    EntriesOfOneNode(cfg, tr', n);
    assert SameEntries(tr, tr') by {
      forall i | 0 <= i < |tr| ensures tr[i].owner == tr'[i].owner && tr[i].event == tr'[i].event {
        assert EntriesOn(cfg, tr, n)[i] == EntriesOn(cfg, tr', n)[i];
      }
    }
    OneNodeReceives(cfg, tr, tr', n);
    PairingIsDetermined(cfg, tr, tr');
  }

  // -- one pass on its own ----------------------------------------------------

  /** The group that consists of node `n` alone, after its pass has begun `taken` entries. */
  ghost predicate IsAlone(g: Group, n: nat, p: Progress, taken: nat) {
    && g.passes == map[n := p] && g.taken == map[n := taken]
    && g.count == Completed(p, taken)
  }

  lemma LoneStep(cfg: Config, log: seq<Entry>, g: Group, n: nat, p: Progress, taken: nat) returns (g': Group)
    requires GroupOk(cfg, g) && p.Ok(cfg) && IsAlone(g, n, p, taken) && p.status == Finished && taken < |log|
    ensures GroupOk(cfg, g') && GroupNext(cfg, map[n := log], g, Work(n), g')
    ensures IsAlone(g', n, Advance(cfg, p, log[taken], taken), taken + 1)
  {
    var entry, p' := log[taken], Advance(cfg, p, log[taken], taken);
    g' := g.(passes := g.passes[n := p'], taken := g.taken[n := taken + 1]);
    if p'.status == Finished {
      AdvancedClock(cfg, p, entry, taken);
      g' := g'.(sent := g.sent + Broadcast(taken, entry, p'.node.clocks[entry.owner]), count := taken + 1);
    }
    GroupOkNext(cfg, g, g', n);
    OnlyKey(n, p, p');
    OnlyKey(n, taken, taken + 1);
  }

  lemma OnlyKey<V>(n: nat, a: V, b: V)
    ensures map[n := a][n := b] == map[n := b]
  {
  }

  lemma AdvancedClock(cfg: Config, p: Progress, entry: Entry, id: nat)
    requires p.Ok(cfg) && p.status == Finished && Advance(cfg, p, entry, id).status == Finished
    ensures var node := Advance(cfg, p, entry, id).node;
      entry.owner in node.clocks && |node.clocks[entry.owner]| == |cfg.entities|
  {
  }

  lemma ExtendGroupRun(cfg: Config, logs: map<nat, seq<Entry>>, gs: seq<Group>, acts: seq<Act>, act: Act, g: Group)
    requires IsGroupRun(cfg, logs, gs, acts) && GroupOk(cfg, gs[|acts|]) && GroupNext(cfg, logs, gs[|acts|], act, g)
    ensures IsGroupRun(cfg, logs, gs + [g], acts + [act])
  {
    var gs', acts' := gs + [g], acts + [act];
    forall i | 0 <= i < |acts'| ensures GroupOk(cfg, gs'[i]) && GroupNext(cfg, logs, gs'[i], acts'[i], gs'[i + 1]) {
      if i < |acts| {
        SameAct(cfg, logs, gs[i], acts[i], gs[i + 1], gs'[i], acts'[i], gs'[i + 1]);
      } else {
        SameAct(cfg, logs, gs[i], act, g, gs'[i], acts'[i], gs'[i + 1]);
      }
    }
  }

  lemma SameAct(
      cfg: Config, logs: map<nat, seq<Entry>>, g: Group, act: Act, g': Group, h: Group, act': Act, h': Group)
    requires GroupOk(cfg, g) && GroupNext(cfg, logs, g, act, g') && h == g && act' == act && h' == g'
    ensures GroupOk(cfg, h) && GroupNext(cfg, logs, h, act', h')
  {
  }

  /** The pass over a log without help from other nodes is a run of the group of that node. */
  lemma {:induction false} ReplayIsGroupRun(cfg: Config, ps: seq<Progress>, entries: seq<Entry>, n: nat, k: nat)
    returns (gs: seq<Group>, acts: seq<Act>)
    requires IsReplay(cfg, ps, entries, 0) && k < |ps| && forall i :: 0 <= i < k ==> ps[i].status == Finished
    requires ps[0] == Progress(ps[0].node, [], [], Finished) && Fresh(cfg, ps[0].node)
    requires forall e :: e in ps[0].node.clocks ==> cfg.entities[e].node == n
    ensures IsGroupRun(cfg, map[n := entries], gs, acts) && |acts| == k
    ensures GroupOk(cfg, gs[k]) && IsAlone(gs[k], n, ps[k], k)
  {
    if k == 0 {
      gs, acts := [Group(map[n := ps[0]], map[n := 0], {}, 0)], [];
    } else {
      gs, acts := ReplayIsGroupRun(cfg, ps, entries, n, k - 1);
      var j := k - 1;
      assert ps[j + 1] == Advance(cfg, ps[j], entries[j], 0 + j);
      var g := LoneStep(cfg, entries, gs[j], n, ps[j], j);
      ExtendGroupRun(cfg, map[n := entries], gs, acts, Work(n), g);
      gs, acts := gs + [g], acts + [Work(n)];
    }
  }
}
