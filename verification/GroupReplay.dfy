/**
 The passes over the logs of all nodes as they run side by side: each pass works
 through its own log, hears the broadcasts of the others one by one, and may
 start a receive long before the awaited send arrives. Every such run is a run
 in the sense of the causality theorems, with the same printed lines.
 */
module GroupReplay {
  import opened Basics
  import opened VectorLog
  import opened CausalHistory
  import opened AnnotatedRuns
  import opened EventMatching
  import opened Annotator

  // -- runs of a group --------------------------------------------------------

  /** `taken` counts the entries that each pass has begun, `count` all completed entries. */
  datatype Group = Group(passes: map<nat, Progress>, taken: map<nat, nat>, sent: set<SendEvent>, count: nat)

  datatype Act = Work(node: nat) | Hears(node: nat, x: SendEvent)

  ghost predicate GroupOk(cfg: Config, g: Group) {
    && g.taken.Keys == g.passes.Keys
    && (forall n :: n in g.passes ==> g.passes[n].Ok(cfg))
    && (forall s :: s in g.sent ==> |s.vstamp| == |cfg.entities|)
  }

  ghost predicate Start(cfg: Config, logs: map<nat, seq<Entry>>, g: Group) {
    && GroupOk(cfg, g) && logs.Keys == g.passes.Keys
    && g.sent == {} && g.count == 0
    && forall n :: n in g.passes ==>
        && g.taken[n] == 0
        && Fresh(cfg, g.passes[n].node) && g.passes[n] == Progress(g.passes[n].node, [], [], Finished)
        && forall e :: e in g.passes[n].node.clocks ==> cfg.entities[e].node == n
  }

  /** A pass begins its next entry and broadcasts it if it is a send. */
  ghost predicate WorkNext(cfg: Config, log: seq<Entry>, g: Group, n: nat, g': Group)
    requires GroupOk(cfg, g) && n in g.passes
  {
    && g.passes[n].status == Finished && g.taken[n] < |log|
    && var entry := log[g.taken[n]];
       var p := Advance(cfg, g.passes[n], entry, g.count);
       && g'.passes == g.passes[n := p]
       && g'.taken == g.taken[n := g.taken[n] + 1]
       && (if p.status == Finished
           then
             && g'.count == g.count + 1 && entry.owner in p.node.clocks
             && g'.sent == g.sent + Broadcast(g.count, entry, p.node.clocks[entry.owner])
           else g'.count == g.count && g'.sent == g.sent)
  }

  /** A pass receives a broadcast, which may complete the receive it waits in. */
  ghost predicate HearNext(cfg: Config, g: Group, n: nat, x: SendEvent, g': Group)
    requires GroupOk(cfg, g) && n in g.passes
  {
    && x in g.sent
    && var p := Hear(cfg, g.passes[n], x, g.count);
       && g'.passes == g.passes[n := p] && g'.taken == g.taken && g'.sent == g.sent
       && g'.count == g.count + if g.passes[n].status.Blocked? && p.status == Finished then 1 else 0
  }

  ghost predicate GroupNext(cfg: Config, logs: map<nat, seq<Entry>>, g: Group, act: Act, g': Group)
    requires GroupOk(cfg, g)
  {
    && act.node in g.passes && act.node in logs
    && match act
       case Work(n) => WorkNext(cfg, logs[n], g, n, g')
       case Hears(n, x) => HearNext(cfg, g, n, x, g')
  }

  ghost predicate IsGroupRun(cfg: Config, logs: map<nat, seq<Entry>>, gs: seq<Group>, acts: seq<Act>) {
    && |gs| == |acts| + 1
    && Start(cfg, logs, gs[0])
    && forall i {:trigger acts[i]} :: 0 <= i < |acts| ==>
        GroupOk(cfg, gs[i]) && GroupNext(cfg, logs, gs[i], acts[i], gs[i + 1])
  }

  // -- what a trace says about one node ---------------------------------------

  ghost predicate OnNode(cfg: Config, f: Fact, n: nat) {
    f.owner < |cfg.entities| && cfg.entities[f.owner].node == n
  }

  /** The entries of node `n`, in order. */
  ghost function EntriesOn(cfg: Config, tr: Trace, n: nat): seq<Entry> {
    if tr == [] then [] else
    var f := tr[|tr| - 1];
    EntriesOn(cfg, tr[..|tr| - 1], n) + if OnNode(cfg, f, n) then [Entry(f.owner, f.event)] else []
  }

  /** The lines printed for node `n`, in order. */
  ghost function LinesOn(cfg: Config, tr: Trace, n: nat): seq<Line> {
    if tr == [] then [] else
    var i := |tr| - 1;
    LinesOn(cfg, tr[..i], n)
    + if OnNode(cfg, tr[i], n) && tr[i].printed then [Line(i, tr[i].owner, tr[i].stamp)] else []
  }

  lemma Appended(cfg: Config, tr: Trace, f: Fact, n: nat)
    ensures EntriesOn(cfg, tr + [f], n)
         == EntriesOn(cfg, tr, n) + if OnNode(cfg, f, n) then [Entry(f.owner, f.event)] else []
    ensures LinesOn(cfg, tr + [f], n)
         == LinesOn(cfg, tr, n)
            + if OnNode(cfg, f, n) && f.printed then [Line(|tr|, f.owner, f.stamp)] else []
  {
    assert (tr + [f])[..|tr|] == tr;
  }

  // -- a waiting receive stands for one that has not begun --------------------

  /**
   `node` is the state in which the pass would be had its current entry not
   begun; `held` are the sends that it took from its mailbox, or has in it.
   */
  ghost predicate StandsFor(cfg: Config, p: Progress, node: Node, held: seq<SendEvent>)
    requires NodeOk(cfg, node)
  {
    if p.status.Blocked? then
      var e, f := p.status.entry.owner, p.status.entry.event;
      && e in node.clocks && f.Receive? && p.mailbox == []
      && p.node == node.(clocks := node.clocks[e := Ticked(cfg, node, e)], messages := node.messages + held)
      && FirstSend(node.messages, f.fields) == |node.messages| && FirstSend(held, f.fields) == |held|
    else
      p.node == node && p.mailbox == held
  }

  lemma {:induction false} FirstSendSnoc(ms: seq<SendEvent>, x: SendEvent, f: Fields)
    requires FirstSend(ms, f) == |ms|
    ensures FirstSend(ms + [x], f) == if x.fields == f then |ms| else |ms| + 1
  {
    if ms != [] {
      FirstSendSnoc(ms[1..], x, f);
      assert (ms + [x])[1..] == ms[1..] + [x];
    }
  }

  /** A receive that finds no match leaves a state that stands for the one before it. */
  lemma BeginsToWait(cfg: Config, p: Progress, entry: Entry, id: nat)
    requires p.Ok(cfg) && p.status == Finished && Advance(cfg, p, entry, id).status.Blocked?
    ensures StandsFor(cfg, Advance(cfg, p, entry, id), p.node, p.mailbox)
  {
  }

  /** A waiting receive that hears the awaited send ends as one step with all that it heard in the mailbox. */
  lemma WaitingEnds(cfg: Config, p: Progress, x: SendEvent, id: nat, node: Node, held: seq<SendEvent>)
    requires p.Ok(cfg) && p.status.Blocked? && NodeOk(cfg, node) && StandsFor(cfg, p, node, held)
    requires SizedSends(cfg, held) && |x.vstamp| == |cfg.entities| && p.status.entry.event == Receive(x.fields)
    ensures var r, p' := ReplayStep(cfg, node, held + [x], p.status.entry, id), Hear(cfg, p, x, id);
      && r.Done? && r.mailbox == []
      && p' == Progress(r.node, [], p.lines + LineOf(cfg, p.status.entry, id, r.stamp), Finished)
  {
    FirstSendSnoc(held, x, x.fields);
    var e := p.status.entry.owner;
    var ticked := node.(clocks := node.clocks[e := Ticked(cfg, node, e)]);
    assert (held + [x])[..|held| + 1] == held + [x];
    assert ticked.messages + held + [x] == ticked.messages + (held + [x]);
  }

  // -- a group mirrors a world ------------------------------------------------

  /** Entries of its log that a pass has completed. */
  ghost function Completed(p: Progress, taken: nat): int {
    if p.status == Finished then taken else taken - 1
  }

  ghost predicate SeatOk(
      cfg: Config, log: seq<Entry>, p: Progress, taken: nat, n: nat, node: Node, held: seq<SendEvent>, w: World)
  {
    && NodeOk(cfg, node) && StandsFor(cfg, p, node, held)
    && (forall s :: s in held ==> s in w.sent)
    && p.lines == LinesOn(cfg, w.trace, n)
    && 0 <= Completed(p, taken) && taken <= |log|
    && (p.status.Blocked? ==> log[taken - 1] == p.status.entry)
    && EntriesOn(cfg, w.trace, n) == log[..Completed(p, taken)]
  }

  ghost predicate SameNodes(
      logs: map<nat, seq<Entry>>, g: Group, w: World, held: map<nat, seq<SendEvent>>)
  {
    && logs.Keys == g.passes.Keys && g.taken.Keys == g.passes.Keys
    && w.nodes.Keys == g.passes.Keys && held.Keys == g.passes.Keys
    && g.sent == w.sent && g.count == |w.trace|
  }

  ghost predicate AllSeated(
      cfg: Config, logs: map<nat, seq<Entry>>, g: Group, w: World, held: map<nat, seq<SendEvent>>)
    requires SameNodes(logs, g, w, held)
  {
    forall n {:trigger SeatOk(cfg, logs[n], g.passes[n], g.taken[n], n, w.nodes[n], held[n], w)} :: n in g.passes ==>
      SeatOk(cfg, logs[n], g.passes[n], g.taken[n], n, w.nodes[n], held[n], w)
  }

  ghost predicate Mirrors(
      cfg: Config, logs: map<nat, seq<Entry>>, g: Group, w: World, held: map<nat, seq<SendEvent>>)
  {
    WorldOk(cfg, w) && GroupOk(cfg, g) && SameNodes(logs, g, w, held) && AllSeated(cfg, logs, g, w, held)
  }

  /** Pass `n` changes; its seat and those of the others decide whether the group mirrors world `w'`. */
  lemma Reseated(
      cfg: Config, logs: map<nat, seq<Entry>>, g: Group, g': Group, w: World, w': World,
      held: map<nat, seq<SendEvent>>, n: nat, h: seq<SendEvent>)
    requires SameNodes(logs, g, w, held) && SameNodes(logs, g', w', held[n := h]) && n in g.passes
    requires forall m :: m in g.passes && m != n ==>
      g'.passes[m] == g.passes[m] && g'.taken[m] == g.taken[m] && w'.nodes[m] == w.nodes[m]
    requires SeatOk(cfg, logs[n], g'.passes[n], g'.taken[n], n, w'.nodes[n], h, w')
    requires forall m :: m in g.passes && m != n ==>
      SeatOk(cfg, logs[m], g.passes[m], g.taken[m], m, w.nodes[m], held[m], w')
    ensures AllSeated(cfg, logs, g', w', held[n := h])
  {
  }

  lemma GroupOkNext(cfg: Config, g: Group, g': Group, n: nat)
    requires GroupOk(cfg, g) && n in g.passes && n in g'.passes && n in g'.taken && g'.passes[n].Ok(cfg)
    requires g'.passes == g.passes[n := g'.passes[n]] && g'.taken == g.taken[n := g'.taken[n]]
    requires forall s :: s in g'.sent ==> |s.vstamp| == |cfg.entities|
    ensures GroupOk(cfg, g')
  {
  }

  /** An act that completes no entry leaves the world as it is. */
  lemma MirrorQuiet(
      cfg: Config, logs: map<nat, seq<Entry>>, g: Group, g': Group, w: World, held: map<nat, seq<SendEvent>>,
      n: nat, h: seq<SendEvent>)
    requires Mirrors(cfg, logs, g, w, held) && n in g.passes && n in w.nodes && n in logs
    requires n in g'.passes && n in g'.taken && g'.passes[n].Ok(cfg)
    requires g'.passes == g.passes[n := g'.passes[n]] && g'.taken == g.taken[n := g'.taken[n]]
    requires g'.sent == g.sent && g'.count == g.count
    requires SeatOk(cfg, logs[n], g'.passes[n], g'.taken[n], n, w.nodes[n], h, w)
    ensures Mirrors(cfg, logs, g', w, held[n := h])
  {
    GroupOkNext(cfg, g, g', n);
    QuietNodes(logs, g, g', w, held, n, h);
    QuietSeats(cfg, logs, g, g', w, held, n, h);
  }

  lemma QuietNodes(
      logs: map<nat, seq<Entry>>, g: Group, g': Group, w: World, held: map<nat, seq<SendEvent>>,
      n: nat, h: seq<SendEvent>)
    requires SameNodes(logs, g, w, held) && n in g.passes && n in g'.passes && n in g'.taken
    requires g'.passes == g.passes[n := g'.passes[n]] && g'.taken == g.taken[n := g'.taken[n]]
    requires g'.sent == g.sent && g'.count == g.count
    ensures SameNodes(logs, g', w, held[n := h])
  {
  }

  lemma QuietSeats(
      cfg: Config, logs: map<nat, seq<Entry>>, g: Group, g': Group, w: World, held: map<nat, seq<SendEvent>>,
      n: nat, h: seq<SendEvent>)
    requires SameNodes(logs, g, w, held) && AllSeated(cfg, logs, g, w, held) && n in g.passes
    requires SameNodes(logs, g', w, held[n := h])
    requires g'.passes == g.passes[n := g'.passes[n]] && g'.taken == g.taken[n := g'.taken[n]]
    requires SeatOk(cfg, logs[n], g'.passes[n], g'.taken[n], n, w.nodes[n], h, w)
    ensures AllSeated(cfg, logs, g', w, held[n := h])
  {
    Reseated(cfg, logs, g, g', w, w, held, n, h);
  }

  lemma MailboxShrinks(cfg: Config, node: Node, mailbox: seq<SendEvent>, entry: Entry, id: nat)
    requires NodeOk(cfg, node) && SizedSends(cfg, mailbox)
    ensures var r := ReplayStep(cfg, node, mailbox, entry, id);
      r.Done? ==> forall s :: s in r.mailbox ==> s in mailbox
  {
  }

  /** The world after node `n` completes an entry. */
  ghost function Stepped(cfg: Config, w: World, n: nat, entry: Entry, r: Outcome): World
    requires n in w.nodes && r.Done? && entry.owner < |cfg.entities|
  {
    World(w.nodes[n := r.node], w.sent + Broadcast(|w.trace|, entry, r.stamp), w.trace + [FactOf(cfg, entry, r)])
  }

  lemma SteppedOk(cfg: Config, w: World, n: nat, entry: Entry, mailbox: seq<SendEvent>, r: Outcome)
    requires WorldOk(cfg, w) && n in w.nodes && SizedSends(cfg, mailbox)
    requires r == ReplayStep(cfg, w.nodes[n], mailbox, entry, |w.trace|) && r.Done?
    requires forall s :: s in mailbox ==> s in w.sent
    ensures entry.owner < |cfg.entities| && cfg.entities[entry.owner].node == n
    ensures NodeOk(cfg, r.node) && SizedSends(cfg, r.mailbox) && |r.stamp| == |cfg.entities|
    ensures forall s :: s in r.mailbox ==> s in w.sent
    ensures var w' := Stepped(cfg, w, n, entry, r);
      WorldOk(cfg, w') && Next(cfg, w, Label(n, entry, mailbox), w')
  {
    MailboxShrinks(cfg, w.nodes[n], mailbox, entry, |w.trace|);
  }

  /** The seat of the node that completes an entry. */
  lemma SeatStepped(
      cfg: Config, log: seq<Entry>, p: Progress, taken: nat, p': Progress, taken': nat, n: nat, w: World, r: Outcome)
    requires n in w.nodes && r.Done? && 0 <= Completed(p, taken) < |log|
    requires p.lines == LinesOn(cfg, w.trace, n) && EntriesOn(cfg, w.trace, n) == log[..Completed(p, taken)]
    requires var entry := log[Completed(p, taken)];
      && entry.owner < |cfg.entities| && cfg.entities[entry.owner].node == n
      && p' == Progress(r.node, r.mailbox, p.lines + LineOf(cfg, entry, |w.trace|, r.stamp), Finished)
      && taken' == Completed(p, taken) + 1
      && NodeOk(cfg, r.node) && (forall s :: s in r.mailbox ==> s in w.sent)
    ensures var entry := log[Completed(p, taken)];
      SeatOk(cfg, log, p', taken', n, r.node, r.mailbox, Stepped(cfg, w, n, entry, r))
  {
    var entry := log[Completed(p, taken)];
    Appended(cfg, w.trace, FactOf(cfg, entry, r), n);
    assert log[..taken'] == log[..taken' - 1] + [entry];
  }

  /** The seats of all other nodes. */
  lemma SeatKept(
      cfg: Config, log: seq<Entry>, p: Progress, taken: nat, m: nat, node: Node, held: seq<SendEvent>,
      w: World, n: nat, entry: Entry, r: Outcome)
    requires SeatOk(cfg, log, p, taken, m, node, held, w)
    requires n in w.nodes && r.Done? && entry.owner < |cfg.entities| && cfg.entities[entry.owner].node == n != m
    ensures SeatOk(cfg, log, p, taken, m, node, held, Stepped(cfg, w, n, entry, r))
  {
    Appended(cfg, w.trace, FactOf(cfg, entry, r), m);
  }

  /** All seats after node `n` completes an entry. */
  lemma DoneSeats(
      cfg: Config, logs: map<nat, seq<Entry>>, g: Group, g': Group, w: World, held: map<nat, seq<SendEvent>>,
      n: nat, entry: Entry, r: Outcome)
    requires SameNodes(logs, g, w, held) && AllSeated(cfg, logs, g, w, held) && n in g.passes
    requires r.Done? && entry.owner < |cfg.entities| && cfg.entities[entry.owner].node == n
    requires SameNodes(logs, g', Stepped(cfg, w, n, entry, r), held[n := r.mailbox])
    requires forall m :: m in g.passes && m != n ==> g'.passes[m] == g.passes[m] && g'.taken[m] == g.taken[m]
    requires SeatOk(cfg, logs[n], g'.passes[n], g'.taken[n], n, r.node, r.mailbox, Stepped(cfg, w, n, entry, r))
    ensures AllSeated(cfg, logs, g', Stepped(cfg, w, n, entry, r), held[n := r.mailbox])
  {
    var w' := Stepped(cfg, w, n, entry, r);
    forall m | m in g.passes && m != n
      ensures SeatOk(cfg, logs[m], g.passes[m], g.taken[m], m, w.nodes[m], held[m], w')
    {
      SeatKept(cfg, logs[m], g.passes[m], g.taken[m], m, w.nodes[m], held[m], w, n, entry, r);
    }
    Reseated(cfg, logs, g, g', w, w', held, n, r.mailbox);
  }

  lemma DoneNodes(
      cfg: Config, logs: map<nat, seq<Entry>>, g: Group, g': Group, w: World, held: map<nat, seq<SendEvent>>,
      n: nat, entry: Entry, r: Outcome)
    requires SameNodes(logs, g, w, held) && n in g.passes && n in g'.passes && n in g'.taken
    requires r.Done? && entry.owner < |cfg.entities|
    requires g'.passes == g.passes[n := g'.passes[n]] && g'.taken == g.taken[n := g'.taken[n]]
    requires g'.count == g.count + 1 && g'.sent == g.sent + Broadcast(g.count, entry, r.stamp)
    ensures SameNodes(logs, g', Stepped(cfg, w, n, entry, r), held[n := r.mailbox])
  {
  }

  /** The entry of its log that pass `n` completes next. */
  ghost function Current(logs: map<nat, seq<Entry>>, g: Group, n: nat): Option<Entry>
    requires n in logs && n in g.passes && n in g.taken
  {
    var done := Completed(g.passes[n], g.taken[n]);
    if 0 <= done < |logs[n]| then Some(logs[n][done]) else None
  }

  /** Pass `n` completes entry `entry` with outcome `r`. */
  ghost predicate Completes(cfg: Config, g: Group, g': Group, n: nat, entry: Entry, r: Outcome)
    requires n in g.passes && n in g.taken && entry.owner < |cfg.entities| && r.Done?
  {
    var p := g.passes[n];
    && g'.passes == g.passes[n := Progress(r.node, r.mailbox, p.lines + LineOf(cfg, entry, g.count, r.stamp), Finished)]
    && g'.taken == g.taken[n := Completed(p, g.taken[n]) + 1]
    && g'.count == g.count + 1 && g'.sent == g.sent + Broadcast(g.count, entry, r.stamp)
  }

  lemma DoneWorld(
      cfg: Config, logs: map<nat, seq<Entry>>, g: Group, g': Group, w: World, held: map<nat, seq<SendEvent>>,
      n: nat, entry: Entry, mailbox: seq<SendEvent>, r: Outcome)
    requires WorldOk(cfg, w) && GroupOk(cfg, g) && SameNodes(logs, g, w, held) && n in g.passes && n in w.nodes
    requires SizedSends(cfg, mailbox) && forall s :: s in mailbox ==> s in w.sent
    requires r == ReplayStep(cfg, w.nodes[n], mailbox, entry, |w.trace|) && r.Done?
    requires entry.owner < |cfg.entities| && Completed(g.passes[n], g.taken[n]) >= 0
    requires Completes(cfg, g, g', n, entry, r)
    ensures cfg.entities[entry.owner].node == n && NodeOk(cfg, r.node) && forall s :: s in r.mailbox ==> s in w.sent
    ensures var w' := Stepped(cfg, w, n, entry, r);
      && Next(cfg, w, Label(n, entry, mailbox), w')
      && WorldOk(cfg, w') && GroupOk(cfg, g') && SameNodes(logs, g', w', held[n := r.mailbox])
  {
    SteppedOk(cfg, w, n, entry, mailbox, r);
    GroupOkNext(cfg, g, g', n);
    DoneNodes(cfg, logs, g, g', w, held, n, entry, r);
  }

  lemma DoneSeated(
      cfg: Config, logs: map<nat, seq<Entry>>, g: Group, g': Group, w: World, held: map<nat, seq<SendEvent>>,
      n: nat, entry: Entry, r: Outcome)
    requires SameNodes(logs, g, w, held) && AllSeated(cfg, logs, g, w, held) && n in g.passes
    requires Current(logs, g, n) == Some(entry) && r.Done? && NodeOk(cfg, r.node)
    requires entry.owner < |cfg.entities| && cfg.entities[entry.owner].node == n
    requires forall s :: s in r.mailbox ==> s in w.sent
    requires Completes(cfg, g, g', n, entry, r)
    requires SameNodes(logs, g', Stepped(cfg, w, n, entry, r), held[n := r.mailbox])
    ensures AllSeated(cfg, logs, g', Stepped(cfg, w, n, entry, r), held[n := r.mailbox])
  {
    assert SeatOk(cfg, logs[n], g.passes[n], g.taken[n], n, w.nodes[n], held[n], w);
    SeatStepped(cfg, logs[n], g.passes[n], g.taken[n], g'.passes[n], g'.taken[n], n, w, r);
    DoneSeats(cfg, logs, g, g', w, held, n, entry, r);
  }

  /** Completing an entry is a step of the world. */
  lemma MirrorDone(
      cfg: Config, logs: map<nat, seq<Entry>>, g: Group, g': Group, w: World, held: map<nat, seq<SendEvent>>,
      n: nat, entry: Entry, mailbox: seq<SendEvent>, r: Outcome)
    requires Mirrors(cfg, logs, g, w, held) && n in g.passes && n in w.nodes && n in logs
    requires SizedSends(cfg, mailbox) && forall s :: s in mailbox ==> s in w.sent
    requires r == ReplayStep(cfg, w.nodes[n], mailbox, entry, |w.trace|) && r.Done?
    requires Current(logs, g, n) == Some(entry) && entry.owner < |cfg.entities|
    requires Completes(cfg, g, g', n, entry, r)
    ensures var w' := Stepped(cfg, w, n, entry, r);
      Next(cfg, w, Label(n, entry, mailbox), w') && Mirrors(cfg, logs, g', w', held[n := r.mailbox])
  {
    DoneWorld(cfg, logs, g, g', w, held, n, entry, mailbox, r);
    DoneSeated(cfg, logs, g, g', w, held, n, entry, r);
  }

  // -- every act is mirrored --------------------------------------------------

  /** Beginning an entry without completing it: the pass waits or fails. */
  lemma WorkSeat(cfg: Config, log: seq<Entry>, p: Progress, taken: nat, n: nat, w: World, id: nat)
    requires p.Ok(cfg) && p.status == Finished && taken < |log|
    requires SeatOk(cfg, log, p, taken, n, p.node, p.mailbox, w)
    requires Advance(cfg, p, log[taken], id).status != Finished
    ensures SeatOk(cfg, log, Advance(cfg, p, log[taken], id), taken + 1, n, p.node, p.mailbox, w)
  {
    if Advance(cfg, p, log[taken], id).status.Blocked? {
      BeginsToWait(cfg, p, log[taken], id);
    }
  }

  lemma WorkCompletes(cfg: Config, log: seq<Entry>, g: Group, g': Group, n: nat) returns (r: Outcome)
    requires GroupOk(cfg, g) && n in g.passes && WorkNext(cfg, log, g, n, g')
    requires Advance(cfg, g.passes[n], log[g.taken[n]], g.count).status == Finished
    ensures var p, entry := g.passes[n], log[g.taken[n]];
      && r == ReplayStep(cfg, p.node, p.mailbox, entry, g.count) && r.Done?
      && entry.owner < |cfg.entities| && Completes(cfg, g, g', n, entry, r)
  {
    r := ReplayStep(cfg, g.passes[n].node, g.passes[n].mailbox, log[g.taken[n]], g.count);
  }

  /** Hearing a send that completes nothing: it waits in the mailbox or among the sends in flight. */
  lemma HearSeat(
      cfg: Config, log: seq<Entry>, p: Progress, taken: nat, n: nat, node: Node, held: seq<SendEvent>, w: World,
      x: SendEvent, id: nat)
    requires p.Ok(cfg) && |x.vstamp| == |cfg.entities| && x in w.sent
    requires SeatOk(cfg, log, p, taken, n, node, held, w)
    requires p.status.Blocked? ==> Hear(cfg, p, x, id).status != Finished
    ensures SeatOk(cfg, log, Hear(cfg, p, x, id), taken, n, node, held + [x], w)
  {
    if p.status.Blocked? {
      FirstSendSnoc(held, x, p.status.entry.event.fields);
      assert node.messages + held + [x] == node.messages + (held + [x]);
    }
  }

  /** The awaited send arrives: the receive completes as one step of the world. */
  lemma WakeCompletes(
      cfg: Config, log: seq<Entry>, g: Group, g': Group, w: World, n: nat, node: Node, held: seq<SendEvent>,
      x: SendEvent)
    returns (r: Outcome)
    requires GroupOk(cfg, g) && n in g.passes && HearNext(cfg, g, n, x, g') && g.passes[n].status.Blocked?
    requires Hear(cfg, g.passes[n], x, g.count).status == Finished
    requires g.sent == w.sent && SeatOk(cfg, log, g.passes[n], g.taken[n], n, node, held, w)
    ensures var entry := g.passes[n].status.entry;
      && SizedSends(cfg, held + [x]) && (forall s :: s in held + [x] ==> s in w.sent)
      && r == ReplayStep(cfg, node, held + [x], entry, g.count) && r.Done?
      && entry.owner < |cfg.entities| && Completes(cfg, g, g', n, entry, r)
  {
    WaitingEnds(cfg, g.passes[n], x, g.count, node, held);
    r := ReplayStep(cfg, node, held + [x], g.passes[n].status.entry, g.count);
    assert g'.taken == g.taken[n := g.taken[n]];
  }

  /** How an act of pass `n` shows in the world: as the step that completes an entry, or not at all. */
  datatype Move =
    | Completing(entry: Entry, mailbox: seq<SendEvent>, r: Outcome)
    | Quiet(held: seq<SendEvent>)

  ghost predicate Shows(cfg: Config, logs: map<nat, seq<Entry>>, g: Group, g': Group, w: World, n: nat, m: Move)
    requires WorldOk(cfg, w) && n in g.passes && n in g.taken && n in w.nodes && n in logs
  {
    match m
    case Completing(entry, mailbox, r) =>
      && SizedSends(cfg, mailbox) && (forall s :: s in mailbox ==> s in w.sent)
      && r == ReplayStep(cfg, w.nodes[n], mailbox, entry, |w.trace|) && r.Done?
      && Current(logs, g, n) == Some(entry) && entry.owner < |cfg.entities|
      && Completes(cfg, g, g', n, entry, r)
    case Quiet(h) =>
      && n in g'.passes && n in g'.taken && g'.passes[n].Ok(cfg)
      && g'.passes == g.passes[n := g'.passes[n]] && g'.taken == g.taken[n := g'.taken[n]]
      && g'.sent == g.sent && g'.count == g.count
      && SeatOk(cfg, logs[n], g'.passes[n], g'.taken[n], n, w.nodes[n], h, w)
  }

  lemma MirrorMove(
      cfg: Config, logs: map<nat, seq<Entry>>, g: Group, g': Group, w: World, held: map<nat, seq<SendEvent>>,
      n: nat, m: Move)
    returns (ls: seq<Label>, w': World, held': map<nat, seq<SendEvent>>)
    requires Mirrors(cfg, logs, g, w, held) && n in g.passes && n in w.nodes && n in logs
    requires Shows(cfg, logs, g, g', w, n, m)
    ensures Mirrors(cfg, logs, g', w', held')
    ensures if ls == [] then w' == w else |ls| == 1 && Next(cfg, w, ls[0], w')
  {
    match m
    case Completing(entry, mailbox, r) =>
      MirrorDone(cfg, logs, g, g', w, held, n, entry, mailbox, r);
      ls, w', held' := [Label(n, entry, mailbox)], Stepped(cfg, w, n, entry, r), held[n := r.mailbox];
    case Quiet(h) =>
      MirrorQuiet(cfg, logs, g, g', w, held, n, h);
      ls, w', held' := [], w, held[n := h];
  }

  lemma WorkShows(
      cfg: Config, logs: map<nat, seq<Entry>>, g: Group, g': Group, w: World, n: nat, held: seq<SendEvent>)
    returns (m: Move)
    requires WorldOk(cfg, w) && GroupOk(cfg, g) && n in g.passes && n in w.nodes && n in logs
    requires g.sent == w.sent && g.count == |w.trace| && WorkNext(cfg, logs[n], g, n, g')
    requires SeatOk(cfg, logs[n], g.passes[n], g.taken[n], n, w.nodes[n], held, w)
    ensures Shows(cfg, logs, g, g', w, n, m)
  {
    var p, entry := g.passes[n], logs[n][g.taken[n]];
    if Advance(cfg, p, entry, g.count).status == Finished {
      var r := WorkCompletes(cfg, logs[n], g, g', n);
      m := Completing(entry, p.mailbox, r);
    } else {
      WorkSeat(cfg, logs[n], p, g.taken[n], n, w, g.count);
      m := Quiet(p.mailbox);
    }
  }

  lemma HearShows(
      cfg: Config, logs: map<nat, seq<Entry>>, g: Group, g': Group, w: World, n: nat, held: seq<SendEvent>, x: SendEvent)
    returns (m: Move)
    requires WorldOk(cfg, w) && GroupOk(cfg, g) && n in g.passes && n in w.nodes && n in logs
    requires g.sent == w.sent && g.count == |w.trace| && HearNext(cfg, g, n, x, g')
    requires SeatOk(cfg, logs[n], g.passes[n], g.taken[n], n, w.nodes[n], held, w)
    ensures Shows(cfg, logs, g, g', w, n, m)
  {
    var p := g.passes[n];
    if p.status.Blocked? && Hear(cfg, p, x, g.count).status == Finished {
      var r := WakeCompletes(cfg, logs[n], g, g', w, n, w.nodes[n], held, x);
      m := Completing(p.status.entry, held + [x], r);
    } else {
      HearSeat(cfg, logs[n], p, g.taken[n], n, w.nodes[n], held, w, x, g.count);
      m := Quiet(held + [x]);
    }
  }

  lemma ActShows(
      cfg: Config, logs: map<nat, seq<Entry>>, g: Group, act: Act, g': Group, w: World, held: seq<SendEvent>)
    returns (m: Move)
    requires WorldOk(cfg, w) && GroupOk(cfg, g) && act.node in g.passes && act.node in w.nodes && act.node in logs
    requires g.sent == w.sent && g.count == |w.trace| && GroupNext(cfg, logs, g, act, g')
    requires SeatOk(cfg, logs[act.node], g.passes[act.node], g.taken[act.node], act.node, w.nodes[act.node], held, w)
    ensures Shows(cfg, logs, g, g', w, act.node, m)
  {
    match act
    case Work(n) => m := WorkShows(cfg, logs, g, g', w, n, held);
    case Hears(n, x) => m := HearShows(cfg, logs, g, g', w, n, held, x);
  }

  lemma MirrorAct(
      cfg: Config, logs: map<nat, seq<Entry>>, g: Group, act: Act, g': Group, w: World,
      held: map<nat, seq<SendEvent>>)
    returns (ls: seq<Label>, w': World, held': map<nat, seq<SendEvent>>)
    requires Mirrors(cfg, logs, g, w, held) && GroupNext(cfg, logs, g, act, g')
    ensures Mirrors(cfg, logs, g', w', held')
    ensures if ls == [] then w' == w else |ls| == 1 && Next(cfg, w, ls[0], w')
  {
    var n := act.node;
    assert SeatOk(cfg, logs[n], g.passes[n], g.taken[n], n, w.nodes[n], held[n], w);
    var m := ActShows(cfg, logs, g, act, g', w, held[n]);
    ls, w', held' := MirrorMove(cfg, logs, g, g', w, held, n, m);
  }

  lemma MirrorStart(cfg: Config, logs: map<nat, seq<Entry>>, g: Group)
    returns (w: World, held: map<nat, seq<SendEvent>>)
    requires Start(cfg, logs, g)
    ensures Initial(cfg, w) && Mirrors(cfg, logs, g, w, held)
  {
    w := World(map n | n in g.passes :: g.passes[n].node, {}, []);
    held := map n | n in g.passes :: [];
    forall n | n in g.passes
      ensures SeatOk(cfg, logs[n], g.passes[n], g.taken[n], n, w.nodes[n], held[n], w)
    {
      SeatStart(cfg, logs[n], g.passes[n], n, w);
    }
  }

  lemma SeatStart(cfg: Config, log: seq<Entry>, p: Progress, n: nat, w: World)
    requires NodeOk(cfg, p.node) && p == Progress(p.node, [], [], Finished) && w.trace == []
    ensures SeatOk(cfg, log, p, 0, n, p.node, [], w)
  {
    assert log[..0] == [];
  }

  lemma ExtendRun(cfg: Config, ws: seq<World>, ls: seq<Label>, l: Label, w: World)
    requires IsRun(cfg, ws, ls) && WorldOk(cfg, ws[|ls|]) && Next(cfg, ws[|ls|], l, w)
    ensures IsRun(cfg, ws + [w], ls + [l])
  {
  }

  /** The run `ws`, `ls` of the world ends in a mirror of the group. */
  ghost predicate IsMirrorRun(
      cfg: Config, logs: map<nat, seq<Entry>>, g: Group, ws: seq<World>, ls: seq<Label>,
      held: map<nat, seq<SendEvent>>)
  {
    IsRun(cfg, ws, ls) && Mirrors(cfg, logs, g, ws[|ls|], held)
  }

  ghost predicate Mirrored(cfg: Config, logs: map<nat, seq<Entry>>, g: Group) {
    exists ws, ls, held :: IsMirrorRun(cfg, logs, g, ws, ls, held)
  }

  lemma MirroredStart(cfg: Config, logs: map<nat, seq<Entry>>, g: Group)
    requires Start(cfg, logs, g)
    ensures Mirrored(cfg, logs, g)
  {
    var w, held := MirrorStart(cfg, logs, g);
    assert IsMirrorRun(cfg, logs, g, [w], [], held);
  }

  lemma MirroredNext(cfg: Config, logs: map<nat, seq<Entry>>, g: Group, act: Act, g': Group)
    requires Mirrored(cfg, logs, g) && GroupOk(cfg, g) && GroupNext(cfg, logs, g, act, g')
    ensures Mirrored(cfg, logs, g')
  {
    var ws, ls, held :| IsMirrorRun(cfg, logs, g, ws, ls, held);
    var more, w, held' := MirrorAct(cfg, logs, g, act, g', ws[|ls|], held);
    MirroredBy(cfg, logs, g', ws, ls, more, w, held');
  }

  lemma MirroredBy(
      cfg: Config, logs: map<nat, seq<Entry>>, g: Group, ws: seq<World>, ls: seq<Label>, more: seq<Label>, w: World,
      held: map<nat, seq<SendEvent>>)
    requires IsRun(cfg, ws, ls) && WorldOk(cfg, ws[|ls|]) && Mirrors(cfg, logs, g, w, held)
    requires if more == [] then w == ws[|ls|] else |more| == 1 && Next(cfg, ws[|ls|], more[0], w)
    ensures Mirrored(cfg, logs, g)
  {
    if more == [] {
      SeenAtTheEnd(cfg, logs, g, ws, ls, w, held);
    } else {
      ExtendRun(cfg, ws, ls, more[0], w);
      SeenAtTheEnd(cfg, logs, g, ws + [w], ls + [more[0]], w, held);
    }
  }

  lemma SeenAtTheEnd(
      cfg: Config, logs: map<nat, seq<Entry>>, g: Group, ws: seq<World>, ls: seq<Label>, w: World,
      held: map<nat, seq<SendEvent>>)
    requires IsRun(cfg, ws, ls) && ws[|ls|] == w && Mirrors(cfg, logs, g, w, held)
    ensures Mirrored(cfg, logs, g)
  {
    assert IsMirrorRun(cfg, logs, g, ws, ls, held);
  }

  lemma MirroredAct(cfg: Config, logs: map<nat, seq<Entry>>, gs: seq<Group>, acts: seq<Act>, i: nat)
    requires IsGroupRun(cfg, logs, gs, acts) && i < |acts| && Mirrored(cfg, logs, gs[i])
    ensures Mirrored(cfg, logs, gs[i + 1])
  {
    MirroredNext(cfg, logs, gs[i], acts[i], gs[i + 1]);
  }

  /** Whatever a group does is a run of the world that ends in a mirror of the group. */
  lemma {:induction false} GroupRunIsRun(cfg: Config, logs: map<nat, seq<Entry>>, gs: seq<Group>, acts: seq<Act>, k: nat)
    requires IsGroupRun(cfg, logs, gs, acts) && k < |gs|
    ensures Mirrored(cfg, logs, gs[k])
  {
    if k == 0 {
      MirroredStart(cfg, logs, gs[0]);
    } else {
      GroupRunIsRun(cfg, logs, gs, acts, k - 1);
      MirroredAct(cfg, logs, gs, acts, k - 1);
    }
  }
}
