/**
 The second pass over one node's log as it runs: an object whose clocks, stores
 and mailbox change entry by entry (tools/caf-vec.cpp).
 */
module Annotator {
  import opened Basics
  import opened VectorLog

  /** Blocked: `entry` is a receive that waits for its send. Failed: an entry named an unknown logger. */
  datatype Status = Finished | Blocked(entry: Entry) | Failed

  /** A printed entry: its number, its entity and its timestamp. */
  datatype Line = Line(id: nat, owner: nat, stamp: Clock)

  /** How far the replay of a log has come. */
  datatype Progress = Progress(node: Node, mailbox: seq<SendEvent>, lines: seq<Line>, status: Status) {
    ghost predicate Ok(cfg: Config) {
      && NodeOk(cfg, node) && SizedSends(cfg, mailbox)
      && (status.Blocked? ==> status.entry.owner in node.clocks && status.entry.event.Receive?)
    }
  }

  function LineOf(cfg: Config, entry: Entry, id: nat, stamp: Clock): seq<Line>
    requires entry.owner < |cfg.entities|
  {
    if cfg.Internal(entry.owner) then [] else [Line(id, entry.owner, stamp)]
  }

  /** Replays one entry; a pass that blocked or failed makes no further progress. */
  function Advance(cfg: Config, p: Progress, entry: Entry, id: nat): (p': Progress)
    requires p.Ok(cfg)
    ensures p'.Ok(cfg)
  {
    if p.status != Finished then p else
    match ReplayStep(cfg, p.node, p.mailbox, entry, id)
    case UnknownLogger => p.(status := Failed)
    case Waiting(node) => Progress(node, [], p.lines, Blocked(entry))
    case Done(node, mailbox, stamp, _, _) =>
      Progress(node, mailbox, p.lines + LineOf(cfg, entry, id, stamp), Finished)
  }

  /**
   A broadcast send arrives. A waiting receive keeps it in flight and completes
   if it is the awaited one; otherwise it stays in the mailbox.
   */
  function Hear(cfg: Config, p: Progress, x: SendEvent, id: nat): (p': Progress)
    requires p.Ok(cfg) && |x.vstamp| == |cfg.entities|
    ensures p'.Ok(cfg)
  {
    if !p.status.Blocked? then p.(mailbox := p.mailbox + [x]) else
    var e, node := p.status.entry.owner, p.node.(messages := p.node.messages + [x]);
    if p.status.entry.event != Receive(x.fields) then p.(node := node) else
    var c := Join(node.clocks[e], x.vstamp);
    Progress(node.(clocks := node.clocks[e := c]), p.mailbox, p.lines + LineOf(cfg, p.status.entry, id, c), Finished)
  }

  /** `ps` is the progress through `entries`, numbered from `id`, one entry at a time. */
  ghost predicate IsReplay(cfg: Config, ps: seq<Progress>, entries: seq<Entry>, id: nat) {
    && 1 <= |ps| <= |entries| + 1
    && (forall i :: 0 <= i < |ps| ==> ps[i].Ok(cfg))
    && (forall i {:trigger entries[i]} :: 0 <= i < |ps| - 1 ==> ps[i + 1] == Advance(cfg, ps[i], entries[i], id + i))
  }

  lemma ExtendReplay(cfg: Config, ps: seq<Progress>, entries: seq<Entry>, id: nat, i: nat, p: Progress)
    requires IsReplay(cfg, ps, entries, id) && |ps| == i + 1 <= |entries|
    requires p == Advance(cfg, ps[i], entries[i], id + i)
    ensures IsReplay(cfg, ps + [p], entries, id)
  {
    var longer := ps + [p];
    forall j | 0 <= j < |longer| - 1 ensures longer[j + 1] == Advance(cfg, longer[j], entries[j], id + j) {
      assert longer[j] == ps[j];
      if j + 1 < |ps| {
        assert longer[j + 1] == ps[j + 1];
      }
    }
  }

  method Merge(x: Clock, y: Clock) returns (z: Clock)
    requires |x| == |y|
    ensures z == Join(x, y)
  {
    z := x;
    for i := 0 to |x|
      invariant |z| == |x|
      invariant forall j :: 0 <= j < i ==> z[j] == Max(x[j], y[j])
      invariant forall j :: i <= j < |x| ==> z[j] == x[j]
    {
      z := z[i := Max(z[i], y[i])];
    }
  }

  class SecondPass {
    const cfg: Config
    var clocks: map<nat, Clock>
    var messages: seq<SendEvent>
    var spawns: seq<SpawnEvent>
    var scoped: map<nat, nat>
    var mailbox: seq<SendEvent>
    var output: seq<Line>
    var status: Status

    ghost function State(): Node
      reads this
    {
      Node(clocks, messages, spawns, scoped)
    }

    ghost predicate Valid()
      reads this
    {
      && NodeOk(cfg, State()) && SizedSends(cfg, mailbox)
      && (status.Blocked? ==> status.entry.owner in clocks && status.entry.event.Receive?)
    }

    /** The pass has come as far as `p`. */
    ghost predicate At(p: Progress)
      reads this
    {
      && clocks == p.node.clocks && messages == p.node.messages
      && spawns == p.node.spawns && scoped == p.node.scoped
      && mailbox == p.mailbox && output == p.lines && status == p.status
    }

    constructor (cfg: Config, local: set<nat>, mailbox: seq<SendEvent>)
      requires forall e :: e in local ==> e < |cfg.entities|
      requires SizedSends(cfg, mailbox)
      ensures Valid() && this.cfg == cfg && this.mailbox == mailbox && output == [] && status == Finished
      ensures State() == Node(map e | e in local :: Zero(|cfg.entities|), [], [], map[])
    {
      this.cfg := cfg;
      clocks := map e | e in local :: Zero(|cfg.entities|);
      messages, spawns, scoped := [], [], map[];
      this.mailbox := mailbox;
      output, status := [], Finished;
    }

    method FindSend(f: Fields) returns (i: nat)
      ensures i == FirstSend(messages, f)
    {
      i := 0;
      while i < |messages| && messages[i].fields != f
        invariant i <= |messages|
        invariant FirstSend(messages, f) == i + FirstSend(messages[i..], f)
      {
        assert messages[i..][1..] == messages[i + 1..];
        i := i + 1;
      }
    }

    method FindSpawn(id: string) returns (i: nat)
      ensures i == FirstSpawn(spawns, id)
    {
      i := 0;
      while i < |spawns| && spawns[i].id != id
        invariant i <= |spawns|
        invariant FirstSpawn(spawns, id) == i + FirstSpawn(spawns[i..], id)
      {
        assert spawns[i..][1..] == spawns[i + 1..];
        i := i + 1;
      }
    }

    /** Takes sends out of the mailbox until one has the wanted fields; all of them stay in flight. */
    method FetchMessage(f: Fields) returns (found: bool, stamp: Clock)
      requires Valid()
      modifies this`messages, this`mailbox
      ensures Valid()
      ensures var j := FirstSend(old(mailbox), f);
        if j < |old(mailbox)| then
          && found && stamp == old(mailbox)[j].vstamp
          && messages == old(messages) + old(mailbox)[..j + 1]
          && mailbox == old(mailbox)[j + 1..]
        else
          !found && messages == old(messages) + old(mailbox) && mailbox == []
    {
      ghost var taken := 0;
      while mailbox != []
        invariant taken <= |old(mailbox)| && mailbox == old(mailbox)[taken..]
        invariant messages == old(messages) + old(mailbox)[..taken]
        invariant forall x :: 0 <= x < taken ==> old(mailbox)[x].fields != f
        decreases |mailbox|
      {
        var x := mailbox[0];
        mailbox := mailbox[1..];
        messages := messages + [x];
        taken := taken + 1;
        if x.fields == f {
          return true, x.vstamp;
        }
      }
      return false, [];
    }

    method Receive(e: nat, f: Fields) returns (ok: bool)
      requires Valid() && e in clocks
      modifies this`clocks, this`messages, this`mailbox
      ensures Valid()
      ensures var r := ReceiveStep(cfg, old(State()), old(mailbox), e, f);
        && ok == r.Done? && State() == r.node
        && mailbox == if ok then r.mailbox else []
    {
      var i := FindSend(f);
      if i < |messages| {
        var c := Merge(clocks[e], messages[i].vstamp);
        clocks := clocks[e := c];
        ok := true;
      } else {
        var stamp;
        ok, stamp := FetchMessage(f);
        if ok {
          var c := Merge(clocks[e], stamp);
          clocks := clocks[e := c];
        }
      }
    }

    method Initialize(e: nat, name: string)
      requires Valid() && e in clocks
      modifies this`clocks, this`scoped, this`spawns
      ensures Valid()
      ensures State() == InitStep(cfg, old(State()), mailbox, e, name).node
    {
      var i := FindSpawn(cfg.entities[e].idText);
      if i < |spawns| {
        var s := spawns[i];
        var c := Merge(clocks[e], s.vstamp);
        clocks := clocks[e := c];
        if name == SCOPED_ACTOR && e !in scoped {
          scoped := scoped[e := s.source];
        }
        spawns := Without(spawns, i);
      }
    }

    method Terminate(e: nat)
      requires Valid() && e in clocks
      modifies this`clocks, this`scoped
      ensures Valid()
      ensures State() == TerminateStep(cfg, old(State()), mailbox, e).node
    {
      if e in scoped {
        var c := Merge(clocks[scoped[e]], clocks[e]);
        clocks := clocks[scoped[e] := c];
        scoped := scoped - {e};
      }
    }

    /** Reacts to the event of an entry whose tick already happened. */
    method Handle(entry: Entry, id: nat) returns (ok: bool)
      requires Valid() && entry.owner in clocks
      modifies this`clocks, this`messages, this`spawns, this`scoped, this`mailbox
      ensures Valid()
      ensures var r := EventStep(cfg, old(State()), old(mailbox), entry, id);
        ok == r.Done? && State() == r.node && mailbox == if ok then r.mailbox else []
    {
      var e := entry.owner;
      ok := true;
      match entry.event {
        case Plain =>
        case Send(f) =>
          messages := messages + [SendEvent(id, f, clocks[e])];
        case Receive(f) =>
          ok := Receive(e, f);
        case Spawn(s) =>
          spawns := spawns + [SpawnEvent(id, e, s, clocks[e])];
        case Init(name) =>
          Initialize(e, name);
        case Terminate =>
          Terminate(e);
      }
    }

    method Print(entry: Entry, id: nat)
      requires entry.owner in clocks && entry.owner < |cfg.entities|
      modifies this`output
      ensures output == old(output) + LineOf(cfg, entry, id, clocks[entry.owner])
    {
      if !cfg.Internal(entry.owner) {
        output := output + [Line(id, entry.owner, clocks[entry.owner])];
      }
    }

    /** Replays one entry and prints it unless its entity is internal. */
    method Process(entry: Entry, id: nat, ghost p: Progress)
      requires Valid() && At(p) && status == Finished
      modifies this
      ensures Valid() && p.Ok(cfg)
      ensures At(Advance(cfg, p, entry, id))
    {
      var e := entry.owner;
      assert p.node == State();
      if e !in clocks {
        status := Failed;
        return;
      }
      clocks := clocks[e := if cfg.Internal(e) then clocks[e] else Tick(clocks[e], e)];
      var ok := Handle(entry, id);
      if ok {
        Print(entry, id);
      } else {
        status := Blocked(entry);
      }
    }

    /** A broadcast send arrives; it may be the one that the pass waits for. */
    method Deliver(x: SendEvent, id: nat, ghost p: Progress)
      requires Valid() && At(p) && |x.vstamp| == |cfg.entities|
      modifies this
      ensures Valid() && p.Ok(cfg)
      ensures At(Hear(cfg, p, x, id))
    {
      if !status.Blocked? {
        mailbox := mailbox + [x];
        return;
      }
      var entry := status.entry;
      messages := messages + [x];
      if entry.event.fields == x.fields {
        var c := Merge(clocks[entry.owner], x.vstamp);
        clocks := clocks[entry.owner := c];
        Print(entry, id);
        status := Finished;
      }
    }

    /** Replays a log until it ends, waits for a message, or names an unknown logger. */
    method Run(entries: seq<Entry>, id: nat, ghost start: Progress) returns (ghost ps: seq<Progress>)
      requires Valid() && At(start) && status == Finished
      modifies this
      ensures Valid()
      ensures IsReplay(cfg, ps, entries, id) && ps[0] == start
      ensures At(ps[|ps| - 1]) && forall k :: 0 <= k < |ps| - 1 ==> ps[k].status == Finished
      ensures status == Finished ==> |ps| == |entries| + 1
    {
      ps := [start];
      var i := 0;
      while i < |entries| && status == Finished
        invariant i <= |entries| && |ps| == i + 1 && Valid()
        invariant ps[0] == start && At(ps[i]) && forall k :: 0 <= k < i ==> ps[k].status == Finished
        invariant IsReplay(cfg, ps, entries, id)
      {
        ghost var p' := Advance(cfg, ps[i], entries[i], id + i);
        ExtendReplay(cfg, ps, entries, id, i, p');
        Process(entries[i], id + i, ps[i]);
        ps, i := ps + [p'], i + 1;
      }
    }
  }
}
