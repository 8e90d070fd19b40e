/**
 Vector timestamps, log entries and the replay of one entry, as the second pass
 of the log annotator performs it (tools/caf-vec.cpp).

 Events arrive already parsed. Entities are named by their position in the
 vector timestamp, which is also how the annotator indexes its clocks.
 */
module VectorLog {
  import opened Basics

  // -- vector timestamps ------------------------------------------------------

  type Clock = seq<nat>

  function Zero(n: nat): Clock {
    seq(n, _ => 0)
  }

  function Tick(c: Clock, v: nat): Clock
    requires v < |c|
  {
    c[v := c[v] + 1]
  }

  function Max(a: nat, b: nat): nat {
    if a < b then b else a
  }

  /** Component-wise maximum. */
  function Join(x: Clock, y: Clock): Clock
    requires |x| == |y|
  {
    seq(|x|, i requires 0 <= i < |x| => Max(x[i], y[i]))
  }

  ghost predicate Leq(x: Clock, y: Clock) {
    |x| == |y| && forall i :: 0 <= i < |x| ==> x[i] <= y[i]
  }

  // -- log entries ------------------------------------------------------------

  /** An actor or thread. `idText` is the decimal text of its actor ID ("0" for threads). */
  datatype Entity = Entity(node: nat, idText: string, hidden: bool)

  datatype Config = Config(entities: seq<Entity>, dropHidden: bool) {
    /** Internal entities keep a clock but neither tick nor print. */
    predicate Internal(e: nat)
      requires e < |entities|
    {
      dropHidden && entities[e].hidden
    }
  }

  datatype Fields = Fields(to: string, from: string, stages: string, content: string)

  datatype Event =
    | Plain
    | Send(fields: Fields)
    | Receive(fields: Fields)
    | Spawn(id: string)
    | Init(name: string)
    | Terminate

  datatype Entry = Entry(owner: nat, event: Event)

  /** A send in flight; `origin` names the log entry that produced it. */
  datatype SendEvent = SendEvent(origin: nat, fields: Fields, vstamp: Clock)

  datatype SpawnEvent = SpawnEvent(origin: nat, source: nat, id: string, vstamp: Clock)

  /** State of the second pass over the log of one node. */
  datatype Node = Node(
    clocks: map<nat, Clock>,
    messages: seq<SendEvent>,
    spawns: seq<SpawnEvent>,
    scoped: map<nat, nat>)

  /**
   Result of replaying one entry. `cause` is the origin of the stamp merged into
   the entry's own clock; `heir` is the entity that inherits the entry's stamp.
   */
  datatype Outcome =
    | Done(node: Node, mailbox: seq<SendEvent>, stamp: Clock, cause: Option<nat>, heir: Option<nat>)
    | Waiting(node: Node)
    | UnknownLogger

  const SCOPED_ACTOR: string := "scoped_actor"

  // -- well-formed states -----------------------------------------------------

  ghost predicate SizedSends(cfg: Config, ms: seq<SendEvent>) {
    forall i :: 0 <= i < |ms| ==> |ms[i].vstamp| == |cfg.entities|
  }

  ghost predicate NodeOk(cfg: Config, node: Node) {
    && (forall e :: e in node.clocks ==> e < |cfg.entities| && |node.clocks[e]| == |cfg.entities|)
    && SizedSends(cfg, node.messages)
    && (forall s :: s in node.spawns ==> |s.vstamp| == |cfg.entities| && s.source in node.clocks)
    && (forall e :: e in node.scoped ==> node.scoped[e] in node.clocks)
  }

  /** `r` is a well-formed continuation of `node` whose printed stamp is the clock of `e`. */
  ghost predicate Continues(cfg: Config, node: Node, e: nat, r: Outcome) {
    && !r.UnknownLogger?
    && NodeOk(cfg, r.node)
    && r.node.clocks.Keys == node.clocks.Keys
    && (r.Done? ==> e in r.node.clocks && r.stamp == r.node.clocks[e] && SizedSends(cfg, r.mailbox))
  }

  // -- searching --------------------------------------------------------------

  /** Position of the first send with the given fields, or `|ms|`. */
  function FirstSend(ms: seq<SendEvent>, f: Fields): (i: nat)
    ensures i <= |ms|
    ensures i < |ms| ==> ms[i].fields == f
    ensures forall j :: 0 <= j < i ==> ms[j].fields != f
  {
    if ms == [] || ms[0].fields == f then 0 else 1 + FirstSend(ms[1..], f)
  }

  /** Position of the first spawn with the given ID, or `|ss|`. */
  function FirstSpawn(ss: seq<SpawnEvent>, id: string): (i: nat)
    ensures i <= |ss|
    ensures i < |ss| ==> ss[i].id == id
    ensures forall j :: 0 <= j < i ==> ss[j].id != id
  {
    if ss == [] || ss[0].id == id then 0 else 1 + FirstSpawn(ss[1..], id)
  }

  // -- replaying one entry ----------------------------------------------------

  /** The clock of the logging entity after its local tick. */
  function Ticked(cfg: Config, node: Node, e: nat): Clock
    requires NodeOk(cfg, node) && e in node.clocks
  {
    if cfg.Internal(e) then node.clocks[e] else Tick(node.clocks[e], e)
  }

  function ReceiveStep(cfg: Config, node: Node, mailbox: seq<SendEvent>, e: nat, f: Fields): (r: Outcome)
    requires NodeOk(cfg, node) && e in node.clocks && SizedSends(cfg, mailbox)
    ensures Continues(cfg, node, e, r)
  {
    var c := node.clocks[e];
    var i := FirstSend(node.messages, f);
    if i < |node.messages| then
      var c' := Join(c, node.messages[i].vstamp);
      Done(node.(clocks := node.clocks[e := c']), mailbox, c', Some(node.messages[i].origin), None)
    else
      var j := FirstSend(mailbox, f);
      if j < |mailbox| then
        var c' := Join(c, mailbox[j].vstamp);
        Done(node.(clocks := node.clocks[e := c'], messages := node.messages + mailbox[..j + 1]),
             mailbox[j + 1..], c', Some(mailbox[j].origin), None)
      else
        Waiting(node.(messages := node.messages + mailbox))
  }

  function InitStep(cfg: Config, node: Node, mailbox: seq<SendEvent>, e: nat, name: string): (r: Outcome)
    requires NodeOk(cfg, node) && e in node.clocks && SizedSends(cfg, mailbox)
    ensures Continues(cfg, node, e, r)
  {
    var c := node.clocks[e];
    var i := FirstSpawn(node.spawns, cfg.entities[e].idText);
    if i == |node.spawns| then
      Done(node, mailbox, c, None, None)
    else
      var s := node.spawns[i];
      var c' := Join(c, s.vstamp);
      // Emplacing into the map keeps an existing parent.
      var scoped' := if name == SCOPED_ACTOR && e !in node.scoped
                     then node.scoped[e := s.source] else node.scoped;
      Done(node.(clocks := node.clocks[e := c'], scoped := scoped',
                 spawns := Without(node.spawns, i)),
           mailbox, c', Some(s.origin), None)
  }

  /** The parent lookup never fails: a scoped actor's parent logs on the same node. */
  function TerminateStep(cfg: Config, node: Node, mailbox: seq<SendEvent>, e: nat): (r: Outcome)
    requires NodeOk(cfg, node) && e in node.clocks && SizedSends(cfg, mailbox)
    ensures Continues(cfg, node, e, r)
  {
    var c := node.clocks[e];
    if e !in node.scoped then
      Done(node, mailbox, c, None, None)
    else
      var p := node.scoped[e];
      if p !in node.clocks then UnknownLogger else
      var clocks' := node.clocks[p := Join(node.clocks[p], c)];
      Done(node.(clocks := clocks', scoped := node.scoped - {e}), mailbox, clocks'[e], None, Some(p))
  }

  /** The effect of the entry's event, after the local tick. */
  function EventStep(cfg: Config, node: Node, mailbox: seq<SendEvent>, entry: Entry, id: nat): (r: Outcome)
    requires NodeOk(cfg, node) && entry.owner in node.clocks && SizedSends(cfg, mailbox)
    ensures Continues(cfg, node, entry.owner, r)
  {
    var e := entry.owner;
    var c := node.clocks[e];
    match entry.event
    case Plain => Done(node, mailbox, c, None, None)
    case Send(f) => Done(node.(messages := node.messages + [SendEvent(id, f, c)]), mailbox, c, None, None)
    case Receive(f) => ReceiveStep(cfg, node, mailbox, e, f)
    case Spawn(s) => Done(node.(spawns := node.spawns + [SpawnEvent(id, e, s, c)]), mailbox, c, None, None)
    case Init(name) => InitStep(cfg, node, mailbox, e, name)
    case Terminate => TerminateStep(cfg, node, mailbox, e)
  }

  /** Replays `entry`, the entry numbered `id`, with `mailbox` holding the sends of other nodes. */
  function ReplayStep(cfg: Config, node: Node, mailbox: seq<SendEvent>, entry: Entry, id: nat): (r: Outcome)
    requires NodeOk(cfg, node) && SizedSends(cfg, mailbox)
    ensures r.UnknownLogger? <==> entry.owner !in node.clocks
    ensures !r.UnknownLogger? ==> Continues(cfg, node, entry.owner, r)
  {
    var e := entry.owner;
    if e !in node.clocks then UnknownLogger else
    EventStep(cfg, node.(clocks := node.clocks[e := Ticked(cfg, node, e)]), mailbox, entry, id)
  }
}
