/**
 Broadcasting a stream: a central buffer, one cache with a filter per outbound
 path, and the operations that move items towards the paths
 (libcaf_core/caf/broadcast_downstream_manager.hpp,
 libcaf_core/caf/buffered_downstream_manager.hpp and their base classes).
 */
module Broadcast {
  import opened Basics
  import opened OutboundPaths

  const SIZE_MAX: int := 0xFFFF_FFFF_FFFF_FFFF

  /** A path with its cache; paths and caches are kept in two aligned lists. */
  datatype Row<T, F> = Row(path: Path<T>, filter: F, cache: seq<T>)

  datatype Manager<T, F> = Manager(buf: seq<T>, rows: seq<Row<T, F>>)

  /** `select(f, x)` decides whether filter `f` lets item `x` pass. */
  type Select<!F, !T> = (F, T) -> bool

  ghost predicate ManagerOk<T, F>(m: Manager<T, F>) {
    && (forall i :: 0 <= i < |m.rows| ==> PathOk(m.rows[i].path) && Counted(m.rows[i].path))
    && (forall i, j :: 0 <= i < j < |m.rows| ==> m.rows[i].path.slot != m.rows[j].path.slot)
  }

  /** Batch IDs count the batches of a path from one. */
  ghost predicate Counted<T>(p: Path<T>) {
    p.nextId == |p.sent| + 1 && Numbered(p.sent, 0, 1)
  }

  // -- filters and chunks -----------------------------------------------------

  function Selected<T, F>(select: Select<F, T>, f: F, xs: seq<T>): (r: seq<T>)
    ensures |r| <= |xs|
  {
    if xs == [] then [] else
    var rest := Selected(select, f, xs[1..]);
    if select(f, xs[0]) then [xs[0]] + rest else rest
  }

  lemma {:induction false} SelectedConcat<T, F>(select: Select<F, T>, f: F, xs: seq<T>, ys: seq<T>)
    ensures Selected(select, f, xs + ys) == Selected(select, f, xs) + Selected(select, f, ys)
  {
    if xs == [] {
      assert xs + ys == ys;
    } else {
      var tail := xs[1..];
      SelectedConcat(select, f, tail, ys);
      assert (xs + ys)[0] == xs[0] && (xs + ys)[1..] == tail + ys;
      if select(f, xs[0]) {
        assert [xs[0]] + (Selected(select, f, tail) + Selected(select, f, ys))
            == ([xs[0]] + Selected(select, f, tail)) + Selected(select, f, ys);
      }
    }
  }

  /** How many more items the credit of a path covers beyond its cache. */
  function Room<T, F>(row: Row<T, F>): int {
    if row.path.credit > |row.cache| then row.path.credit - |row.cache| else 0
  }

  /** Smallest room of all open paths, or the largest size if every path is closing. */
  function ChunkSize<T, F>(rows: seq<Row<T, F>>): int {
    if rows == [] then SIZE_MAX else
    var interim, row := ChunkSize(rows[..|rows| - 1]), rows[|rows| - 1];
    if row.path.closing then interim else Min(interim, Room(row))
  }

  function Chunk<T>(buf: seq<T>, n: int): seq<T>
    requires n >= 0
  {
    if n < |buf| then buf[..n] else buf
  }

  lemma {:induction false} ChunkSizeIsLeast<T, F>(rows: seq<Row<T, F>>)
    requires forall i :: 0 <= i < |rows| ==> PathOk(rows[i].path)
    ensures var n := ChunkSize(rows);
      && 0 <= n
      && (forall i :: 0 <= i < |rows| && !rows[i].path.closing ==> n <= Room(rows[i]))
      && (n == SIZE_MAX <==> forall i :: 0 <= i < |rows| ==> rows[i].path.closing)
      && (n != SIZE_MAX ==> exists i :: 0 <= i < |rows| && !rows[i].path.closing && n == Room(rows[i]))
  {
    if rows != [] {
      var init, k := rows[..|rows| - 1], |rows| - 1;
      ChunkSizeIsLeast(init);
      assert forall i :: 0 <= i < k ==> init[i] == rows[i];
      if ChunkSize(init) != SIZE_MAX {
        var i :| 0 <= i < |init| && !init[i].path.closing && ChunkSize(init) == Room(init[i]);
        assert !rows[i].path.closing && ChunkSize(init) == Room(rows[i]);
      }
      assert rows[k].path.closing || Room(rows[k]) < SIZE_MAX;
    }
  }

  // -- operations -------------------------------------------------------------

  function EmitRow<T, F>(select: Select<F, T>, chunk: seq<T>, force: bool, row: Row<T, F>): Row<T, F>
    requires PathOk(row.path)
  {
    var closing := row.path.closing;
    var cache := if closing then row.cache else row.cache + Selected(select, row.filter, chunk);
    var (path, rest) := Emit(row.path, cache, force || closing);
    Row(path, row.filter, rest)
  }

  /** The items that the next emit moves out of the central buffer. */
  function NextChunk<T, F>(m: Manager<T, F>): (chunk: seq<T>)
    requires ManagerOk(m)
    ensures chunk <= m.buf
  {
    ChunkSizeIsLeast(m.rows);
    var n := ChunkSize(m.rows);
    if n == SIZE_MAX then [] else Chunk(m.buf, n)
  }

  /** The branch for the case that all paths are closing does what the general one would do. */
  lemma AllClosing<T, F>(select: Select<F, T>, m: Manager<T, F>, force: bool)
    requires ManagerOk(m)
    ensures ChunkSize(m.rows) >= 0
    ensures ChunkSize(m.rows) != SIZE_MAX ==> NextChunk(m) == Chunk(m.buf, ChunkSize(m.rows))
    ensures ChunkSize(m.rows) == SIZE_MAX ==>
      && NextChunk(m) == []
      && forall i :: 0 <= i < |m.rows| ==> EmitRow(select, [], true, m.rows[i]) == EmitRow(select, [], force, m.rows[i])
  {
    ChunkSizeIsLeast(m.rows);
  }

  function EmitBatches<T, F>(select: Select<F, T>, m: Manager<T, F>, force: bool): Manager<T, F>
    requires ManagerOk(m)
  {
    var chunk := NextChunk(m);
    Manager(m.buf[|chunk|..],
            seq(|m.rows|, i requires 0 <= i < |m.rows| => EmitRow(select, chunk, force, m.rows[i])))
  }

  function FlushRow<T, F>(select: Select<F, T>, buf: seq<T>, row: Row<T, F>): Row<T, F> {
    if row.path.closing then row else row.(cache := row.cache + Selected(select, row.filter, buf))
  }

  function Flush<T, F>(select: Select<F, T>, m: Manager<T, F>): Manager<T, F> {
    Manager([], seq(|m.rows|, i requires 0 <= i < |m.rows| => FlushRow(select, m.buf, m.rows[i])))
  }

  /** Position of the path with the given slot, or the number of paths. */
  function Find<T, F>(rows: seq<Row<T, F>>, slot: nat): (i: nat)
    ensures i <= |rows|
    ensures i < |rows| ==> rows[i].path.slot == slot
    ensures forall j :: 0 <= j < i ==> rows[j].path.slot != slot
  {
    if rows == [] || rows[0].path.slot == slot then 0 else 1 + Find(rows[1..], slot)
  }

  /** Nothing cached and nothing unacknowledged. */
  predicate Clean<T, F>(row: Row<T, F>) {
    |row.cache| == 0 && row.path.nextId == row.path.nextAck
  }

  /** Operations that address one path. */
  datatype PathOp<T, F> =
    | PushTo(item: T)
    | Remove
    | Close
    | AckOpen(from: nat, to: nat, demand: int, batchSize: int)
    | AckBatch(capacity: int, batchSize: int, ackId: int)
    | SetFilter(filter: F)

  datatype Op<T, F> =
    | Push(item: T)
    | EmitNow(force: bool)
    | FanOutFlush
    | Insert(slot: nat, sink: nat)
    | OnPath(slot: nat, act: PathOp<T, F>)

  /** What the runtime asserts about acknowledgements. */
  ghost predicate OpOk<T, F>(m: Manager<T, F>, op: Op<T, F>) {
    match op
    case OnPath(_, AckOpen(_, _, demand, size)) => 0 <= demand <= INT32_MAX && size > 0
    case OnPath(slot, AckBatch(capacity, size, _)) =>
      var i := Find(m.rows, slot);
      size > 0 && (i < |m.rows| ==> 0 <= m.rows[i].path.credit + capacity <= INT32_MAX)
    case _ => true
  }

  /** What an operation makes of the path it addresses; `None` removes the path. */
  function ActRow<T, F>(row: Row<T, F>, act: PathOp<T, F>): Option<Row<T, F>> {
    var p := row.path;
    match act
    case PushTo(x) => Some(row.(cache := row.cache + [x]))
    case Remove => None
    case Close => if Clean(row) then None else Some(row.(path := p.(closing := true)))
    case AckOpen(from, to, demand, size) =>
      if !p.pending || p.sink != from then Some(row)
      else Some(row.(path := SetBatchSize(p.(sink := to, pending := false, credit := demand), size)))
    case AckBatch(capacity, size, ackId) =>
      var row' := row.(path := SetBatchSize(p.(credit := p.credit + capacity), size).(nextAck := ackId + 1));
      if p.closing && Clean(row') then None else Some(row')
    case SetFilter(f) => Some(row.(filter := f))
  }

  function ApplyAt<T, F>(m: Manager<T, F>, i: nat, act: PathOp<T, F>): Manager<T, F>
    requires i < |m.rows|
  {
    match ActRow(m.rows[i], act)
    case None => m.(rows := Without(m.rows, i))
    case Some(row) => m.(rows := m.rows[i := row])
  }

  /** New paths start with filter `dflt`; operations on unknown slots do nothing. */
  function Apply<T, F>(select: Select<F, T>, dflt: F, m: Manager<T, F>, op: Op<T, F>): Manager<T, F>
    requires ManagerOk(m)
  {
    match op
    case Push(x) => m.(buf := m.buf + [x])
    case EmitNow(force) => EmitBatches(select, m, force)
    case FanOutFlush => Flush(select, m)
    case Insert(slot, sink) =>
      if Find(m.rows, slot) < |m.rows| then m
      else m.(rows := m.rows + [Row(NewPath(slot, sink), dflt, [])])
    case OnPath(slot, act) =>
      var i := Find(m.rows, slot);
      if i == |m.rows| then m else ApplyAt(m, i, act)
  }
}
