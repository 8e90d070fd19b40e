/**
 The books of a broadcast: how much an emit takes from the central buffer, when
 a path may leave, and where the credit, the marks and the items of a path come
 from, over whole runs (libcaf_core/caf/buffered_downstream_manager.hpp,
 libcaf_core/src/downstream_manager.cpp, libcaf_core/src/stream_manager.cpp).
 */
module BroadcastLaws {
  import opened Basics
  import opened OutboundPaths
  import opened Broadcast
  import opened BroadcastRuns

  /** Credit that the path has or used. */
  ghost function Paid<T, F>(row: Row<T, F>): int {
    row.path.credit + |Flatten(row.path.sent)|
  }

  // -- the central buffer -----------------------------------------------------

  ghost predicate IsOpen<T, F>(m: Manager<T, F>, i: int) {
    0 <= i < |m.rows| && !m.rows[i].path.closing
  }

  /** Items that an operation took from the front of the central buffer. */
  ghost function Taken<T, F>(m: Manager<T, F>, m': Manager<T, F>): int {
    |m.buf| - |m'.buf|
  }

  /**
   An emit takes as many items from the front of the central buffer as the
   credit of every open path covers on top of its cache: it stops only at the
   end of the buffer or at the first path whose credit is used up.
   */
  lemma EmitTakesAllThatFits<T, F>(select: Select<F, T>, m: Manager<T, F>, force: bool)
    requires ManagerOk(m)
    ensures var m' := EmitBatches(select, m, force);
      && 0 <= Taken(m, m') && m'.buf == m.buf[Taken(m, m')..]
      && ((forall i :: !IsOpen(m, i)) ==> m'.buf == m.buf)
      && (forall i :: IsOpen(m, i) && m'.buf != m.buf ==>
            |m.rows[i].cache| + Taken(m, m') <= m.rows[i].path.credit)
      && ((exists i :: IsOpen(m, i)) && m'.buf != [] ==>
            exists i :: IsOpen(m, i) && |m.rows[i].cache| + Taken(m, m') >= m.rows[i].path.credit)
  {
    var m', n := EmitBatches(select, m, force), ChunkSize(m.rows);
    ChunkSizeIsLeast(m.rows);
    if n == SIZE_MAX {
      assert forall i :: !IsOpen(m, i);
    } else {
      var i :| 0 <= i < |m.rows| && !m.rows[i].path.closing && n == Room(m.rows[i]);
      assert IsOpen(m, i);
    }
  }

  /** How many items a row sent with an emit. */
  ghost function SentNow<T, F>(row: Row<T, F>, row': Row<T, F>): int {
    |Flatten(row'.path.sent)| - |Flatten(row.path.sent)|
  }

  /** How many items a row had to send, counting those that the emit gave it. */
  ghost function ToSend<T, F>(row: Row<T, F>, row': Row<T, F>): int {
    |Delivered(row')| - |Flatten(row.path.sent)|
  }

  /**
   An emit serves every path, whether or not the central buffer has something
   for it: a pending one sends nothing, a closing one all that its credit
   allows, and so does an open one except that an unforced emit keeps less than
   a batch of that back.
   */
  lemma EmitServesEveryPath<T, F>(select: Select<F, T>, m: Manager<T, F>, force: bool, i: nat)
    requires ManagerOk(m) && i < |m.rows|
    ensures var row, row' := m.rows[i], EmitBatches(select, m, force).rows[i];
      var may := Min(row.path.credit, ToSend(row, row'));
      && (row.path.pending ==> SentNow(row, row') == 0)
      && (!row.path.pending && (force || row.path.closing) ==> SentNow(row, row') == may)
      && (!row.path.pending && !force ==> 0 <= may - SentNow(row, row') < row.path.batchSize)
  {
    var row, chunk := m.rows[i], NextChunk(m);
    var cache := if row.path.closing then row.cache else row.cache + Selected(select, row.filter, chunk);
    EmitShips(row.path, cache, force || row.path.closing);
    assert PathOk(row.path);
  }

  /** What an operation does to the central buffer. */
  lemma BufferMoves<T, F>(select: Select<F, T>, dflt: F, m: Manager<T, F>, op: Op<T, F>)
    requires ManagerOk(m)
    ensures var m' := Apply(select, dflt, m, op);
      && (op.FanOutFlush? ==> m'.buf == [])
      && (!op.FanOutFlush? && !op.EmitNow? ==> m'.buf == m.buf + Pushed(op))
  {
    match op
    case Push(_) =>
    case _ => assert m.buf + Pushed(op) == m.buf;
  }

  // -- leaving ----------------------------------------------------------------

  /** Nothing is cached, and `acked` is the ID of the last batch. */
  ghost predicate AllSent<T, F>(row: Row<T, F>, acked: int) {
    row.cache == [] && acked == |row.path.sent|
  }

  /** The operation that makes a path leave. */
  ghost predicate Leaves<T, F>(op: Op<T, F>, slot: nat, row: Row<T, F>) {
    && op.OnPath? && op.slot == slot
    && match op.act
       case Remove => true
       case Close => AllSent(row, row.path.nextAck - 1)
       case AckBatch(_, _, id) => row.path.closing && AllSent(row, id)
       case _ => false
  }

  /**
   A path leaves by removal; or by a close or, if it is closing already, by an
   acknowledgement, once all its items are sent and its last batch acknowledged.
   */
  lemma LeavesExactly<T, F>(select: Select<F, T>, dflt: F, m: Manager<T, F>, op: Op<T, F>, slot: nat)
    requires ManagerOk(m) && At(m, slot).Some?
    ensures At(Apply(select, dflt, m, op), slot).None? <==> Leaves(op, slot, At(m, slot).value)
  {
    RowAfter(select, dflt, m, op, slot);
    assert Counted(At(m, slot).value.path);
  }

  /**
   Only an insertion brings a path, and it brings one unless the slot is in use:
   pending, without credit, and with nothing received, sent or acknowledged.
   */
  lemma ArrivesExactly<T, F>(select: Select<F, T>, dflt: F, m: Manager<T, F>, op: Op<T, F>, slot: nat)
    requires ManagerOk(m) && At(m, slot).None?
    ensures At(Apply(select, dflt, m, op), slot).Some? <==> op.Insert? && op.slot == slot
    ensures At(Apply(select, dflt, m, op), slot).Some? ==>
      var row := At(Apply(select, dflt, m, op), slot).value;
      && row.filter == dflt && Delivered(row) == [] && Paid(row) == 0
      && row.path.sink == op.sink && row.path.pending && !row.path.closing && row.path.nextAck == 1
  {
    var m' := Apply(select, dflt, m, op);
    match op
    case EmitNow(force) =>
      forall j | 0 <= j < |m.rows| ensures m'.rows[j].path.slot == m.rows[j].path.slot {
        EmitRowFixed(select, NextChunk(m), force, m.rows[j]);
      }
    case Insert(s, sink) =>
      if s == slot {
        InsertedRow(select, dflt, m, slot, sink);
      }
    case _ =>
  }

  // -- one operation, seen from one path --------------------------------------

  /** An answer of the sink that opens the path. */
  ghost predicate Opens<T, F>(op: Op<T, F>, slot: nat, row: Row<T, F>) {
    op.OnPath? && op.slot == slot && op.act.AckOpen? && row.path.pending && op.act.from == row.path.sink
  }

  /** By how much the sink raises the credit of the path. */
  ghost function Grant<T, F>(op: Op<T, F>, slot: nat, row: Row<T, F>): int {
    if Opens(op, slot, row) then op.act.demand - row.path.credit
    else if op.OnPath? && op.slot == slot && op.act.AckBatch? then op.act.capacity
    else 0
  }

  /** What the path gets: direct pushes, and from an open path's filter what leaves the central buffer. */
  ghost function Gets<T, F>(
      select: Select<F, T>, op: Op<T, F>, slot: nat, row: Row<T, F>, buf: seq<T>, buf': seq<T>): seq<T> {
    if row.path.closing || |buf| < |buf'| then Direct(op, slot)
    else Direct(op, slot) + Selected(select, row.filter, buf[..|buf| - |buf'|])
  }

  ghost predicate SetsFilter<T, F>(op: Op<T, F>, slot: nat) {
    op.OnPath? && op.slot == slot && op.act.SetFilter?
  }

  ghost predicate Acks<T, F>(op: Op<T, F>, slot: nat) {
    op.OnPath? && op.slot == slot && op.act.AckBatch?
  }

  ghost predicate Closes<T, F>(op: Op<T, F>, slot: nat) {
    op.OnPath? && op.slot == slot && op.act.Close?
  }

  /** Sinks may ask for batches of at most the maximum size. */
  ghost function Granularity(wish: int): int {
    if 0 <= wish <= MAX_BATCH_SIZE then wish else MAX_BATCH_SIZE
  }

  /** The marks of a path after an operation. */
  ghost predicate Marked<T, F>(op: Op<T, F>, slot: nat, row: Row<T, F>, row': Row<T, F>) {
    && (row'.path.pending <==> row.path.pending && !Opens(op, slot, row))
    && (row'.path.closing <==> row.path.closing || Closes(op, slot))
    && row'.path.sink == (if Opens(op, slot, row) then op.act.to else row.path.sink)
    && row'.path.nextAck == (if Acks(op, slot) then op.act.ackId + 1 else row.path.nextAck)
    && (0 <= row.path.batchSize <= MAX_BATCH_SIZE ==>
          row'.path.batchSize
          == if Opens(op, slot, row) || Acks(op, slot) then Granularity(op.act.batchSize) else row.path.batchSize)
    && row'.filter == (if SetsFilter(op, slot) then op.act.filter else row.filter)
  }

  ghost predicate Booked<T, F>(
      select: Select<F, T>, op: Op<T, F>, slot: nat, row: Row<T, F>, buf: seq<T>, row': Row<T, F>, buf': seq<T>) {
    && Marked(op, slot, row, row')
    && Paid(row') == Paid(row) + Grant(op, slot, row)
    && Delivered(row') == Delivered(row) + Gets(select, op, slot, row, buf, buf')
    && row.path.sent <= row'.path.sent
  }

  lemma EmitMarked<T, F>(select: Select<F, T>, chunk: seq<T>, force: bool, slot: nat, row: Row<T, F>)
    requires PathOk(row.path)
    ensures Marked(EmitNow(force), slot, row, EmitRow(select, chunk, force, row))
    ensures row.path.sent <= EmitRow(select, chunk, force, row).path.sent
  {
    var cache := if row.path.closing then row.cache else row.cache + Selected(select, row.filter, chunk);
    EmitShips(row.path, cache, force || row.path.closing);
  }

  lemma EmitPaid<T, F>(select: Select<F, T>, chunk: seq<T>, force: bool, row: Row<T, F>)
    requires PathOk(row.path)
    ensures Paid(EmitRow(select, chunk, force, row)) == Paid(row)
  {
    var cache := if row.path.closing then row.cache else row.cache + Selected(select, row.filter, chunk);
    EmitShips(row.path, cache, force || row.path.closing);
  }

  lemma EmitBooked<T, F>(select: Select<F, T>, m: Manager<T, F>, force: bool, slot: nat, row: Row<T, F>)
    requires ManagerOk(m) && PathOk(row.path)
    ensures Booked(select, EmitNow(force), slot, row, m.buf,
                   EmitRow(select, NextChunk(m), force, row), EmitBatches(select, m, force).buf)
  {
    var chunk := NextChunk(m);
    EmitMarked(select, chunk, force, slot, row);
    EmitPaid(select, chunk, force, row);
    EmitRowDelivers(select, chunk, force, row);
    assert m.buf[..|chunk|] == chunk;
  }

  lemma FlushBooked<T, F>(select: Select<F, T>, buf: seq<T>, slot: nat, row: Row<T, F>)
    ensures Booked(select, FanOutFlush, slot, row, buf, FlushRow(select, buf, row), [])
  {
    if !row.path.closing {
      var more := Selected(select, row.filter, buf);
      assert buf[..|buf|] == buf;
      assert Gets(select, FanOutFlush, slot, row, buf, []) == more;
      Associative(Flatten(row.path.sent), row.cache, more);
    }
  }

  lemma ActBooked<T, F>(select: Select<F, T>, slot: nat, row: Row<T, F>, act: PathOp<T, F>, buf: seq<T>)
    requires ActRow(row, act).Some?
    ensures Booked(select, OnPath(slot, act), slot, row, buf, ActRow(row, act).value, buf)
  {
    if act.PushTo? {
      Associative(Flatten(row.path.sent), row.cache, [act.item]);
    }
  }

  lemma StepBooked<T, F>(select: Select<F, T>, dflt: F, m: Manager<T, F>, op: Op<T, F>, slot: nat)
    requires ManagerOk(m) && At(m, slot).Some? && At(Apply(select, dflt, m, op), slot).Some?
    ensures var m' := Apply(select, dflt, m, op);
      Booked(select, op, slot, At(m, slot).value, m.buf, At(m', slot).value, m'.buf)
  {
    var row := At(m, slot).value;
    RowAfter(select, dflt, m, op, slot);
    match op
    case Push(_) =>
    case EmitNow(force) => EmitBooked(select, m, force, slot, row);
    case FanOutFlush => FlushBooked(select, m.buf, slot, row);
    case Insert(_, _) =>
    case OnPath(s, act) =>
      if s == slot {
        ActBooked(select, slot, row, act, m.buf);
      }
  }

  // -- whole runs -------------------------------------------------------------

  /** A path with the central buffer, step by step, and what booked each step. */
  ghost predicate IsBook<T, F>(
      select: Select<F, T>, slot: nat, rows: seq<Row<T, F>>, bufs: seq<seq<T>>, ops: seq<Op<T, F>>) {
    && |rows| == |bufs| == |ops| + 1
    && forall k {:trigger ops[k]} :: 0 <= k < |ops| ==>
        Booked(select, ops[k], slot, rows[k], bufs[k], rows[k + 1], bufs[k + 1])
  }

  ghost function Granted<T, F>(slot: nat, rows: seq<Row<T, F>>, ops: seq<Op<T, F>>): int
    requires |rows| == |ops| + 1
  {
    if ops == [] then 0 else
    var k := |ops| - 1;
    Granted(slot, rows[..k + 1], ops[..k]) + Grant(ops[k], slot, rows[k])
  }

  ghost function Received<T, F>(
      select: Select<F, T>, slot: nat, rows: seq<Row<T, F>>, bufs: seq<seq<T>>, ops: seq<Op<T, F>>): seq<T>
    requires |rows| == |bufs| == |ops| + 1
  {
    if ops == [] then [] else
    var k := |ops| - 1;
    Received(select, slot, rows[..k + 1], bufs[..k + 1], ops[..k])
    + Gets(select, ops[k], slot, rows[k], bufs[k], bufs[k + 1])
  }

  /** The filter set last, or the one at the beginning. */
  ghost function LastFilter<T, F>(ops: seq<Op<T, F>>, slot: nat, first: F): F {
    if ops == [] then first
    else if SetsFilter(ops[|ops| - 1], slot) then ops[|ops| - 1].act.filter
    else LastFilter(ops[..|ops| - 1], slot, first)
  }

  ghost function LastAck<T, F>(ops: seq<Op<T, F>>, slot: nat, first: int): int {
    if ops == [] then first
    else if Acks(ops[|ops| - 1], slot) then ops[|ops| - 1].act.ackId
    else LastAck(ops[..|ops| - 1], slot, first)
  }

  /** Some operation is an answer of the sink `sink` to the opening of the path. */
  ghost predicate Answered<T, F>(ops: seq<Op<T, F>>, slot: nat, sink: nat) {
    exists k :: 0 <= k < |ops| && ops[k].OnPath? && ops[k].slot == slot && ops[k].act.AckOpen? && ops[k].act.from == sink
  }

  ghost predicate Closed<T, F>(ops: seq<Op<T, F>>, slot: nat) {
    exists k :: 0 <= k < |ops| && Closes(ops[k], slot)
  }

  lemma BookPrefix<T, F>(
      select: Select<F, T>, slot: nat, rows: seq<Row<T, F>>, bufs: seq<seq<T>>, ops: seq<Op<T, F>>, k: nat)
    requires IsBook(select, slot, rows, bufs, ops) && k <= |ops|
    ensures IsBook(select, slot, rows[..k + 1], bufs[..k + 1], ops[..k])
  {
  }

  /** Filter and acknowledged ID are those set last. */
  lemma {:induction false} BookedLast<T, F>(
      select: Select<F, T>, slot: nat, rows: seq<Row<T, F>>, bufs: seq<seq<T>>, ops: seq<Op<T, F>>)
    requires IsBook(select, slot, rows, bufs, ops)
    ensures var a, b := rows[0], rows[|ops|];
      && b.filter == LastFilter(ops, slot, a.filter)
      && b.path.nextAck - 1 == LastAck(ops, slot, a.path.nextAck - 1)
  {
    if ops != [] {
      var k := |ops| - 1;
      BookPrefix(select, slot, rows, bufs, ops, k);
      BookedLast(select, slot, rows[..k + 1], bufs[..k + 1], ops[..k]);
      assert Booked(select, ops[k], slot, rows[k], bufs[k], rows[k + 1], bufs[k + 1]);
    }
  }

  /** A path is closing from the first close on. */
  lemma {:induction false} BookedClosing<T, F>(
      select: Select<F, T>, slot: nat, rows: seq<Row<T, F>>, bufs: seq<seq<T>>, ops: seq<Op<T, F>>)
    requires IsBook(select, slot, rows, bufs, ops)
    ensures rows[|ops|].path.closing <==> rows[0].path.closing || Closed(ops, slot)
  {
    if ops != [] {
      var k := |ops| - 1;
      BookPrefix(select, slot, rows, bufs, ops, k);
      BookedClosing(select, slot, rows[..k + 1], bufs[..k + 1], ops[..k]);
      assert Booked(select, ops[k], slot, rows[k], bufs[k], rows[k + 1], bufs[k + 1]);
      ClosedSnoc(ops[..k], ops[k], slot);
      assert ops == ops[..k] + [ops[k]];
    }
  }

  lemma ClosedSnoc<T, F>(ops: seq<Op<T, F>>, op: Op<T, F>, slot: nat)
    ensures Closed(ops + [op], slot) <==> Closed(ops, slot) || Closes(op, slot)
  {
    if Closed(ops, slot) {
      var k :| 0 <= k < |ops| && Closes(ops[k], slot);
      assert (ops + [op])[k] == ops[k];
    }
    assert (ops + [op])[|ops|] == op;
  }

  lemma AnsweredSnoc<T, F>(ops: seq<Op<T, F>>, op: Op<T, F>, slot: nat, sink: nat)
    ensures Answered(ops + [op], slot, sink) <==>
      Answered(ops, slot, sink) || (op.OnPath? && op.slot == slot && op.act.AckOpen? && op.act.from == sink)
  {
    if Answered(ops, slot, sink) {
      var k :| 0 <= k < |ops| && ops[k].OnPath? && ops[k].slot == slot && ops[k].act.AckOpen? && ops[k].act.from == sink;
      assert (ops + [op])[k] == ops[k];
    }
    assert (ops + [op])[|ops|] == op;
  }

  /** A path is pending until its sink answers, and keeps the sink for that long. */
  lemma {:induction false} BookedPending<T, F>(
      select: Select<F, T>, slot: nat, rows: seq<Row<T, F>>, bufs: seq<seq<T>>, ops: seq<Op<T, F>>)
    requires IsBook(select, slot, rows, bufs, ops)
    ensures var a, b := rows[0].path, rows[|ops|].path;
      && (b.pending <==> a.pending && !Answered(ops, slot, a.sink))
      && (b.pending ==> b.sink == a.sink)
  {
    if ops != [] {
      var k := |ops| - 1;
      BookPrefix(select, slot, rows, bufs, ops, k);
      BookedPending(select, slot, rows[..k + 1], bufs[..k + 1], ops[..k]);
      assert Booked(select, ops[k], slot, rows[k], bufs[k], rows[k + 1], bufs[k + 1]);
      AnsweredSnoc(ops[..k], ops[k], slot, rows[0].path.sink);
      assert ops == ops[..k] + [ops[k]];
    }
  }

  /** Credit is what the sink granted less what was sent; the items are those that the path got. */
  lemma {:induction false} BookedItems<T, F>(
      select: Select<F, T>, slot: nat, rows: seq<Row<T, F>>, bufs: seq<seq<T>>, ops: seq<Op<T, F>>)
    requires IsBook(select, slot, rows, bufs, ops)
    ensures Paid(rows[|ops|]) == Paid(rows[0]) + Granted(slot, rows, ops)
    ensures Delivered(rows[|ops|]) == Delivered(rows[0]) + Received(select, slot, rows, bufs, ops)
  {
    if ops != [] {
      var k := |ops| - 1;
      BookPrefix(select, slot, rows, bufs, ops, k);
      BookedItems(select, slot, rows[..k + 1], bufs[..k + 1], ops[..k]);
      assert Booked(select, ops[k], slot, rows[k], bufs[k], rows[k + 1], bufs[k + 1]);
      Associative(Delivered(rows[0]), Received(select, slot, rows[..k + 1], bufs[..k + 1], ops[..k]),
                  Gets(select, ops[k], slot, rows[k], bufs[k], bufs[k + 1]));
    }
  }

  /**
   Credit and sent items account for every grant of the sink; the path got every
   direct push and, while open, what its filter let pass of all that left the
   central buffer; and its marks are those of the operations that set them.
   */
  ghost predicate Balances<T, F>(
      select: Select<F, T>, slot: nat, rows: seq<Row<T, F>>, bufs: seq<seq<T>>, ops: seq<Op<T, F>>)
    requires |rows| == |bufs| == |ops| + 1
  {
    var a, b := rows[0], rows[|ops|];
    && Paid(b) == Paid(a) + Granted(slot, rows, ops)
    && Delivered(b) == Delivered(a) + Received(select, slot, rows, bufs, ops)
    && b.filter == LastFilter(ops, slot, a.filter)
    && b.path.nextAck - 1 == LastAck(ops, slot, a.path.nextAck - 1)
    && (b.path.closing <==> a.path.closing || Closed(ops, slot))
    && (b.path.pending <==> a.path.pending && !Answered(ops, slot, a.path.sink))
  }

  lemma BookBalances<T, F>(
      select: Select<F, T>, slot: nat, rows: seq<Row<T, F>>, bufs: seq<seq<T>>, ops: seq<Op<T, F>>)
    requires IsBook(select, slot, rows, bufs, ops)
    ensures Balances(select, slot, rows, bufs, ops)
  {
    BookedItems(select, slot, rows, bufs, ops);
    BookedLast(select, slot, rows, bufs, ops);
    BookedClosing(select, slot, rows, bufs, ops);
    BookedPending(select, slot, rows, bufs, ops);
  }

  ghost function BufsOf<T, F>(ms: seq<Manager<T, F>>, i: nat, j: nat): (bufs: seq<seq<T>>)
    requires i <= j < |ms|
    ensures |bufs| == j - i + 1
  {
    seq(j - i + 1, k requires 0 <= k <= j - i => ms[i + k].buf)
  }

  ghost predicate Present<T, F>(ms: seq<Manager<T, F>>, ops: seq<Op<T, F>>, i: nat, j: nat, slot: nat) {
    i <= j < |ms| && |ms| == |ops| + 1 && forall k :: i <= k <= j ==> At(ms[k], slot).Some?
  }

  lemma RunStepBooked<T, F>(
      select: Select<F, T>, dflt: F, ms: seq<Manager<T, F>>, ops: seq<Op<T, F>>, k: nat, slot: nat)
    requires IsRun(select, dflt, ms, ops) && k < |ops| && At(ms[k], slot).Some? && At(ms[k + 1], slot).Some?
    ensures Booked(select, ops[k], slot, At(ms[k], slot).value, ms[k].buf, At(ms[k + 1], slot).value, ms[k + 1].buf)
  {
    assert ms[k + 1] == Apply(select, dflt, ms[k], ops[k]);
    StepBooked(select, dflt, ms[k], ops[k], slot);
  }

  lemma RunBook<T, F>(
      select: Select<F, T>, dflt: F, ms: seq<Manager<T, F>>, ops: seq<Op<T, F>>, i: nat, j: nat, slot: nat)
    requires IsRun(select, dflt, ms, ops) && Present(ms, ops, i, j, slot)
    ensures IsBook(select, slot, RowsOf(ms, slot, i, j), BufsOf(ms, i, j), ops[i..j])
  {
    var rows, bufs, xs := RowsOf(ms, slot, i, j), BufsOf(ms, i, j), ops[i..j];
    forall k | 0 <= k < |xs| ensures Booked(select, xs[k], slot, rows[k], bufs[k], rows[k + 1], bufs[k + 1]) {
      RunStepBooked(select, dflt, ms, ops, i + k, slot);
    }
  }

  /** Between any two points of a run at which a path is present throughout, its books balance. */
  lemma BooksBalance<T, F>(
      select: Select<F, T>, dflt: F, ms: seq<Manager<T, F>>, ops: seq<Op<T, F>>, i: nat, j: nat, slot: nat)
    requires IsRun(select, dflt, ms, ops) && Present(ms, ops, i, j, slot)
    ensures Balances(select, slot, RowsOf(ms, slot, i, j), BufsOf(ms, i, j), ops[i..j])
  {
    RunBook(select, dflt, ms, ops, i, j, slot);
    BookBalances(select, slot, RowsOf(ms, slot, i, j), BufsOf(ms, i, j), ops[i..j]);
  }

  /** The last row of a path that has nothing left to send, all of it acknowledged by the last operation at the latest. */
  ghost predicate Served<T, F>(
      select: Select<F, T>, slot: nat, rows: seq<Row<T, F>>, bufs: seq<seq<T>>, ops: seq<Op<T, F>>, last: Op<T, F>)
    requires |rows| == |bufs| == |ops| + 1
  {
    var a, b := rows[0], rows[|ops|];
    && b.cache == []
    && Flatten(b.path.sent) == Delivered(a) + Received(select, slot, rows, bufs, ops)
    && LastAck(ops + [last], slot, a.path.nextAck - 1) == |b.path.sent|
  }

  lemma LeaverServed<T, F>(
      select: Select<F, T>, slot: nat, rows: seq<Row<T, F>>, bufs: seq<seq<T>>, ops: seq<Op<T, F>>, last: Op<T, F>)
    requires |rows| == |bufs| == |ops| + 1 && Balances(select, slot, rows, bufs, ops)
    requires Leaves(last, slot, rows[|ops|]) && !last.act.Remove?
    ensures Served(select, slot, rows, bufs, ops, last)
  {
    assert (ops + [last])[..|ops|] == ops;
  }

  lemma StepLeaves<T, F>(
      select: Select<F, T>, dflt: F, ms: seq<Manager<T, F>>, ops: seq<Op<T, F>>, k: nat, slot: nat)
    requires IsRun(select, dflt, ms, ops) && k < |ops| && At(ms[k], slot).Some?
    ensures At(ms[k + 1], slot).None? <==> Leaves(ops[k], slot, At(ms[k], slot).value)
  {
    assert ms[k + 1] == Apply(select, dflt, ms[k], ops[k]);
    LeavesExactly(select, dflt, ms[k], ops[k], slot);
  }

  /**
   A path that leaves without being removed was sent everything that it ever got,
   and its last batch was acknowledged.
   */
  lemma LeavingPathsWereServed<T, F>(
      select: Select<F, T>, dflt: F, ms: seq<Manager<T, F>>, ops: seq<Op<T, F>>, i: nat, k: nat, slot: nat)
    requires IsRun(select, dflt, ms, ops) && Present(ms, ops, i, k, slot) && k < |ops|
    requires At(ms[k + 1], slot).None? && ops[k] != OnPath(slot, Remove)
    ensures ops[k].OnPath? && ops[k].slot == slot && (ops[k].act.Close? || ops[k].act.AckBatch?)
    ensures Served(select, slot, RowsOf(ms, slot, i, k), BufsOf(ms, i, k), ops[i..k], ops[k])
  {
    StepLeaves(select, dflt, ms, ops, k, slot);
    BooksBalance(select, dflt, ms, ops, i, k, slot);
    LeaverServed(select, slot, RowsOf(ms, slot, i, k), BufsOf(ms, i, k), ops[i..k], ops[k]);
  }

  /** Closing any other path leaves it there, with all its items, and marks it. */
  lemma ClosingKeepsThePath<T, F>(select: Select<F, T>, dflt: F, m: Manager<T, F>, slot: nat)
    requires ManagerOk(m) && At(m, slot).Some? && !AllSent(At(m, slot).value, At(m, slot).value.path.nextAck - 1)
    ensures var row := At(m, slot).value;
      At(Apply(select, dflt, m, OnPath(slot, Close)), slot) == Some(row.(path := row.path.(closing := true)))
  {
    RowAfter(select, dflt, m, OnPath(slot, Close), slot);
    assert Counted(At(m, slot).value.path);
  }
}
