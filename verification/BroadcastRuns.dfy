/**
 What broadcasting promises over whole runs: every open path receives exactly
 the selected items in order, and emitting or flushing never buffers more.
 */
module BroadcastRuns {
  import opened Basics
  import opened OutboundPaths
  import opened Broadcast

  // -- one row at a time ------------------------------------------------------

  ghost function At<T, F>(m: Manager<T, F>, slot: nat): Option<Row<T, F>> {
    var i := Find(m.rows, slot);
    if i < |m.rows| then Some(m.rows[i]) else None
  }

  /** What an operation makes of the row of one slot. */
  ghost function RowStep<T, F>(select: Select<F, T>, m: Manager<T, F>, op: Op<T, F>, slot: nat, row: Row<T, F>)
    : Option<Row<T, F>>
    requires ManagerOk(m) && PathOk(row.path)
  {
    match op
    case Push(_) => Some(row)
    case EmitNow(force) => Some(EmitRow(select, NextChunk(m), force, row))
    case FanOutFlush => Some(FlushRow(select, m.buf, row))
    case Insert(_, _) => Some(row)
    case OnPath(s, act) => if s == slot then ActRow(row, act) else Some(row)
  }

  lemma FindIs<T, F>(rows: seq<Row<T, F>>, slot: nat, i: nat)
    requires i < |rows| && rows[i].path.slot == slot
    requires forall j :: 0 <= j < i ==> rows[j].path.slot != slot
    ensures Find(rows, slot) == i
  {
  }

  /** Emitting changes neither slot, filter nor the closing mark of a row. */
  lemma EmitRowFixed<T, F>(select: Select<F, T>, chunk: seq<T>, force: bool, row: Row<T, F>)
    requires PathOk(row.path)
    ensures var row' := EmitRow(select, chunk, force, row);
      && row'.filter == row.filter
      && row'.path.slot == row.path.slot
      && row'.path.closing == row.path.closing
      && row'.path.pending == row.path.pending
  {
    var cache := if row.path.closing then row.cache else row.cache + Selected(select, row.filter, chunk);
    EmitShips(row.path, cache, force || row.path.closing);
  }

  lemma EmitRowOk<T, F>(select: Select<F, T>, chunk: seq<T>, force: bool, row: Row<T, F>)
    requires PathOk(row.path) && Counted(row.path)
    ensures var p := EmitRow(select, chunk, force, row).path; PathOk(p) && Counted(p)
  {
    var cache := if row.path.closing then row.cache else row.cache + Selected(select, row.filter, chunk);
    EmitShips(row.path, cache, force || row.path.closing);
    var p, q := row.path, EmitRow(select, chunk, force, row).path;
    forall i | 0 <= i < |q.sent| ensures q.sent[i].id == 1 + i {
      assert i < |p.sent| ==> q.sent[i] == p.sent[i];
    }
  }

  /** Operations reach the row of a slot and no other row. */
  lemma RowAfter<T, F>(select: Select<F, T>, dflt: F, m: Manager<T, F>, op: Op<T, F>, slot: nat)
    requires ManagerOk(m) && At(m, slot).Some?
    ensures At(Apply(select, dflt, m, op), slot) == RowStep(select, m, op, slot, At(m, slot).value)
  {
    var i, m' := Find(m.rows, slot), Apply(select, dflt, m, op);
    match op
    case Push(_) =>
    case EmitNow(force) =>
      forall j | 0 <= j < |m.rows| ensures m'.rows[j].path.slot == m.rows[j].path.slot {
        EmitRowFixed(select, NextChunk(m), force, m.rows[j]);
      }
      FindIs(m'.rows, slot, i);
    case FanOutFlush => FindIs(m'.rows, slot, i);
    case Insert(_, _) => FindIs(m'.rows, slot, i);
    case OnPath(s, act) => PathOpElsewhere(m, slot, s, act);
  }

  ghost predicate Distinct<T, F>(rows: seq<Row<T, F>>) {
    forall i, j :: 0 <= i < j < |rows| ==> rows[i].path.slot != rows[j].path.slot
  }

  lemma FindUpdated<T, F>(rows: seq<Row<T, F>>, k: nat, row: Row<T, F>, slot: nat)
    requires k < |rows| && row.path.slot == rows[k].path.slot && Find(rows, slot) < |rows|
    ensures Find(rows[k := row], slot) == Find(rows, slot)
  {
    FindIs(rows[k := row], slot, Find(rows, slot));
  }

  lemma FindWithout<T, F>(rows: seq<Row<T, F>>, k: nat, slot: nat)
    requires Distinct(rows) && k < |rows| && Find(rows, slot) < |rows|
    ensures var rows', i := Without(rows, k), Find(rows, slot);
      Find(rows', slot) == if i < k then i else if i == k then |rows'| else i - 1
  {
    var rows', i := Without(rows, k), Find(rows, slot);
    if i == k {
      assert forall j :: 0 <= j < |rows'| ==> rows'[j].path.slot != slot;
    } else {
      FindIs(rows', slot, if i < k then i else i - 1);
    }
  }

  lemma PathOpElsewhere<T, F>(m: Manager<T, F>, slot: nat, s: nat, act: PathOp<T, F>)
    requires ManagerOk(m) && At(m, slot).Some?
    ensures var k := Find(m.rows, s);
      k < |m.rows| ==>
        At(ApplyAt(m, k, act), slot) == if s == slot then ActRow(m.rows[k], act) else At(m, slot)
  {
    var k := Find(m.rows, s);
    if k < |m.rows| {
      match ActRow(m.rows[k], act)
      case None => FindWithout(m.rows, k, slot);
      case Some(row) => FindUpdated(m.rows, k, row, slot);
    }
  }

  lemma ManagerOkNext<T, F>(select: Select<F, T>, dflt: F, m: Manager<T, F>, op: Op<T, F>)
    requires ManagerOk(m) && OpOk(m, op)
    ensures ManagerOk(Apply(select, dflt, m, op))
  {
    var m' := Apply(select, dflt, m, op);
    match op
    case EmitNow(force) =>
      forall j | 0 <= j < |m.rows|
        ensures m'.rows[j].path.slot == m.rows[j].path.slot && PathOk(m'.rows[j].path) && Counted(m'.rows[j].path)
      {
        EmitRowFixed(select, NextChunk(m), force, m.rows[j]);
        EmitRowOk(select, NextChunk(m), force, m.rows[j]);
      }
    case OnPath(slot, act) =>
      var i := Find(m.rows, slot);
      if i < |m.rows| {
        ActRowOk(m.rows[i], act);
      }
    case _ =>
  }

  lemma ActRowOk<T, F>(row: Row<T, F>, act: PathOp<T, F>)
    requires PathOk(row.path) && Counted(row.path)
    requires act.AckOpen? ==> 0 <= act.demand <= INT32_MAX && act.batchSize > 0
    requires act.AckBatch? ==> 0 <= row.path.credit + act.capacity <= INT32_MAX && act.batchSize > 0
    ensures var r := ActRow(row, act);
      r.Some? ==> PathOk(r.value.path) && Counted(r.value.path) && r.value.path.slot == row.path.slot
  {
  }

  // -- delivery ---------------------------------------------------------------

  /** What a path has received or is certain to receive next, in order. */
  ghost function Delivered<T, F>(row: Row<T, F>): seq<T> {
    Flatten(row.path.sent) + row.cache
  }

  /** What a path still gets, counting the central buffer. */
  ghost function Stream<T, F>(select: Select<F, T>, row: Row<T, F>, buf: seq<T>): seq<T> {
    Delivered(row) + Selected(select, row.filter, buf)
  }

  ghost function Pushed<T, F>(op: Op<T, F>): seq<T> {
    if op.Push? then [op.item] else []
  }

  /** Operations that meddle with the cache or filter of one slot directly. */
  ghost predicate Meddles<T, F>(op: Op<T, F>, slot: nat) {
    op.OnPath? && op.slot == slot && (op.act.PushTo? || op.act.SetFilter?)
  }

  lemma EmitRowDelivers<T, F>(select: Select<F, T>, chunk: seq<T>, force: bool, row: Row<T, F>)
    requires PathOk(row.path)
    ensures Delivered(EmitRow(select, chunk, force, row))
      == Delivered(row) + if row.path.closing then [] else Selected(select, row.filter, chunk)
  {
    var cache := if row.path.closing then row.cache else row.cache + Selected(select, row.filter, chunk);
    EmitShips(row.path, cache, force || row.path.closing);
    assert Flatten(row.path.sent) + cache
        == Delivered(row) + if row.path.closing then [] else Selected(select, row.filter, chunk);
  }

  lemma StreamConcat<T, F>(select: Select<F, T>, row: Row<T, F>, xs: seq<T>, ys: seq<T>)
    ensures Stream(select, row, xs + ys) == Stream(select, row, xs) + Selected(select, row.filter, ys)
  {
    SelectedConcat(select, row.filter, xs, ys);
    Associative(Delivered(row), Selected(select, row.filter, xs), Selected(select, row.filter, ys));
  }

  lemma EmitStream<T, F>(select: Select<F, T>, m: Manager<T, F>, force: bool, row: Row<T, F>)
    requires ManagerOk(m) && PathOk(row.path) && !row.path.closing
    ensures var m' := EmitBatches(select, m, force);
      Stream(select, EmitRow(select, NextChunk(m), force, row), m'.buf) == Stream(select, row, m.buf)
  {
    var chunk := NextChunk(m);
    var rest := m.buf[|chunk|..];
    EmitRowFixed(select, chunk, force, row);
    EmitRowDelivers(select, chunk, force, row);
    StreamConcat(select, row, chunk, rest);
    assert m.buf == chunk + rest;
  }

  lemma FlushStream<T, F>(select: Select<F, T>, buf: seq<T>, row: Row<T, F>)
    requires !row.path.closing
    ensures Stream(select, FlushRow(select, buf, row), []) == Stream(select, row, buf)
  {
  }

  lemma ActDelivers<T, F>(row: Row<T, F>, act: PathOp<T, F>)
    requires ActRow(row, act).Some? && !act.PushTo? && !act.SetFilter?
    ensures var row' := ActRow(row, act).value;
      && row'.filter == row.filter && Delivered(row') == Delivered(row)
      && (row.path.closing ==> row'.path.closing)
  {
  }

  /** One operation: an open path's stream grows by what was pushed; a closing path's is frozen. */
  lemma StepDelivers<T, F>(select: Select<F, T>, dflt: F, m: Manager<T, F>, op: Op<T, F>, slot: nat)
    requires ManagerOk(m) && !Meddles(op, slot)
    requires At(m, slot).Some? && At(Apply(select, dflt, m, op), slot).Some?
    ensures var row, m' := At(m, slot).value, Apply(select, dflt, m, op);
      var row' := At(m', slot).value;
      && row'.filter == row.filter
      && (row.path.closing ==> row'.path.closing)
      && (row'.path.closing ==> Delivered(row') == Delivered(row))
      && (!row'.path.closing ==> Stream(select, row', m'.buf) == Stream(select, row, m.buf + Pushed(op)))
  {
    var row := At(m, slot).value;
    RowAfter(select, dflt, m, op, slot);
    assert !op.Push? ==> m.buf + Pushed(op) == m.buf;
    match op
    case EmitNow(force) =>
      EmitRowFixed(select, NextChunk(m), force, row);
      EmitRowDelivers(select, NextChunk(m), force, row);
      if !row.path.closing {
        EmitStream(select, m, force, row);
      }
    case FanOutFlush =>
      if !row.path.closing {
        FlushStream(select, m.buf, row);
      }
    case OnPath(s, act) =>
      if s == slot {
        ActDelivers(row, act);
      }
    case _ =>
  }

  // -- delivery over runs -----------------------------------------------------

  ghost predicate IsRun<T, F>(select: Select<F, T>, dflt: F, ms: seq<Manager<T, F>>, ops: seq<Op<T, F>>) {
    && |ms| == |ops| + 1
    && ms[0] == Manager([], [])
    && forall i :: 0 <= i < |ops| ==>
        ManagerOk(ms[i]) && OpOk(ms[i], ops[i]) && ms[i + 1] == Apply(select, dflt, ms[i], ops[i])
  }

  lemma {:induction false} RunOk<T, F>(
      select: Select<F, T>, dflt: F, ms: seq<Manager<T, F>>, ops: seq<Op<T, F>>, k: nat)
    requires IsRun(select, dflt, ms, ops) && k < |ms|
    ensures ManagerOk(ms[k])
  {
    if k > 0 {
      RunOk(select, dflt, ms, ops, k - 1);
      ManagerOkNext(select, dflt, ms[k - 1], ops[k - 1]);
    }
  }

  /** Slot `slot` stays connected between two points of a run, and nobody meddles with it. */
  ghost predicate Connected<T, F>(ms: seq<Manager<T, F>>, ops: seq<Op<T, F>>, i: nat, j: nat, slot: nat) {
    && i <= j < |ms| && |ms| == |ops| + 1
    && (forall k :: i <= k <= j ==> At(ms[k], slot).Some?)
    && (forall k :: i <= k < j ==> !Meddles(ops[k], slot))
  }

  /** What one operation that pushes `x` makes of a row and the central buffer. */
  ghost predicate Evolves<T, F>(
      select: Select<F, T>, row: Row<T, F>, buf: seq<T>, x: seq<T>, row': Row<T, F>, buf': seq<T>) {
    && row'.filter == row.filter
    && (row.path.closing ==> row'.path.closing)
    && (row'.path.closing ==> Delivered(row') == Delivered(row))
    && (!row'.path.closing ==> Stream(select, row', buf') == Stream(select, row, buf + x))
  }

  lemma RunStep<T, F>(
      select: Select<F, T>, dflt: F, ms: seq<Manager<T, F>>, ops: seq<Op<T, F>>, k: nat, slot: nat)
    requires IsRun(select, dflt, ms, ops) && k < |ops| && !Meddles(ops[k], slot)
    requires At(ms[k], slot).Some? && At(ms[k + 1], slot).Some?
    ensures Evolves(select, At(ms[k], slot).value, ms[k].buf, Pushed(ops[k]), At(ms[k + 1], slot).value, ms[k + 1].buf)
  {
    assert ms[k + 1] == Apply(select, dflt, ms[k], ops[k]);
    StepDelivers(select, dflt, ms[k], ops[k], slot);
  }

  /** The history of one slot: its rows with the central buffer, from step `i` to step `j`. */
  ghost function Trail<T, F>(ms: seq<Manager<T, F>>, slot: nat, i: nat, j: nat): (tr: seq<(Row<T, F>, seq<T>)>)
    requires i <= j < |ms| && forall k :: i <= k <= j ==> At(ms[k], slot).Some?
    ensures |tr| == j - i + 1
  {
    seq(j - i + 1, k requires 0 <= k <= j - i => (At(ms[i + k], slot).value, ms[i + k].buf))
  }

  ghost predicate IsTrail<T, F>(select: Select<F, T>, tr: seq<(Row<T, F>, seq<T>)>, xs: seq<seq<T>>) {
    && |tr| == |xs| + 1
    && forall k :: 0 <= k < |xs| ==> Evolves(select, tr[k].0, tr[k].1, xs[k], tr[k + 1].0, tr[k + 1].1)
  }

  ghost function PushesOf<T, F>(ops: seq<Op<T, F>>, i: nat, j: nat): seq<seq<T>>
    requires i <= j <= |ops|
  {
    seq(j - i, k requires 0 <= k < j - i => Pushed(ops[i + k]))
  }

  lemma RunTrail<T, F>(
      select: Select<F, T>, dflt: F, ms: seq<Manager<T, F>>, ops: seq<Op<T, F>>, i: nat, j: nat, slot: nat)
    requires IsRun(select, dflt, ms, ops) && Connected(ms, ops, i, j, slot)
    ensures IsTrail(select, Trail(ms, slot, i, j), PushesOf(ops, i, j))
  {
    var tr, xs := Trail(ms, slot, i, j), PushesOf(ops, i, j);
    forall k | 0 <= k < |xs| ensures Evolves(select, tr[k].0, tr[k].1, xs[k], tr[k + 1].0, tr[k + 1].1) {
      RunStep(select, dflt, ms, ops, i + k, slot);
    }
  }

  /** Everything pushed, in order. */
  ghost function Joined<T>(xs: seq<seq<T>>): seq<T> {
    if xs == [] then [] else Joined(xs[..|xs| - 1]) + xs[|xs| - 1]
  }

  lemma {:induction false} OpenTrail<T, F>(select: Select<F, T>, tr: seq<(Row<T, F>, seq<T>)>, xs: seq<seq<T>>)
    requires IsTrail(select, tr, xs) && !tr[|xs|].0.path.closing
    ensures tr[|xs|].0.filter == tr[0].0.filter
    ensures Stream(select, tr[|xs|].0, tr[|xs|].1) == Stream(select, tr[0].0, tr[0].1 + Joined(xs))
  {
    if xs == [] {
      assert tr[0].1 + [] == tr[0].1;
    } else {
      var n := |xs| - 1;
      assert Evolves(select, tr[n].0, tr[n].1, xs[n], tr[n + 1].0, tr[n + 1].1);
      OpenTrail(select, tr[..n + 1], xs[..n]);
      AppendStream(select, tr[n].0, tr[n].1, tr[0].0, tr[0].1 + Joined(xs[..n]), xs[n]);
      Associative(tr[0].1, Joined(xs[..n]), xs[n]);
    }
  }

  lemma AppendStream<T, F>(
      select: Select<F, T>, row: Row<T, F>, buf: seq<T>, row': Row<T, F>, buf': seq<T>, x: seq<T>)
    requires row.filter == row'.filter && Stream(select, row, buf) == Stream(select, row', buf')
    ensures Stream(select, row, buf + x) == Stream(select, row', buf' + x)
  {
    StreamConcat(select, row, buf, x);
    StreamConcat(select, row', buf', x);
  }

  /**
   A path that is open at step `j` has received or will receive, in order and
   without loss or duplication, what it had at step `i` plus the selected part
   of the central buffer at `i` and of everything pushed since.
   */
  lemma OpenPathsGetTheStream<T, F>(
      select: Select<F, T>, dflt: F, ms: seq<Manager<T, F>>, ops: seq<Op<T, F>>, i: nat, j: nat, slot: nat)
    requires IsRun(select, dflt, ms, ops) && Connected(ms, ops, i, j, slot)
    requires !At(ms[j], slot).value.path.closing
    ensures At(ms[j], slot).value.filter == At(ms[i], slot).value.filter
    ensures Stream(select, At(ms[j], slot).value, ms[j].buf)
      == Stream(select, At(ms[i], slot).value, ms[i].buf + Joined(PushesOf(ops, i, j)))
  {
    RunTrail(select, dflt, ms, ops, i, j, slot);
    OpenTrail(select, Trail(ms, slot, i, j), PushesOf(ops, i, j));
  }

  /** A path inserted at step `i` gets the selected part of the buffer at that time and of all later pushes. */
  lemma FreshPathsStartAtTheBuffer<T, F>(
      select: Select<F, T>, dflt: F, ms: seq<Manager<T, F>>, ops: seq<Op<T, F>>, i: nat, j: nat, slot: nat)
    requires IsRun(select, dflt, ms, ops) && Connected(ms, ops, i + 1, j, slot)
    requires ops[i].Insert? && ops[i].slot == slot && At(ms[i], slot).None?
    requires !At(ms[j], slot).value.path.closing
    ensures Stream(select, At(ms[j], slot).value, ms[j].buf)
      == Selected(select, dflt, ms[i].buf + Joined(PushesOf(ops, i + 1, j)))
  {
    FreshRow(select, dflt, ms, ops, i, slot);
    OpenPathsGetTheStream(select, dflt, ms, ops, i + 1, j, slot);
  }

  lemma FreshRow<T, F>(
      select: Select<F, T>, dflt: F, ms: seq<Manager<T, F>>, ops: seq<Op<T, F>>, i: nat, slot: nat)
    requires IsRun(select, dflt, ms, ops) && i < |ops| && ops[i].Insert? && ops[i].slot == slot && At(ms[i], slot).None?
    ensures At(ms[i + 1], slot).Some? && ms[i + 1].buf == ms[i].buf
    ensures Delivered(At(ms[i + 1], slot).value) == [] && At(ms[i + 1], slot).value.filter == dflt
  {
    assert ms[i + 1] == Apply(select, dflt, ms[i], ops[i]);
    InsertedRow(select, dflt, ms[i], slot, ops[i].sink);
  }

  lemma InsertedRow<T, F>(select: Select<F, T>, dflt: F, m: Manager<T, F>, slot: nat, sink: nat)
    requires ManagerOk(m) && At(m, slot).None?
    ensures var m' := Apply(select, dflt, m, Insert(slot, sink));
      m'.buf == m.buf && At(m', slot) == Some(Row(NewPath(slot, sink), dflt, []))
  {
    FindIs(m.rows + [Row(NewPath(slot, sink), dflt, [])], slot, |m.rows|);
  }

  // -- closing paths ----------------------------------------------------------

  /** What an operation pushes to one slot directly, past the central buffer. */
  ghost function Direct<T, F>(op: Op<T, F>, slot: nat): seq<T> {
    if op.OnPath? && op.slot == slot && op.act.PushTo? then [op.act.item] else []
  }

  ghost function DirectsOf<T, F>(ops: seq<Op<T, F>>, slot: nat, i: nat, j: nat): seq<seq<T>>
    requires i <= j <= |ops|
  {
    seq(j - i, k requires 0 <= k < j - i => Direct(ops[i + k], slot))
  }

  /** One operation on a closing path: only a direct push adds to it. */
  lemma ClosingStep<T, F>(select: Select<F, T>, dflt: F, m: Manager<T, F>, op: Op<T, F>, slot: nat)
    requires ManagerOk(m) && At(m, slot).Some? && At(Apply(select, dflt, m, op), slot).Some?
    requires At(m, slot).value.path.closing
    ensures var row, row' := At(m, slot).value, At(Apply(select, dflt, m, op), slot).value;
      row'.path.closing && Delivered(row') == Delivered(row) + Direct(op, slot)
  {
    var row := At(m, slot).value;
    if op.OnPath? && op.slot == slot && op.act.PushTo? {
      RowAfter(select, dflt, m, op, slot);
      Associative(Flatten(row.path.sent), row.cache, [op.act.item]);
    } else if Meddles(op, slot) {
      RowAfter(select, dflt, m, op, slot);
    } else {
      StepDelivers(select, dflt, m, op, slot);
    }
  }

  ghost predicate StaysClosing<T, F>(row: Row<T, F>, x: seq<T>, row': Row<T, F>) {
    row.path.closing ==> row'.path.closing && Delivered(row') == Delivered(row) + x
  }

  ghost predicate IsClosingTrail<T, F>(rows: seq<Row<T, F>>, xs: seq<seq<T>>) {
    && |rows| == |xs| + 1
    && forall k :: 0 <= k < |xs| ==> StaysClosing(rows[k], xs[k], rows[k + 1])
  }

  lemma {:induction false} ClosingTrail<T, F>(rows: seq<Row<T, F>>, xs: seq<seq<T>>)
    requires IsClosingTrail(rows, xs) && rows[0].path.closing
    ensures rows[|xs|].path.closing && Delivered(rows[|xs|]) == Delivered(rows[0]) + Joined(xs)
  {
    if xs != [] {
      var n := |xs| - 1;
      ClosingTrail(rows[..n + 1], xs[..n]);
      assert StaysClosing(rows[n], xs[n], rows[n + 1]);
      Associative(Delivered(rows[0]), Joined(xs[..n]), xs[n]);
    }
  }

  lemma ClosingRunStep<T, F>(
      select: Select<F, T>, dflt: F, ms: seq<Manager<T, F>>, ops: seq<Op<T, F>>, k: nat, slot: nat)
    requires IsRun(select, dflt, ms, ops) && k < |ops|
    requires At(ms[k], slot).Some? && At(ms[k + 1], slot).Some?
    ensures StaysClosing(At(ms[k], slot).value, Direct(ops[k], slot), At(ms[k + 1], slot).value)
  {
    assert ms[k + 1] == Apply(select, dflt, ms[k], ops[k]);
    if At(ms[k], slot).value.path.closing {
      ClosingStep(select, dflt, ms[k], ops[k], slot);
    }
  }

  ghost function RowsOf<T, F>(ms: seq<Manager<T, F>>, slot: nat, i: nat, j: nat): (rows: seq<Row<T, F>>)
    requires i <= j < |ms| && forall k :: i <= k <= j ==> At(ms[k], slot).Some?
    ensures |rows| == j - i + 1
  {
    seq(j - i + 1, k requires 0 <= k <= j - i => At(ms[i + k], slot).value)
  }

  lemma ClosingRunTrail<T, F>(
      select: Select<F, T>, dflt: F, ms: seq<Manager<T, F>>, ops: seq<Op<T, F>>, i: nat, j: nat, slot: nat)
    requires IsRun(select, dflt, ms, ops) && i <= j < |ms| && forall k :: i <= k <= j ==> At(ms[k], slot).Some?
    ensures IsClosingTrail(RowsOf(ms, slot, i, j), DirectsOf(ops, slot, i, j))
  {
    var rows, xs := RowsOf(ms, slot, i, j), DirectsOf(ops, slot, i, j);
    forall k | 0 <= k < |xs| ensures StaysClosing(rows[k], xs[k], rows[k + 1]) {
      ClosingRunStep(select, dflt, ms, ops, i + k, slot);
    }
  }

  /**
   Once a path is closing it stays closing, and what it has received or will
   receive grows by the direct pushes to its slot and by nothing else.
   */
  lemma ClosingPathsGetDirectPushesOnly<T, F>(
      select: Select<F, T>, dflt: F, ms: seq<Manager<T, F>>, ops: seq<Op<T, F>>, i: nat, j: nat, slot: nat)
    requires IsRun(select, dflt, ms, ops) && i <= j < |ms| && forall k :: i <= k <= j ==> At(ms[k], slot).Some?
    requires At(ms[i], slot).value.path.closing
    ensures At(ms[j], slot).value.path.closing
    ensures Delivered(At(ms[j], slot).value)
         == Delivered(At(ms[i], slot).value) + Joined(DirectsOf(ops, slot, i, j))
  {
    ClosingRunTrail(select, dflt, ms, ops, i, j, slot);
    ClosingTrail(RowsOf(ms, slot, i, j), DirectsOf(ops, slot, i, j));
  }

  /** Over every run, the batches of every path carry the IDs 1, 2, 3, ... and credit is never overdrawn. */
  lemma BatchesAreNumbered<T, F>(
      select: Select<F, T>, dflt: F, ms: seq<Manager<T, F>>, ops: seq<Op<T, F>>, k: nat, slot: nat)
    requires IsRun(select, dflt, ms, ops) && k < |ms| && At(ms[k], slot).Some?
    ensures var p := At(ms[k], slot).value.path;
      && p.credit >= 0
      && p.nextId == |p.sent| + 1
      && forall i :: 0 <= i < |p.sent| ==> p.sent[i].id == i + 1
  {
    RunOk(select, dflt, ms, ops, k);
    assert Counted(At(ms[k], slot).value.path);
  }

  // -- buffering --------------------------------------------------------------

  function LargestBatch<T, F>(rows: seq<Row<T, F>>): int {
    if rows == [] then 1
    else
      var m, last := LargestBatch(rows[..|rows| - 1]), rows[|rows| - 1].path.batchSize;
      if m < last then last else m
  }

  /** The largest batch size that any sink asked for, and at least 1. */
  lemma {:induction false} LargestBatchIsLargest<T, F>(rows: seq<Row<T, F>>)
    ensures LargestBatch(rows) >= 1 && forall i :: 0 <= i < |rows| ==> rows[i].path.batchSize <= LargestBatch(rows)
    ensures LargestBatch(rows) == 1 || exists i :: 0 <= i < |rows| && rows[i].path.batchSize == LargestBatch(rows)
  {
    if rows != [] {
      LargestBatchIsLargest(rows[..|rows| - 1]);
    }
  }

  /** Largest cache of all paths. */
  ghost function MaxCache<T, F>(rows: seq<Row<T, F>>): nat {
    if rows == [] then 0 else
    var interim, k := MaxCache(rows[..|rows| - 1]), |rows[|rows| - 1].cache|;
    if interim < k then k else interim
  }

  ghost function Buffered<T, F>(m: Manager<T, F>): nat {
    |m.buf| + MaxCache(m.rows)
  }

  /** If no cache grew by more than `c`, neither did the largest one. */
  lemma {:induction false} MaxCacheGrows<T, F>(rows: seq<Row<T, F>>, rows': seq<Row<T, F>>, c: nat)
    requires |rows| == |rows'|
    requires forall i :: 0 <= i < |rows| ==> |rows'[i].cache| <= |rows[i].cache| + c
    ensures MaxCache(rows') <= MaxCache(rows) + c
  {
    if rows != [] {
      MaxCacheGrows(rows[..|rows| - 1], rows'[..|rows| - 1], c);
    }
  }

  lemma EmitRowCache<T, F>(select: Select<F, T>, chunk: seq<T>, force: bool, row: Row<T, F>)
    requires PathOk(row.path)
    ensures |EmitRow(select, chunk, force, row).cache| <= |row.cache| + |chunk|
  {
    var cache := if row.path.closing then row.cache else row.cache + Selected(select, row.filter, chunk);
    EmitShips(row.path, cache, force || row.path.closing);
  }

  /** An emit never leaves more buffered than before. */
  lemma EmitNeverBuffersMore<T, F>(select: Select<F, T>, m: Manager<T, F>, force: bool)
    requires ManagerOk(m)
    ensures Buffered(EmitBatches(select, m, force)) <= Buffered(m)
  {
    var m', chunk := EmitBatches(select, m, force), NextChunk(m);
    forall i | 0 <= i < |m.rows| ensures |m'.rows[i].cache| <= |m.rows[i].cache| + |chunk| {
      EmitRowCache(select, chunk, force, m.rows[i]);
    }
    MaxCacheGrows(m.rows, m'.rows, |chunk|);
  }

  /** A flush never leaves more buffered than before. */
  lemma FlushNeverBuffersMore<T, F>(select: Select<F, T>, m: Manager<T, F>)
    ensures Buffered(Flush(select, m)) <= Buffered(m)
  {
    MaxCacheGrows(m.rows, Flush(select, m).rows, |m.buf|);
  }

  /** Items leave the central buffer only if the credit of every open path covers them. */
  lemma ChunkFitsEveryOpenPath<T, F>(m: Manager<T, F>, i: nat)
    requires ManagerOk(m) && i < |m.rows| && !m.rows[i].path.closing && NextChunk(m) != []
    ensures |m.rows[i].cache| + |NextChunk(m)| <= m.rows[i].path.credit
  {
    ChunkSizeIsLeast(m.rows);
  }

  /** A forced emit that moved something empties the cache of every open path that is not pending. */
  lemma ForcedEmitDrains<T, F>(select: Select<F, T>, m: Manager<T, F>, i: nat)
    requires ManagerOk(m) && NextChunk(m) != []
    requires i < |m.rows| && !m.rows[i].path.closing && !m.rows[i].path.pending
    ensures EmitBatches(select, m, true).rows[i].cache == []
  {
    var row, chunk := m.rows[i], NextChunk(m);
    ChunkFitsEveryOpenPath(m, i);
    EmitShips(row.path, row.cache + Selected(select, row.filter, chunk), true);
  }
}
