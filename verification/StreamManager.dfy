/**
 Outbound paths and the broadcast manager as they run: objects that emit
 batches, move items between buffers, and come and go with their caches.
 */
module StreamManager {
  import opened Basics
  import P = OutboundPaths
  import B = Broadcast
  import R = BroadcastRuns

  class OutboundPath<T> {
    var slot: nat
    /** The actor that receives the batches. */
    var sink: nat
    /** Slot at the sink, 0 until the sink acknowledged the path. */
    var receiver: nat
    var nextBatchId: int
    var openCredit: int
    var desiredBatchSize: int
    var nextAckId: int
    var closing: bool
    /** Messages handed to the sink. */
    var sent: seq<P.Batch<T>>

    ghost function View(): P.Path<T>
      reads this
    {
      P.Path(slot, sink, receiver == 0, openCredit, desiredBatchSize, nextBatchId, nextAckId, closing, sent)
    }

    constructor (slot: nat, sink: nat)
      ensures View() == P.NewPath(slot, sink)
    {
      this.slot, this.sink, receiver := slot, sink, 0;
      nextBatchId, openCredit, desiredBatchSize := 1, 0, P.DEFAULT_BATCH_SIZE;
      nextAckId, closing, sent := 1, false, [];
    }

    method EmitBatch(xs: seq<T>)
      requires 0 < |xs| <= openCredit
      modifies this
      ensures View() == P.EmitBatch(old(View()), xs)
    {
      openCredit := openCredit - |xs|;
      sent := sent + [P.Batch(nextBatchId, xs)];
      nextBatchId := nextBatchId + 1;
    }

    /** Ships full batches, then an underfull one if forced; returns how many items went out. */
    method EmitBatchesImpl(xs: seq<T>, force: bool) returns (i: nat)
      requires desiredBatchSize > 0 && |xs| <= openCredit
      modifies this
      ensures i <= |xs|
      ensures P.EmitAll(old(View()), xs, force) == (View(), xs[i..])
    {
      i := 0;
      assert xs[0..] == xs;
      while |xs| - i >= desiredBatchSize
        invariant i <= |xs| && |xs| - i <= openCredit && desiredBatchSize == old(desiredBatchSize)
        invariant P.EmitAll(old(View()), xs, force) == P.EmitAll(View(), xs[i..], force)
      {
        var n := desiredBatchSize;
        assert xs[i..][..n] == xs[i..i + n] && xs[i..][n..] == xs[i + n..];
        EmitBatch(xs[i..i + n]);
        i := i + n;
      }
      if i != |xs| && force {
        EmitBatch(xs[i..]);
        i := |xs|;
        assert xs[i..] == [];
      }
    }

    /** Emits from the front of `cache` as far as credit allows and returns the rest. */
    method EmitBatches(cache: seq<T>, force: bool) returns (rest: seq<T>)
      requires P.PathOk(View())
      modifies this
      ensures P.Emit(old(View()), cache, force) == (View(), rest)
    {
      rest := cache;
      if receiver == 0 {
        return;
      }
      var last := Min(openCredit, |cache|);
      if last == 0 {
        return;
      }
      var i := EmitBatchesImpl(cache[..last], force);
      rest := cache[i..];
      assert cache[..last][i..] + cache[last..] == cache[i..];
    }

    /** The sink opens the path with its first credit. */
    method Open(receiver: nat, sink: nat, demand: int, size: int)
      requires receiver != 0
      modifies this
      ensures View() == P.SetBatchSize(old(View()).(sink := sink, pending := false, credit := demand), size)
    {
      if this.sink != sink {
        this.sink := sink;
      }
      this.receiver := receiver;
      openCredit := demand;
      SetDesiredBatchSize(size);
    }

    method SetDesiredBatchSize(value: int)
      modifies this
      ensures View() == P.SetBatchSize(old(View()), value)
    {
      if value != desiredBatchSize {
        desiredBatchSize := if value < 0 || value > P.MAX_BATCH_SIZE then P.MAX_BATCH_SIZE else value;
      }
    }
  }

  /** The cache of one path with its filter. */
  datatype PathState<T, F> = PathState(slot: nat, filter: F, buf: seq<T>)

  class BroadcastManager<T, F> {
    const select: B.Select<F, T>
    const dflt: F
    var buf: seq<T>
    var paths: seq<OutboundPath<T>>
    var states: seq<PathState<T, F>>

    /** Both lists hold the same slots in the same order. */
    ghost predicate Aligned()
      reads this`paths, this`states, paths
    {
      && |paths| == |states|
      && (forall i :: 0 <= i < |paths| ==> paths[i].slot == states[i].slot)
      && (forall i, j :: 0 <= i < j < |paths| ==> paths[i] != paths[j])
    }

    ghost function RowAt(i: nat): B.Row<T, F>
      requires i < |paths| && i < |states|
      reads this`paths, this`states, paths
    {
      B.Row(paths[i].View(), states[i].filter, states[i].buf)
    }

    ghost function Rows(n: nat): (rows: seq<B.Row<T, F>>)
      requires n <= |paths| == |states|
      reads this`paths, this`states, paths
      ensures |rows| == n
      ensures forall i :: 0 <= i < n ==> rows[i] == RowAt(i)
    {
      if n == 0 then [] else Rows(n - 1) + [RowAt(n - 1)]
    }

    ghost function Model(): B.Manager<T, F>
      requires Aligned()
      reads this, paths
    {
      B.Manager(buf, Rows(|paths|))
    }

    ghost predicate Valid()
      reads this, paths
    {
      Aligned() && B.ManagerOk(Model())
    }

    /** An object that shows the result of an operation is valid again. */
    lemma StaysValid(m: B.Manager<T, F>, op: B.Op<T, F>)
      requires B.ManagerOk(m) && B.OpOk(m, op)
      requires Aligned() && Model() == B.Apply(select, dflt, m, op)
      ensures Valid()
    {
      R.ManagerOkNext(select, dflt, m, op);
    }

    constructor (select: B.Select<F, T>, dflt: F)
      ensures Valid() && Model() == B.Manager([], [])
      ensures this.select == select && this.dflt == dflt
    {
      this.select, this.dflt := select, dflt;
      buf, paths, states := [], [], [];
    }

    method Push(x: T)
      requires Valid()
      modifies this`buf
      ensures Valid() && Model() == B.Apply(select, dflt, old(Model()), B.Push(x))
    {
      ghost var m := Model();
      buf := buf + [x];
      assert Rows(|paths|) == old(Rows(|paths|));
      StaysValid(m, B.Push(x));
    }

    /** Looks up a slot; both lists answer alike. */
    method FindSlot(slot: nat) returns (i: nat)
      requires Valid()
      ensures i == B.Find(Model().rows, slot)
    {
      ghost var rows := Model().rows;
      i := 0;
      while i < |paths| && paths[i].slot != slot
        invariant i <= |paths|
        invariant forall j :: 0 <= j < i ==> rows[j].path.slot != slot
      {
        assert rows[i] == RowAt(i);
        i := i + 1;
      }
      assert i < |paths| ==> rows[i] == RowAt(i);
    }

    /** Central buffer plus the largest cache. */
    method BufferedTotal() returns (n: nat)
      requires Valid()
      ensures n == R.Buffered(Model())
    {
      var largest := 0;
      ghost var rows := Model().rows;
      for i := 0 to |states|
        invariant largest == R.MaxCache(rows[..i])
      {
        assert rows[i] == RowAt(i) && rows[..i + 1][..i] == rows[..i];
        if largest < |states[i].buf| {
          largest := |states[i].buf|;
        }
      }
      assert rows[..|states|] == rows;
      n := |buf| + largest;
    }

    method LargestDesired() returns (desired: int)
      requires Valid()
      ensures desired == R.LargestBatch(Model().rows)
    {
      desired := 1;
      ghost var rows := Model().rows;
      for i := 0 to |paths|
        invariant desired == R.LargestBatch(rows[..i])
      {
        assert rows[i] == RowAt(i) && rows[..i + 1][..i] == rows[..i];
        if desired < paths[i].desiredBatchSize {
          desired := paths[i].desiredBatchSize;
        }
      }
      assert rows[..|paths|] == rows;
    }

    /** Room left when aiming at two batches of the largest size any sink asked for. */
    method Capacity() returns (n: nat)
      requires Valid()
      ensures var desired, stored := 2 * R.LargestBatch(Model().rows), R.Buffered(Model());
        n == if desired > stored then desired - stored else 0
    {
      var desired := LargestDesired();
      desired := desired * 2;
      var stored := BufferedTotal();
      n := if desired > stored then desired - stored else 0;
    }

    /** Replaces filter and cache of the path at position `i`. */
    method SetState(i: nat, filter: F, items: seq<T>)
      requires Aligned() && i < |states|
      modifies this`states
      ensures Aligned()
      ensures Model() == var m := old(Model()); m.(rows := m.rows[i := B.Row(m.rows[i].path, filter, items)])
    {
      states := states[i := PathState(states[i].slot, filter, items)];
      assert forall k :: 0 <= k < |paths| && k != i ==> RowAt(k) == old(RowAt(k));
      assert Model().rows == old(Model()).rows[i := RowAt(i)];
    }

    method PushTo(slot: nat, x: T) returns (ok: bool)
      requires Valid()
      modifies this`states
      ensures Valid() && Model() == B.Apply(select, dflt, old(Model()), B.OnPath(slot, B.PushTo(x)))
      ensures ok <==> B.Find(old(Model()).rows, slot) < |old(Model()).rows|
    {
      ghost var m := Model();
      var i := FindSlot(slot);
      ok := i < |states|;
      if ok {
        SetState(i, states[i].filter, states[i].buf + [x]);
      }
      StaysValid(m, B.OnPath(slot, B.PushTo(x)));
    }

    method SetFilter(slot: nat, filter: F) returns (ok: bool)
      requires Valid()
      modifies this`states
      ensures Valid() && Model() == B.Apply(select, dflt, old(Model()), B.OnPath(slot, B.SetFilter(filter)))
      ensures ok <==> B.Find(old(Model()).rows, slot) < |old(Model()).rows|
    {
      ghost var m := Model();
      var i := FindSlot(slot);
      ok := i < |states|;
      if ok {
        SetState(i, filter, states[i].buf);
      }
      StaysValid(m, B.OnPath(slot, B.SetFilter(filter)));
    }

    // -- paths come and go ----------------------------------------------------

    /** Adds a path and its cache, unless the slot is in use. */
    method InsertPath(slot: nat, sink: nat) returns (ok: bool)
      requires Valid()
      modifies this`paths, this`states
      ensures Valid() && Model() == B.Apply(select, dflt, old(Model()), B.Insert(slot, sink))
      ensures ok <==> B.Find(old(Model()).rows, slot) == |old(Model()).rows|
      ensures forall p :: p in paths ==> p in old(paths) || fresh(p)
    {
      ghost var m := Model();
      var i := FindSlot(slot);
      ok := i == |paths|;
      if ok {
        AppendPath(slot, sink);
      }
      StaysValid(m, B.Insert(slot, sink));
    }

    method AppendPath(slot: nat, sink: nat)
      requires Aligned()
      modifies this`paths, this`states
      ensures Aligned()
      ensures Model() == var m := old(Model()); m.(rows := m.rows + [B.Row(P.NewPath(slot, sink), dflt, [])])
      ensures forall p :: p in paths ==> p in old(paths) || fresh(p)
    {
      ghost var rows, n := Model().rows, |paths|;
      var p := new OutboundPath<T>(slot, sink);
      paths := paths + [p];
      states := states + [PathState(slot, dflt, [])];
      assert forall k :: 0 <= k < n ==> paths[k] == old(paths)[k] && RowAt(k) == rows[k];
      assert Model().rows == rows + [RowAt(n)];
    }

    /** Drops a path together with its cache. */
    method RemovePath(slot: nat) returns (ok: bool)
      requires Valid()
      modifies this`paths, this`states
      ensures Valid() && Model() == B.Apply(select, dflt, old(Model()), B.OnPath(slot, B.Remove))
      ensures ok <==> B.Find(old(Model()).rows, slot) < |old(Model()).rows|
      ensures forall p :: p in paths ==> p in old(paths)
    {
      ghost var m := Model();
      var i := FindSlot(slot);
      ok := i < |paths|;
      if ok {
        EraseAt(i);
      }
      StaysValid(m, B.OnPath(slot, B.Remove));
    }

    method EraseAt(i: nat)
      requires Aligned() && i < |paths|
      modifies this`paths, this`states
      ensures Aligned()
      ensures Model() == var m := old(Model()); m.(rows := Without(m.rows, i))
      ensures forall p :: p in paths ==> p in old(paths)
    {
      ghost var rows := Model().rows;
      states := Without(states, i);
      paths := Without(paths, i);
      assert forall k :: 0 <= k < |paths| ==>
        paths[k] == old(paths)[if k < i then k else k + 1] && RowAt(k) == rows[if k < i then k else k + 1];
      assert Model().rows == Without(rows, i);
    }

    /** Closes a path: at once if it is clean, otherwise after its last acknowledgement. */
    method Close(slot: nat)
      requires Valid()
      modifies this`paths, this`states, paths
      ensures Valid() && Model() == B.Apply(select, dflt, old(Model()), B.OnPath(slot, B.Close))
      ensures forall p :: p in paths ==> p in old(paths)
    {
      var i := FindSlot(slot);
      ghost var m := Model();
      assert B.Apply(select, dflt, m, B.OnPath(slot, B.Close)) == if i < |m.rows| then B.ApplyAt(m, i, B.Close) else m;
      if i < |paths| {
        CloseAt(i);
      }
      StaysValid(m, B.OnPath(slot, B.Close));
    }

    method CloseAt(i: nat)
      requires Aligned() && i < |paths|
      modifies this`paths, this`states, paths
      ensures Aligned() && Model() == B.ApplyAt(old(Model()), i, B.Close)
      ensures forall p :: p in paths ==> p in old(paths)
    {
      assert Model().rows[i] == RowAt(i);
      if |states[i].buf| == 0 && paths[i].nextBatchId == paths[i].nextAckId {
        EraseAt(i);
      } else {
        ghost var rows := Model().rows;
        paths[i].closing := true;
        assert forall k :: 0 <= k < |paths| && k != i ==> RowAt(k) == rows[k];
        assert Model().rows == rows[i := RowAt(i)];
      }
    }

    // -- acknowledgements -----------------------------------------------------

    /**
     The sink accepts the path and may name another actor to take its place.
     Unknown slots, repeated handshakes and handshakes by strangers are refused.
     */
    method AckOpen(slot: nat, receiver: nat, from: nat, to: nat, demand: int, size: int) returns (ok: bool)
      requires Valid() && receiver != 0 && 0 <= demand <= P.INT32_MAX && size > 0
      modifies paths
      ensures Valid() && Model() == B.Apply(select, dflt, old(Model()), B.OnPath(slot, B.AckOpen(from, to, demand, size)))
      ensures var rows := old(Model()).rows;
        ok <==>
          && B.Find(rows, slot) < |rows|
          && rows[B.Find(rows, slot)].path.pending && rows[B.Find(rows, slot)].path.sink == from
    {
      ghost var m := Model();
      var i := FindSlot(slot);
      ok := i < |paths| && paths[i].receiver == 0 && paths[i].sink == from;
      assert i < |paths| ==> m.rows[i] == RowAt(i);
      if i < |paths| {
        AckOpenAt(i, receiver, from, to, demand, size);
      }
      StaysValid(m, B.OnPath(slot, B.AckOpen(from, to, demand, size)));
    }

    method AckOpenAt(i: nat, receiver: nat, from: nat, to: nat, demand: int, size: int)
      requires Aligned() && i < |paths| && receiver != 0
      modifies paths[i]
      ensures Aligned() && Model() == B.ApplyAt(old(Model()), i, B.AckOpen(from, to, demand, size))
    {
      ghost var rows := Model().rows;
      assert rows[i] == RowAt(i);
      if paths[i].receiver == 0 && paths[i].sink == from {
        paths[i].Open(receiver, to, demand, size);
      }
      assert forall k :: 0 <= k < |paths| && k != i ==> RowAt(k) == rows[k];
      assert Model().rows == rows[i := RowAt(i)];
    }

    /** The sink grants credit; a closing path goes with its final acknowledgement. */
    method AckBatch(slot: nat, capacity: int, size: int, ackId: int)
      requires Valid() && B.OpOk(Model(), B.OnPath(slot, B.AckBatch(capacity, size, ackId)))
      modifies this`paths, this`states, paths
      ensures Valid() && Model() == B.Apply(select, dflt, old(Model()), B.OnPath(slot, B.AckBatch(capacity, size, ackId)))
      ensures forall p :: p in paths ==> p in old(paths)
    {
      ghost var m := Model();
      var i := FindSlot(slot);
      if i < |paths| {
        AckBatchAt(i, capacity, size, ackId);
      }
      StaysValid(m, B.OnPath(slot, B.AckBatch(capacity, size, ackId)));
    }

    method Credit(i: nat, capacity: int, size: int, ackId: int)
      requires Aligned() && i < |paths|
      modifies paths[i]
      ensures Aligned()
      ensures Model() == var m := old(Model()); var p := m.rows[i].path;
        m.(rows := m.rows[i := m.rows[i].(path :=
          P.SetBatchSize(p.(credit := p.credit + capacity), size).(nextAck := ackId + 1))])
    {
      ghost var rows := Model().rows;
      assert rows[i] == RowAt(i);
      paths[i].openCredit := paths[i].openCredit + capacity;
      paths[i].SetDesiredBatchSize(size);
      paths[i].nextAckId := ackId + 1;
      assert forall k :: 0 <= k < |paths| && k != i ==> RowAt(k) == rows[k];
      assert Model().rows == rows[i := RowAt(i)];
    }

    method AckBatchAt(i: nat, capacity: int, size: int, ackId: int)
      requires Aligned() && i < |paths|
      modifies this`paths, this`states, paths
      ensures Aligned() && Model() == B.ApplyAt(old(Model()), i, B.AckBatch(capacity, size, ackId))
      ensures forall p :: p in paths ==> p in old(paths)
    {
      assert Model().rows[i] == RowAt(i);
      Credit(i, capacity, size, ackId);
      assert Model().rows[i] == RowAt(i);
      if paths[i].closing && |states[i].buf| == 0 && paths[i].nextBatchId == paths[i].nextAckId {
        EraseAt(i);
      }
    }

    // -- moving items ---------------------------------------------------------

    /** Appends the pieces that pass the filter. */
    method SelectInto(filter: F, cache: seq<T>, pieces: seq<T>) returns (r: seq<T>)
      ensures r == cache + B.Selected(select, filter, pieces)
    {
      r := cache;
      assert pieces[0..] == pieces;
      for i := 0 to |pieces|
        invariant r + B.Selected(select, filter, pieces[i..]) == cache + B.Selected(select, filter, pieces)
      {
        assert pieces[i..][1..] == pieces[i + 1..];
        ghost var rest := B.Selected(select, filter, pieces[i + 1..]);
        if select(filter, pieces[i]) {
          assert r + ([pieces[i]] + rest) == (r + [pieces[i]]) + rest;
          r := r + [pieces[i]];
        }
      }
    }

    lemma RowsAre(rows: seq<B.Row<T, F>>)
      requires Aligned() && |rows| == |paths| && forall k :: 0 <= k < |rows| ==> RowAt(k) == rows[k]
      ensures Model() == B.Manager(buf, rows)
    {
    }

    /** Copies the selected pieces into the caches of all open paths. */
    method FlushRows(pieces: seq<T>)
      requires Aligned()
      modifies this`states
      ensures Aligned()
      ensures forall k :: 0 <= k < |paths| ==> RowAt(k) == B.FlushRow(select, pieces, old(RowAt(k)))
    {
      for i := 0 to |paths|
        invariant Aligned()
        invariant forall k :: 0 <= k < i ==> RowAt(k) == B.FlushRow(select, pieces, old(RowAt(k)))
        invariant forall k :: i <= k < |paths| ==> states[k] == old(states[k])
      {
        if !paths[i].closing {
          var cache := SelectInto(states[i].filter, states[i].buf, pieces);
          states := states[i := states[i].(buf := cache)];
        }
      }
    }

    /** Moves the central buffer into the caches of all open paths. */
    method FanOutFlush()
      requires Valid()
      modifies this`buf, this`states
      ensures Valid() && Model() == B.Apply(select, dflt, old(Model()), B.FanOutFlush)
      ensures R.Buffered(Model()) <= old(R.Buffered(Model()))
    {
      ghost var m := Model();
      R.FlushNeverBuffersMore(select, m);
      ghost var m' := B.Apply(select, dflt, m, B.FanOutFlush);
      FlushRows(buf);
      buf := [];
      RowsAre(m'.rows);
      StaysValid(m, B.FanOutFlush);
    }

    /** Emits on one path, after handing it its share of the chunk. */
    method EmitAt(i: nat, chunk: seq<T>, force: bool)
      requires Aligned() && i < |paths| && P.PathOk(paths[i].View())
      modifies paths[i], this`states
      ensures Aligned()
      ensures RowAt(i) == B.EmitRow(select, chunk, force, old(RowAt(i)))
      ensures forall k :: 0 <= k < |paths| && k != i ==> RowAt(k) == old(RowAt(k))
    {
      var p, cache := paths[i], states[i].buf;
      if !p.closing {
        cache := SelectInto(states[i].filter, cache, chunk);
      }
      R.EmitRowFixed(select, chunk, force, RowAt(i));
      var rest := p.EmitBatches(cache, force || p.closing);
      states := states[i := states[i].(buf := rest)];
    }

    method EmitRows(chunk: seq<T>, force: bool)
      requires Aligned() && forall i :: 0 <= i < |paths| ==> P.PathOk(RowAt(i).path)
      modifies paths, this`states
      ensures Aligned()
      ensures forall k :: 0 <= k < |paths| ==> RowAt(k) == B.EmitRow(select, chunk, force, old(RowAt(k)))
    {
      for i := 0 to |paths|
        invariant Aligned()
        invariant forall k :: 0 <= k < i ==> RowAt(k) == B.EmitRow(select, chunk, force, old(RowAt(k)))
        invariant forall k :: i <= k < |paths| ==> RowAt(k) == old(RowAt(k))
      {
        assert RowAt(i) == old(RowAt(i));
        EmitAt(i, chunk, force);
      }
    }

    /** Least room of all open paths; the largest size if all paths are closing. */
    method MinRoom(ghost rows: seq<B.Row<T, F>>) returns (n: int)
      requires Aligned() && |rows| == |paths| && forall k :: 0 <= k < |rows| ==> RowAt(k) == rows[k]
      ensures n == B.ChunkSize(rows)
    {
      n := B.SIZE_MAX;
      for i := 0 to |paths|
        invariant n == B.ChunkSize(rows[..i])
      {
        assert rows[i] == RowAt(i) && rows[..i + 1][..i] == rows[..i];
        if !paths[i].closing {
          var credit, size := paths[i].openCredit, |states[i].buf|;
          n := Min(n, if credit > size then credit - size else 0);
        }
      }
      assert rows[..|paths|] == rows;
    }

    /** Takes up to `n` items from the front of the central buffer. */
    method GetChunk(n: int) returns (chunk: seq<T>)
      requires n >= 0
      modifies this`buf
      ensures chunk == B.Chunk(old(buf), n) && buf == old(buf)[|chunk|..]
    {
      chunk := if n < |buf| then buf[..n] else buf;
      buf := buf[|chunk|..];
    }

    /** Moves as much as all open paths can take and lets every path emit. */
    method EmitBatches(force: bool)
      requires Valid()
      modifies this`buf, this`states, paths
      ensures Valid() && Model() == B.Apply(select, dflt, old(Model()), B.EmitNow(force))
      ensures R.Buffered(Model()) <= old(R.Buffered(Model()))
    {
      ghost var m := Model();
      R.EmitNeverBuffersMore(select, m, force);
      ghost var m' := B.Apply(select, dflt, m, B.EmitNow(force));
      assert forall k :: 0 <= k < |paths| ==> RowAt(k) == m.rows[k];
      EmitChunk(force, m);
      RowsAre(m'.rows);
      StaysValid(m, B.EmitNow(force));
    }

    method EmitChunk(force: bool, ghost m: B.Manager<T, F>)
      requires Aligned() && B.ManagerOk(m) && buf == m.buf && |paths| == |m.rows|
      requires forall k :: 0 <= k < |paths| ==> RowAt(k) == m.rows[k]
      modifies this`buf, this`states, paths
      ensures Aligned() && buf == m.buf[|B.NextChunk(m)|..]
      ensures forall k :: 0 <= k < |paths| ==> RowAt(k) == B.EmitRow(select, B.NextChunk(m), force, m.rows[k])
    {
      B.AllClosing(select, m, force);
      assert forall k :: 0 <= k < |paths| ==> P.PathOk(RowAt(k).path);
      var n := MinRoom(m.rows);
      if n == B.SIZE_MAX {
        EmitRows([], true);
      } else {
        var chunk := GetChunk(n);
        EmitRows(chunk, force);
      }
    }
  }
}
