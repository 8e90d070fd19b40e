/**
 One outbound path of a stream: credit, batch IDs and the batches that went out
 (libcaf_core/caf/outbound_path.hpp, libcaf_core/src/outbound_path.cpp).
 */
module OutboundPaths {
  import opened Basics

  const INT32_MAX: int := 0x7FFF_FFFF

  const MAX_BATCH_SIZE: int := 128 * 1024

  const DEFAULT_BATCH_SIZE: int := 50

  datatype Batch<T> = Batch(id: int, items: seq<T>)

  /** State of a path, with the log of the batches sent on it. */
  datatype Path<T> = Path(
    slot: nat,
    sink: nat,
    pending: bool,
    credit: int,
    batchSize: int,
    nextId: int,
    nextAck: int,
    closing: bool,
    sent: seq<Batch<T>>)

  ghost predicate PathOk<T>(p: Path<T>) {
    0 <= p.credit <= INT32_MAX && 0 < p.batchSize
  }

  function NewPath<T>(slot: nat, sink: nat): Path<T> {
    Path(slot, sink, true, 0, DEFAULT_BATCH_SIZE, 1, 1, false, [])
  }

  /** Everything that went out, in order. */
  function Flatten<T>(bs: seq<Batch<T>>): seq<T> {
    if bs == [] then [] else Flatten(bs[..|bs| - 1]) + bs[|bs| - 1].items
  }

  // -- emitting ---------------------------------------------------------------

  /** Sends one batch: credit shrinks by its size, the batch ID grows by one. */
  function EmitBatch<T>(p: Path<T>, xs: seq<T>): Path<T> {
    p.(credit := p.credit - |xs|, nextId := p.nextId + 1, sent := p.sent + [Batch(p.nextId, xs)])
  }

  /** Ships full batches from `xs`, then a final smaller one if forced; returns what is left. */
  function EmitAll<T>(p: Path<T>, xs: seq<T>, force: bool): (r: (Path<T>, seq<T>))
    requires p.batchSize > 0
    decreases |xs|
  {
    if |xs| >= p.batchSize then EmitAll(EmitBatch(p, xs[..p.batchSize]), xs[p.batchSize..], force)
    else if xs != [] && force then (EmitBatch(p, xs), [])
    else (p, xs)
  }

  /** Emits from a cache as far as credit allows; pending paths stay silent. */
  function Emit<T>(p: Path<T>, cache: seq<T>, force: bool): (r: (Path<T>, seq<T>))
    requires PathOk(p)
  {
    if p.pending then (p, cache) else
    var n := Min(p.credit, |cache|);
    if n == 0 then (p, cache) else
    var (p', rest) := EmitAll(p, cache[..n], force);
    (p', rest + cache[n..])
  }

  /** The sink's batch size; out-of-range wishes fall back to the maximum. */
  function SetBatchSize<T>(p: Path<T>, value: int): Path<T> {
    if value == p.batchSize then p
    else p.(batchSize := if value < 0 || value > MAX_BATCH_SIZE then MAX_BATCH_SIZE else value)
  }

  // -- what one emit promises -------------------------------------------------

  lemma FlattenSnoc<T>(bs: seq<Batch<T>>, b: Batch<T>)
    ensures Flatten(bs + [b]) == Flatten(bs) + b.items
  {
  }

  /** Batches `k..` of a log: consecutive IDs, all of size `size` except perhaps the last. */
  ghost predicate Numbered<T>(bs: seq<Batch<T>>, k: nat, id: int) {
    forall i :: k <= i < |bs| ==> bs[i].id == id + (i - k)
  }

  ghost predicate FullButLast<T>(bs: seq<Batch<T>>, k: nat, size: int, force: bool) {
    forall i :: k <= i < |bs| ==>
      || |bs[i].items| == size
      || (force && i == |bs| - 1 && 0 < |bs[i].items| < size)
  }

  /** What turns `p` into `q` while `used` items go out. */
  ghost predicate Shipped<T>(p: Path<T>, q: Path<T>, used: int, force: bool) {
    && p.sent <= q.sent
    && q == p.(credit := p.credit - used, nextId := p.nextId + |q.sent| - |p.sent|, sent := q.sent)
    && Numbered(q.sent, |p.sent|, p.nextId)
    && FullButLast(q.sent, |p.sent|, p.batchSize, force)
  }

  lemma ShippedAfterFull<T>(p: Path<T>, ys: seq<T>, q: Path<T>, used: int, force: bool)
    requires |ys| == p.batchSize && Shipped(EmitBatch(p, ys), q, used, force)
    ensures Shipped(p, q, used + |ys|, force)
  {
  }

  lemma {:induction false} EmitAllShips<T>(p: Path<T>, xs: seq<T>, force: bool)
    requires p.batchSize > 0
    ensures var (q, rest) := EmitAll(p, xs, force);
      && Shipped(p, q, |xs| - |rest|, force)
      && |rest| < p.batchSize && |rest| <= |xs|
      && (force ==> rest == [])
    decreases |xs|
  {
    if |xs| >= p.batchSize {
      var ys, tail := xs[..p.batchSize], xs[p.batchSize..];
      EmitAllShips(EmitBatch(p, ys), tail, force);
      var (q, rest) := EmitAll(EmitBatch(p, ys), tail, force);
      ShippedAfterFull(p, ys, q, |tail| - |rest|, force);
    }
  }

  lemma {:induction false} EmitAllKeeps<T>(p: Path<T>, xs: seq<T>, force: bool)
    requires p.batchSize > 0
    ensures var (q, rest) := EmitAll(p, xs, force); Flatten(q.sent) + rest == Flatten(p.sent) + xs
    decreases |xs|
  {
    if |xs| >= p.batchSize {
      var ys, tail := xs[..p.batchSize], xs[p.batchSize..];
      FlattenSnoc(p.sent, Batch(p.nextId, ys));
      EmitAllKeeps(EmitBatch(p, ys), tail, force);
      assert xs == ys + tail;
      assert Flatten(p.sent) + ys + tail == Flatten(p.sent) + xs;
    } else if xs != [] && force {
      FlattenSnoc(p.sent, Batch(p.nextId, xs));
    }
  }

  /**
   One emit: nothing is lost, reordered or duplicated; IDs are consecutive and
   batches full except for one forced last one; credit pays for every item and
   never goes negative. A forced emit ships all that credit allows, an unforced
   one keeps less than a batch of that back.
   */
  lemma EmitShips<T>(p: Path<T>, cache: seq<T>, force: bool)
    requires PathOk(p)
    ensures var (q, cache') := Emit(p, cache, force);
      && Flatten(q.sent) + cache' == Flatten(p.sent) + cache
      && Shipped(p, q, |cache| - |cache'|, force)
      && PathOk(q)
      && |cache'| <= |cache|
      && (p.pending ==> q == p && cache' == cache)
      && (!p.pending && force ==> |cache| - |cache'| == Min(p.credit, |cache|))
      && (!p.pending && !force ==> 0 <= Min(p.credit, |cache|) - (|cache| - |cache'|) < p.batchSize)
  {
    var n := Min(p.credit, |cache|);
    if !p.pending && n > 0 {
      EmitAllShips(p, cache[..n], force);
      EmitAllKeeps(p, cache[..n], force);
      var (q, rest) := EmitAll(p, cache[..n], force);
      Rejoin(Flatten(q.sent), rest, Flatten(p.sent), cache, n);
    }
  }

  lemma Rejoin<T>(sent': seq<T>, rest: seq<T>, sent: seq<T>, cache: seq<T>, n: nat)
    requires n <= |cache| && sent' + rest == sent + cache[..n]
    ensures sent' + (rest + cache[n..]) == sent + cache
  {
    assert cache == cache[..n] + cache[n..];
    Associative(sent', rest, cache[n..]);
    Associative(sent, cache[..n], cache[n..]);
  }
}
