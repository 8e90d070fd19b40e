/**
 The recursive matcher behind `interface_mismatch_t`
 (libcaf_core/caf/interface_mismatch.hpp).

 It compares the clauses an actor offers with the clauses an interface expects,
 regardless of order. `T` stands for the types that appear in signatures.
 */
module InterfaceMatch {

  datatype Clause<T> =
    | Handler(out: T, ins: seq<T>)
    | Timeout(body: T)

  /** The `value`, `xs` and `ys` members, or no specialization that fits. */
  datatype Outcome<T> =
    | Found(value: int, xs: seq<Clause<T>>, ys: seq<Clause<T>>)
    | IllFormed

  predicate Unary<T>(c: Clause<T>) {
    c.Handler? && |c.ins| == 1
  }

  /** The specializations in order of precedence: the more specialized first. */
  function Match<T(==)>(pos: nat, xs: seq<Clause<T>>, ys: seq<Clause<T>>, zs: seq<Clause<T>>): Outcome<T>
    decreases |xs|, |ys|
  {
    if xs == [] && ys == [] && zs == [] then
      Found(pos, [], [])
    else if |xs| == 1 && xs[0].Timeout? && ys == [] && zs == [] then
      Found(pos + 1, [], [])
    else if xs == [] && ys != [] && Unary(ys[0]) && zs == [] then
      Found(-1, [], ys)
    else if xs != [] && Unary(xs[0]) && ys == [] && zs == [] then
      Found(-2, xs, [])
    else if |xs| == 1 && xs[0].Timeout? && ys != [] && zs == [] then
      Found(-2, [], ys)
    else if xs != [] && ys != [] && xs[0].Handler? && ys[0] == xs[0] then
      Match(pos + 1, xs[1..], zs + ys[1..], [])
    else if xs != [] && ys != [] && xs[0].Handler? && ys[0].Handler? then
      Match(pos, xs, ys[1..], zs + [ys[0]])
    else if xs != [] && ys == [] then
      Found(pos, xs, zs)
    else
      IllFormed
  }

  /** `interface_mismatch_t<Found, Expected>` */
  function Mismatch<T(==)>(found: seq<Clause<T>>, expected: seq<Clause<T>>): Outcome<T> {
    Match(0, found, expected, [])
  }

  predicate Handlers<T>(cs: seq<Clause<T>>) {
    forall i :: 0 <= i < |cs| ==> cs[i].Handler?
  }

  // -- one round: looking for the first clause of xs in ys --------------------

  function RemoveFirst<E(==)>(ys: seq<E>, x: E): seq<E> {
    if ys == [] then []
    else if ys[0] == x then ys[1..]
    else [ys[0]] + RemoveFirst(ys[1..], x)
  }

  lemma {:induction false} RemovesOne<E>(ys: seq<E>, x: E)
    ensures multiset(RemoveFirst(ys, x)) == multiset(ys) - multiset{x}
  {
    if ys != [] {
      assert ys == [ys[0]] + ys[1..];
      RemovesOne(ys[1..], x);
    }
  }

  lemma {:induction false} RemovesHandler<T>(ys: seq<Clause<T>>, x: Clause<T>)
    requires Handlers(ys)
    ensures Handlers(RemoveFirst(ys, x))
  {
    if ys != [] {
      RemovesHandler(ys[1..], x);
    }
  }

  lemma MatchHere<T>(pos: nat, xs: seq<Clause<T>>, ys: seq<Clause<T>>, zs: seq<Clause<T>>)
    requires xs != [] && xs[0].Handler? && ys != [] && ys[0] == xs[0]
    ensures Match(pos, xs, ys, zs) == Match(pos + 1, xs[1..], zs + ys[1..], [])
  {
  }

  lemma MatchLater<T>(pos: nat, xs: seq<Clause<T>>, ys: seq<Clause<T>>, zs: seq<Clause<T>>)
    requires xs != [] && xs[0].Handler? && ys != [] && ys[0].Handler? && ys[0] != xs[0]
    ensures Match(pos, xs, ys, zs) == Match(pos, xs, ys[1..], zs + [ys[0]])
  {
  }

  /** The scan removes the first equal clause. */
  lemma {:induction false} ScanHit<T>(pos: nat, xs: seq<Clause<T>>, ys: seq<Clause<T>>, zs: seq<Clause<T>>)
    requires xs != [] && xs[0].Handler? && Handlers(ys) && xs[0] in ys
    ensures Match(pos, xs, ys, zs) == Match(pos + 1, xs[1..], zs + RemoveFirst(ys, xs[0]), [])
    decreases |ys|
  {
    if ys[0] == xs[0] {
      MatchHere(pos, xs, ys, zs);
    } else {
      MatchLater(pos, xs, ys, zs);
      ScanHit(pos, xs, ys[1..], zs + [ys[0]]);
      assert zs + [ys[0]] + RemoveFirst(ys[1..], xs[0]) == zs + RemoveFirst(ys, xs[0]);
    }
  }

  /** Without an equal clause it stops at the current position. */
  lemma {:induction false} ScanMiss<T>(pos: nat, xs: seq<Clause<T>>, ys: seq<Clause<T>>, zs: seq<Clause<T>>)
    requires xs != [] && xs[0].Handler? && Handlers(ys) && xs[0] !in ys && zs + ys != []
    ensures Match(pos, xs, ys, zs) == Found(pos, xs, zs + ys)
    decreases |ys|
  {
    if ys == [] {
      assert zs + ys == zs;
    } else {
      MatchLater(pos, xs, ys, zs);
      assert zs + [ys[0]] + ys[1..] == zs + ys;
      ScanMiss(pos, xs, ys[1..], zs + [ys[0]]);
    }
  }

  // -- all rounds -------------------------------------------------------------

  /** What is left of the expected clauses after taking out the first `k` offered ones. */
  function Left<E(==)>(xs: seq<E>, ys: seq<E>, k: nat): seq<E>
    requires k <= |xs|
  {
    if k == 0 then ys else RemoveFirst(Left(xs, ys, k - 1), xs[k - 1])
  }

  /** The first `k` offered clauses can be paired with expected clauses. */
  ghost predicate Covered<E>(xs: seq<E>, ys: seq<E>, k: nat)
    requires k <= |xs|
  {
    multiset(xs[..k]) <= multiset(ys)
  }

  lemma {:induction false} LeftOver<E>(xs: seq<E>, ys: seq<E>, k: nat)
    requires k <= |xs|
    ensures multiset(Left(xs, ys, k)) == multiset(ys) - multiset(xs[..k])
  {
    if k > 0 {
      LeftOver(xs, ys, k - 1);
      RemovesOne(Left(xs, ys, k - 1), xs[k - 1]);
      LastOf(xs, k);
      TakenAway(multiset(ys), multiset(xs[..k - 1]), xs[k - 1], multiset(xs[..k]));
    } else {
      NothingTaken(xs, ys);
    }
  }

  lemma TakenAway<E>(y: multiset<E>, p: multiset<E>, x: E, q: multiset<E>)
    requires q == p + multiset{x}
    ensures y - p - multiset{x} == y - q
  {
  }

  lemma LastOf<E>(xs: seq<E>, k: nat)
    requires 0 < k <= |xs|
    ensures multiset(xs[..k]) == multiset(xs[..k - 1]) + multiset{xs[k - 1]}
  {
    assert xs[..k] == xs[..k - 1] + [xs[k - 1]];
  }

  lemma NothingTaken<E>(xs: seq<E>, ys: seq<E>)
    ensures multiset(ys) == multiset(ys) - multiset(xs[..0])
  {
  }

  lemma {:induction false} LeftHandlers<T>(xs: seq<Clause<T>>, ys: seq<Clause<T>>, k: nat)
    requires k <= |xs| && Handlers(ys)
    ensures Handlers(Left(xs, ys, k))
  {
    if k > 0 {
      LeftHandlers(xs, ys, k - 1);
      RemovesHandler(Left(xs, ys, k - 1), xs[k - 1]);
    }
  }

  /** Clause `k` still finds a partner exactly when the longer prefix is covered too. */
  lemma NextCovered<E>(xs: seq<E>, ys: seq<E>, k: nat)
    requires k < |xs| && Covered(xs, ys, k)
    ensures xs[k] in Left(xs, ys, k) <==> Covered(xs, ys, k + 1)
  {
    LeftOver(xs, ys, k);
    assert xs[..k + 1] == xs[..k] + [xs[k]];
    assert xs[k] in Left(xs, ys, k) <==> xs[k] in multiset(Left(xs, ys, k));
    OneMore(multiset(xs[..k]), multiset(ys), xs[k]);
  }

  lemma OneMore<T>(p: multiset<T>, y: multiset<T>, x: T)
    requires p <= y
    ensures x in y - p <==> p + multiset{x} <= y
  {
  }

  lemma CoveredBefore<E>(xs: seq<E>, ys: seq<E>, j: nat, k: nat)
    requires j <= k <= |xs| && Covered(xs, ys, k)
    ensures Covered(xs, ys, j)
  {
    assert xs[..k] == xs[..j] + xs[j..k];
  }

  /** Covered prefixes are consumed clause by clause. */
  lemma {:induction false} Consumes<T>(xs: seq<Clause<T>>, tail: seq<Clause<T>>, ys: seq<Clause<T>>, k: nat)
    requires k <= |xs| && Handlers(xs) && Handlers(ys) && Covered(xs, ys, k)
    ensures Mismatch(xs + tail, ys) == Match(k, xs[k..] + tail, Left(xs, ys, k), [])
  {
    if k == 0 {
      assert xs[0..] == xs;
    } else {
      CoveredBefore(xs, ys, k - 1, k);
      Consumes(xs, tail, ys, k - 1);
      NextCovered(xs, ys, k - 1);
      LeftHandlers(xs, ys, k - 1);
      ConsumesOne(k - 1, xs, tail, Left(xs, ys, k - 1));
    }
  }

  lemma ConsumesOne<T>(k: nat, xs: seq<Clause<T>>, tail: seq<Clause<T>>, ys: seq<Clause<T>>)
    requires k < |xs| && Handlers(xs) && Handlers(ys) && xs[k] in ys
    ensures Match(k, xs[k..] + tail, ys, []) == Match(k + 1, xs[k + 1..] + tail, RemoveFirst(ys, xs[k]), [])
  {
    var rest := xs[k..] + tail;
    assert rest[0] == xs[k] && rest[1..] == xs[k + 1..] + tail;
    ScanHit(k, rest, ys, []);
    assert [] + RemoveFirst(ys, xs[k]) == RemoveFirst(ys, xs[k]);
  }

  // -- what the result says ---------------------------------------------------

  /** The first offered clause without a partner, if any; otherwise the number of clauses. */
  ghost predicate FirstExcess<E>(xs: seq<E>, ys: seq<E>, k: nat) {
    && k <= |xs|
    && Covered(xs, ys, k)
    && (k < |xs| ==> !Covered(xs, ys, k + 1))
  }

  lemma LeftEmpty<E>(xs: seq<E>, ys: seq<E>, k: nat)
    requires k <= |xs| && Covered(xs, ys, k)
    ensures |Left(xs, ys, k)| == |ys| - k
  {
    LeftOver(xs, ys, k);
    assert |multiset(Left(xs, ys, k))| == |Left(xs, ys, k)| && |multiset(xs[..k])| == k;
    assert multiset(ys) - multiset(xs[..k]) + multiset(xs[..k]) == multiset(ys);
  }

  /**
   A clause that cannot be paired stops the matcher at its index. Only when the
   expected clauses are used up by then, and the clause takes a single input,
   is the answer -2 instead.
   */
  lemma StopsAtFirstExcess<T>(xs: seq<Clause<T>>, tail: seq<Clause<T>>, ys: seq<Clause<T>>, k: nat)
    requires Handlers(xs) && Handlers(ys) && FirstExcess(xs, ys, k) && k < |xs|
    ensures Mismatch(xs + tail, ys)
         == Found(if k == |ys| && Unary(xs[k]) then -2 else k, xs[k..] + tail, Left(xs, ys, k))
  {
    Consumes(xs, tail, ys, k);
    NextCovered(xs, ys, k);
    LeftHandlers(xs, ys, k);
    LeftEmpty(xs, ys, k);
    var rest, left := xs[k..] + tail, Left(xs, ys, k);
    assert rest[0] == xs[k];
    if left != [] {
      ScanMiss(k, rest, left, []);
      assert [] + left == left;
    }
  }

  /** All offered clauses find a partner; what remains of both lists decides. */
  lemma EndsAfterLastClause<T>(xs: seq<Clause<T>>, tail: seq<Clause<T>>, ys: seq<Clause<T>>)
    requires Handlers(xs) && Handlers(ys) && Covered(xs, ys, |xs|)
    requires tail == [] || (|tail| == 1 && tail[0].Timeout?)
    ensures var left := Left(xs, ys, |xs|);
      Mismatch(xs + tail, ys)
      == if left == [] then Found(|xs + tail|, [], [])
         else if tail != [] then Found(-2, [], left)
         else if Unary(left[0]) then Found(-1, [], left)
         else IllFormed
  {
    Consumes(xs, tail, ys, |xs|);
    assert xs[|xs|..] + tail == tail;
  }

  /** One prefix is the longest that is covered. */
  lemma {:induction false} FindExcess<E>(xs: seq<E>, ys: seq<E>, j: nat) returns (k: nat)
    requires j <= |xs| && Covered(xs, ys, j)
    ensures FirstExcess(xs, ys, k)
    decreases |xs| - j
  {
    if j == |xs| || !Covered(xs, ys, j + 1) {
      k := j;
    } else {
      k := FindExcess(xs, ys, j + 1);
    }
  }

  /**
   The matcher reports success, the length of the offered list, exactly when the
   offered handlers are a permutation of the expected ones. A timeout at the end
   of the offered list is ignored. This holds for lists of any lengths.
   */
  lemma AcceptsPermutations<T>(xs: seq<Clause<T>>, tail: seq<Clause<T>>, ys: seq<Clause<T>>)
    requires Handlers(xs) && Handlers(ys)
    requires tail == [] || (|tail| == 1 && tail[0].Timeout?)
    ensures Mismatch(xs + tail, ys) == Found(|xs + tail|, [], []) <==> multiset(xs) == multiset(ys)
    ensures var r := Mismatch(xs + tail, ys);
      r.Found? && r.value == |xs + tail| <==> multiset(xs) == multiset(ys)
  {
    assert xs[..0] == [];
    var k := FindExcess(xs, ys, 0);
    if k < |xs| {
      StopsAtFirstExcess(xs, tail, ys, k);
      assert xs == xs[..k + 1] + xs[k + 1..];
    } else {
      assert xs[..|xs|] == xs;
      EndsAfterLastClause(xs, tail, ys);
      LeftOver(xs, ys, |xs|);
      LeftEmpty(xs, ys, |xs|);
      if |xs| == |ys| {
        SameSize(multiset(xs), multiset(ys));
      }
    }
  }

  lemma SameSize<T>(p: multiset<T>, y: multiset<T>)
    requires p <= y && |p| == |y|
    ensures p == y
  {
    assert y == p + (y - p);
  }

  /**
   For lists of equal length that do not match, the result is the first index
   whose prefix asks for more than the expected clauses offer.
   */
  lemma ReportsFirstMismatch<T>(xs: seq<Clause<T>>, tail: seq<Clause<T>>, ys: seq<Clause<T>>)
    returns (k: nat)
    requires Handlers(xs) && Handlers(ys) && |xs| == |ys| && multiset(xs) != multiset(ys)
    ensures k < |xs| && FirstExcess(xs, ys, k)
    ensures Mismatch(xs + tail, ys) == Found(k, xs[k..] + tail, Left(xs, ys, k))
    ensures multiset(Left(xs, ys, k)) == multiset(ys) - multiset(xs[..k])
  {
    assert xs[..0] == [];
    k := FindExcess(xs, ys, 0);
    if k == |xs| {
      assert xs[..|xs|] == xs;
      SameSize(multiset(xs), multiset(ys));
    }
    StopsAtFirstExcess(xs, tail, ys, k);
    LeftOver(xs, ys, k);
  }
}
