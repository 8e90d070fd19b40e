/**
 The type of the composition f * g of two actors
 (libcaf_core/caf/composed_type.hpp): messages go to g, and what g answers goes
 to f. Clauses are pairs of inputs and output, as in the source's documentation.
 */
module ActorComposition {
  import opened Basics

  /** Types as far as the composition looks into them: `result<...>` lists several outputs. */
  datatype Type = Atom(name: nat) | Result(outs: seq<Type>)

  datatype Clause = Clause(ins: seq<Type>, out: Type)

  /** The output of `x` is what `y` takes: as its only input, or element by element. */
  predicate Feeds(x: Clause, y: Clause) {
    y.ins == [x.out] || (x.out.Result? && y.ins == x.out.outs)
  }

  function Joined(x: Clause, y: Clause): Clause {
    Clause(x.ins, y.out)
  }

  /** Two nested loops: `zs` is what is left of `ys` for the first clause of `xs`; `rs` collects the result. */
  function Compose(xs: seq<Clause>, ys: seq<Clause>, zs: seq<Clause>, rs: seq<Clause>): seq<Clause>
    decreases |xs|, |zs|
  {
    if xs == [] then rs
    else if zs == [] then Compose(xs[1..], ys, ys, rs)
    else if Feeds(xs[0], zs[0]) then Compose(xs[1..], ys, ys, rs + [Joined(xs[0], zs[0])])
    else Compose(xs, ys, zs[1..], rs)
  }

  /** `composed_type_t<F, G>` */
  function ComposedType(f: seq<Clause>, g: seq<Clause>): seq<Clause> {
    Compose(g, f, f, [])
  }

  // -- reference definitions --------------------------------------------------

  /** When the output of one clause and the input of another count as equal. */
  type Fits = (Clause, Clause) -> bool

  /** All clauses of f that take what `x` returns, in order. */
  function Takers(fits: Fits, x: Clause, f: seq<Clause>): seq<Clause> {
    if f == [] then []
    else (if fits(x, f[0]) then [Joined(x, f[0])] else []) + Takers(fits, x, f[1..])
  }

  /**
   The documented list comprehension: every pair with equal output and input,
   g's clauses in the outer loop. The documentation leaves open what a `result`
   equals; `Feeds` reads it as the code does, `FeedsAsList` as the list of its
   elements only.
   */
  function Comprehension(fits: Fits, f: seq<Clause>, g: seq<Clause>): seq<Clause> {
    if g == [] then [] else Takers(fits, g[0], f) + Comprehension(fits, f, g[1..])
  }

  predicate FeedsAsList(x: Clause, y: Clause) {
    y.ins == if x.out.Result? then x.out.outs else [x.out]
  }

  function FirstOf(s: seq<Clause>): seq<Clause> {
    if s == [] then [] else [s[0]]
  }

  /** For each clause of g only the first clause of f that fits. */
  function FirstTakers(f: seq<Clause>, g: seq<Clause>): seq<Clause> {
    if g == [] then [] else FirstOf(Takers(Feeds, g[0], f)) + FirstTakers(f, g[1..])
  }

  // -- what the loops compute -------------------------------------------------

  lemma {:induction false} InnerLoop(xs: seq<Clause>, ys: seq<Clause>, zs: seq<Clause>, rs: seq<Clause>)
    requires xs != []
    ensures Compose(xs, ys, zs, rs) == Compose(xs[1..], ys, ys, rs + FirstOf(Takers(Feeds, xs[0], zs)))
    decreases |zs|
  {
    if zs == [] {
      assert rs + [] == rs;
    } else if !Feeds(xs[0], zs[0]) {
      InnerLoop(xs, ys, zs[1..], rs);
      assert Takers(Feeds, xs[0], zs) == Takers(Feeds, xs[0], zs[1..]);
    }
  }

  lemma {:induction false} OuterLoop(xs: seq<Clause>, ys: seq<Clause>, rs: seq<Clause>)
    ensures Compose(xs, ys, ys, rs) == rs + FirstTakers(ys, xs)
  {
    if xs == [] {
      assert rs + [] == rs;
    } else {
      InnerLoop(xs, ys, ys, rs);
      var head := FirstOf(Takers(Feeds, xs[0], ys));
      OuterLoop(xs[1..], ys, rs + head);
      Associative(rs, head, FirstTakers(ys, xs[1..]));
    }
  }

  /** The composition keeps, in g's order, exactly the first clause of f that fits each clause of g. */
  lemma ComposesFirstTakers(f: seq<Clause>, g: seq<Clause>)
    ensures ComposedType(f, g) == FirstTakers(f, g)
  {
    OuterLoop(g, f, []);
    assert [] + FirstTakers(f, g) == FirstTakers(f, g);
  }

  /** The `j`-th clause of f is the first that takes what the `i`-th clause of g returns. */
  predicate FirstFit(f: seq<Clause>, g: seq<Clause>, i: int, j: int) {
    && 0 <= i < |g| && 0 <= j < |f| && Feeds(g[i], f[j])
    && forall k :: 0 <= k < j ==> !Feeds(g[i], f[k])
  }

  /** `c` takes the inputs of a clause of g and returns the output of the first clause of f that takes its result. */
  ghost predicate Chains(f: seq<Clause>, g: seq<Clause>, c: Clause) {
    exists i, j :: FirstFit(f, g, i, j) && c.ins == g[i].ins && c.out == f[j].out
  }

  lemma {:induction false} FirstTaker(x: Clause, f: seq<Clause>)
    ensures Takers(Feeds, x, f) == [] <==> forall j :: 0 <= j < |f| ==> !Feeds(x, f[j])
    ensures Takers(Feeds, x, f) != [] ==>
      exists j :: 0 <= j < |f| && Feeds(x, f[j]) && (forall k :: 0 <= k < j ==> !Feeds(x, f[k]))
                  && Takers(Feeds, x, f)[0].ins == x.ins && Takers(Feeds, x, f)[0].out == f[j].out
  {
    if f != [] {
      var rest := f[1..];
      FirstTaker(x, rest);
      assert forall j :: 0 <= j < |rest| ==> rest[j] == f[j + 1];
      if !Feeds(x, f[0]) && Takers(Feeds, x, rest) != [] {
        var j :| 0 <= j < |rest| && Feeds(x, rest[j]) && (forall k :: 0 <= k < j ==> !Feeds(x, rest[k]))
                 && Takers(Feeds, x, rest)[0].ins == x.ins && Takers(Feeds, x, rest)[0].out == rest[j].out;
        assert Feeds(x, f[j + 1]) && forall k :: 0 <= k < j + 1 ==> !Feeds(x, f[k]);
      }
    }
  }

  lemma {:induction false} InFirstTakers(f: seq<Clause>, g: seq<Clause>, c: Clause)
    ensures c in FirstTakers(f, g) <==> exists i :: 0 <= i < |g| && c in FirstOf(Takers(Feeds, g[i], f))
  {
    if g != [] {
      var rest := g[1..];
      InFirstTakers(f, rest, c);
      if c in FirstTakers(f, rest) {
        var i :| 0 <= i < |rest| && c in FirstOf(Takers(Feeds, rest[i], f));
        assert g[i + 1] == rest[i];
      }
      if i :| 0 <= i < |g| && c in FirstOf(Takers(Feeds, g[i], f)) {
        assert i > 0 ==> rest[i - 1] == g[i];
      }
    }
  }

  /** The clauses of the composition are exactly those that lead through a clause of g and the first fitting one of f. */
  lemma ComposesChains(f: seq<Clause>, g: seq<Clause>, c: Clause)
    ensures c in ComposedType(f, g) <==> Chains(f, g, c)
  {
    ComposesFirstTakers(f, g);
    InFirstTakers(f, g, c);
    forall i | 0 <= i < |g|
      ensures c in FirstOf(Takers(Feeds, g[i], f)) <==>
        exists j :: FirstFit(f, g, i, j) && c.ins == g[i].ins && c.out == f[j].out
    {
      ChainThrough(f, g, i, c);
    }
  }

  lemma ChainThrough(f: seq<Clause>, g: seq<Clause>, i: nat, c: Clause)
    requires i < |g|
    ensures c in FirstOf(Takers(Feeds, g[i], f)) <==>
      exists j :: FirstFit(f, g, i, j) && c.ins == g[i].ins && c.out == f[j].out
  {
    FirstTaker(g[i], f);
    if Takers(Feeds, g[i], f) != [] {
      var first := Takers(Feeds, g[i], f)[0];
      var j :| 0 <= j < |f| && Feeds(g[i], f[j]) && (forall k :: 0 <= k < j ==> !Feeds(g[i], f[k]))
               && first.ins == g[i].ins && first.out == f[j].out;
      assert FirstFit(f, g, i, j);
    }
  }

  // -- against the documentation ----------------------------------------------

  /** No clause of g is taken by two clauses of f. */
  predicate Unambiguous(f: seq<Clause>, g: seq<Clause>) {
    forall x, i, j :: x in g && 0 <= i < j < |f| ==> !(Feeds(x, f[i]) && Feeds(x, f[j]))
  }

  lemma {:induction false} NoTaker(x: Clause, f: seq<Clause>)
    ensures Takers(Feeds, x, f) == [] <==> forall i :: 0 <= i < |f| ==> !Feeds(x, f[i])
  {
    if f != [] {
      NoTaker(x, f[1..]);
      assert forall i :: 1 <= i < |f| ==> f[i] == f[1..][i - 1];
      assert (forall i :: 0 <= i < |f| ==> !Feeds(x, f[i])) ==>
          forall i :: 0 <= i < |f[1..]| ==> !Feeds(x, f[1..][i]);
    }
  }

  lemma {:induction false} OneTaker(x: Clause, f: seq<Clause>)
    ensures |Takers(Feeds, x, f)| <= 1 <==> forall i, j :: 0 <= i < j < |f| ==> !(Feeds(x, f[i]) && Feeds(x, f[j]))
  {
    if f != [] {
      var rest := f[1..];
      OneTaker(x, rest);
      NoTaker(x, rest);
      assert forall i :: 0 <= i < |rest| ==> rest[i] == f[i + 1];
      if |Takers(Feeds, x, f)| <= 1 {
        forall i, j | 0 <= i < j < |f| ensures !(Feeds(x, f[i]) && Feeds(x, f[j])) {
          assert f[j] == rest[j - 1];
          if i > 0 {
            assert f[i] == rest[i - 1];
          }
        }
      } else if |Takers(Feeds, x, rest)| <= 1 {
        var j :| 0 <= j < |rest| && Feeds(x, rest[j]);
        assert Feeds(x, f[0]) && Feeds(x, f[j + 1]);
      } else {
        var i, j :| 0 <= i < j < |rest| && Feeds(x, rest[i]) && Feeds(x, rest[j]);
        assert Feeds(x, f[i + 1]) && Feeds(x, f[j + 1]);
      }
    }
  }

  lemma {:induction false} FewerThanAll(f: seq<Clause>, g: seq<Clause>)
    ensures |FirstTakers(f, g)| <= |Comprehension(Feeds, f, g)|
    ensures |FirstTakers(f, g)| == |Comprehension(Feeds, f, g)| ==> forall x :: x in g ==> |Takers(Feeds, x, f)| <= 1
    ensures (forall x :: x in g ==> |Takers(Feeds, x, f)| <= 1) ==> FirstTakers(f, g) == Comprehension(Feeds, f, g)
  {
    if g != [] {
      FewerThanAll(f, g[1..]);
      assert forall x :: x in g <==> x == g[0] || x in g[1..];
    }
  }

  /**
   The loops compute the documented list comprehension exactly when no clause of
   g is taken by two clauses of f.
   */
  lemma AgreesWithDocumentation(f: seq<Clause>, g: seq<Clause>)
    ensures ComposedType(f, g) == Comprehension(Feeds, f, g) <==> Unambiguous(f, g)
  {
    ComposesFirstTakers(f, g);
    FewerThanAll(f, g);
    forall x | x in g
      ensures |Takers(Feeds, x, f)| <= 1 <==> forall i, j :: 0 <= i < j < |f| ==> !(Feeds(x, f[i]) && Feeds(x, f[j]))
    {
      OneTaker(x, f);
    }
  }

  predicate DistinctInputs(f: seq<Clause>) {
    forall i, j :: 0 <= i < j < |f| ==> f[i].ins != f[j].ins
  }

  /** No clause of f takes a whole `result` as its only input. */
  predicate NoWholeResults(f: seq<Clause>) {
    forall i :: 0 <= i < |f| && |f[i].ins| == 1 ==> f[i].ins[0].Atom?
  }

  lemma {:induction false} SameTakers(x: Clause, f: seq<Clause>)
    requires NoWholeResults(f)
    ensures Takers(FeedsAsList, x, f) == Takers(Feeds, x, f)
  {
    if f != [] {
      assert NoWholeResults(f[1..]) by {
        assert forall i :: 0 <= i < |f[1..]| ==> f[1..][i] == f[i + 1];
      }
      SameTakers(x, f[1..]);
      assert FeedsAsList(x, f[0]) == Feeds(x, f[0]);
    }
  }

  /** Then both readings of the documentation are the same. */
  lemma {:induction false} SameReading(f: seq<Clause>, g: seq<Clause>)
    requires NoWholeResults(f)
    ensures Comprehension(FeedsAsList, f, g) == Comprehension(Feeds, f, g)
  {
    if g != [] {
      SameTakers(g[0], f);
      SameReading(f, g[1..]);
    }
  }

  /** Clauses of f with different inputs suffice, in either reading, unless f takes a whole `result` as an input. */
  lemma DistinctInputsSuffice(f: seq<Clause>, g: seq<Clause>)
    requires DistinctInputs(f) && NoWholeResults(f)
    ensures ComposedType(f, g) == Comprehension(Feeds, f, g) == Comprehension(FeedsAsList, f, g)
  {
    AgreesWithDocumentation(f, g);
    SameReading(f, g);
  }

  /** Otherwise one output can fit two clauses with different inputs, and the code agrees with neither reading. */
  lemma DistinctInputsAreNotEnough() returns (f: seq<Clause>, g: seq<Clause>)
    ensures DistinctInputs(f)
    ensures ComposedType(f, g) != Comprehension(Feeds, f, g)
    ensures ComposedType(f, g) != Comprehension(FeedsAsList, f, g)
  {
    var a, b := Atom(0), Atom(1);
    var r := Result([a]);
    var x, whole, single := Clause([b], r), Clause([r], a), Clause([a], b);
    f, g := [whole, single], [x];
    assert g[0] in g && Feeds(g[0], f[0]) && Feeds(g[0], f[1]);
    assert !Unambiguous(f, g);
    AgreesWithDocumentation(f, g);
    assert Compose(g, f, f, []) == Compose([], f, f, [] + [Joined(x, whole)]);
    assert Takers(FeedsAsList, x, f) == Takers(FeedsAsList, x, f[1..]);
    assert Takers(FeedsAsList, x, f[1..]) == [Joined(x, single)] + Takers(FeedsAsList, x, f[2..]);
    assert Comprehension(FeedsAsList, f, g)[0] == Joined(x, single);
  }
}
