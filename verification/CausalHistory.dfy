/**
 Happened-before over the entries of a run, stated without any clock, and the
 algebra that ties it to vector timestamps: a stamp counts the printed entries
 of each entity in a causally closed set, and joining stamps is union.
 */
module CausalHistory {
  import opened Basics
  import opened VectorLog

  /** What a run records about one entry. */
  datatype Fact = Fact(owner: nat, event: Event, printed: bool, stamp: Clock, cause: Option<nat>, heir: Option<nat>)

  type Trace = seq<Fact>

  // -- happened-before --------------------------------------------------------

  /** Entry `j` hands its history on to entity `e`. */
  ghost predicate Feeds(tr: Trace, j: nat, e: nat)
    requires j < |tr|
  {
    tr[j].owner == e || tr[j].heir == Some(e)
  }

  /**
   One causal step: order of one entity, a matched send or spawn, or the end of
   a scoped actor followed by an entry of its parent.
   */
  ghost predicate Edge(tr: Trace, j: nat, i: nat) {
    j < i < |tr| && (Feeds(tr, j, tr[i].owner) || tr[i].cause == Some(j))
  }

  ghost predicate IsPath(tr: Trace, p: seq<nat>) {
    forall i :: 0 <= i < |p| - 1 ==> Edge(tr, p[i], p[i + 1])
  }

  /** Entry `a` reaches entry `b` through at least one causal step. */
  ghost predicate Reaches(tr: Trace, a: nat, b: nat) {
    exists p :: PathBetween(tr, p, a, b)
  }

  ghost predicate PathBetween(tr: Trace, p: seq<nat>, a: nat, b: nat) {
    |p| >= 2 && p[0] == a && p[|p| - 1] == b && IsPath(tr, p)
  }

  // -- causal pasts as sets ---------------------------------------------------

  /** Entry `i` and everything before it. */
  ghost function Past(tr: Trace, i: nat): set<nat>
    requires i < |tr|
    decreases i
  {
    {i} + set k | k in Below(i) && exists j :: 0 <= j < i && Edge(tr, j, i) && k in Past(tr, j)
  }

  /** Everything an entity has seen by the end of the trace. */
  ghost function Seen(tr: Trace, e: nat): set<nat> {
    set k | k in Below(|tr|) && exists j :: 0 <= j < |tr| && Feeds(tr, j, e) && k in Past(tr, j)
  }

  ghost predicate Closed(tr: Trace, s: set<nat>) {
    && (forall k :: k in s ==> k < |tr|)
    && (forall k, j: nat :: k in s && j < k && tr[j].owner == tr[k].owner ==> j in s)
  }

  lemma {:induction false} PastTransitive(tr: Trace, j: nat, k: nat, i: nat)
    requires i < |tr| && k in Past(tr, i) && k < |tr| && j in Past(tr, k)
    ensures j in Past(tr, i)
    decreases i
  {
    if k != i {
      var m: nat :| m < i && Edge(tr, m, i) && k in Past(tr, m);
      PastTransitive(tr, j, k, m);
    }
  }

  lemma {:induction false} PastClosed(tr: Trace, i: nat)
    requires i < |tr|
    ensures Closed(tr, Past(tr, i))
  {
    forall k, j: nat | k in Past(tr, i) && j < k && tr[j].owner == tr[k].owner
      ensures j in Past(tr, i)
    {
      assert Edge(tr, j, k) && j in Past(tr, j);
      PastTransitive(tr, j, k, i);
    }
  }

  lemma SeenClosed(tr: Trace, e: nat)
    ensures Closed(tr, Seen(tr, e))
  {
    forall k, j: nat | k in Seen(tr, e) && j < k && tr[j].owner == tr[k].owner
      ensures j in Seen(tr, e)
    {
      var m: nat :| m < |tr| && Feeds(tr, m, e) && k in Past(tr, m);
      PastClosed(tr, m);
    }
  }

  /** The recursive pasts are exactly the path-based happened-before relation. */
  lemma {:induction false} PastIsReaches(tr: Trace, a: nat, b: nat)
    requires b < |tr|
    ensures a in Past(tr, b) <==> a == b || Reaches(tr, a, b)
  {
    if a in Past(tr, b) && a != b {
      PastHasPath(tr, a, b);
    }
    if Reaches(tr, a, b) {
      var p :| PathBetween(tr, p, a, b);
      PathInPast(tr, p);
    }
  }

  lemma {:induction false} PastHasPath(tr: Trace, a: nat, b: nat)
    requires b < |tr| && a in Past(tr, b) && a != b
    ensures Reaches(tr, a, b)
    decreases b
  {
    var j: nat :| j < b && Edge(tr, j, b) && a in Past(tr, j);
    if a == j {
      assert PathBetween(tr, [a, b], a, b);
    } else {
      PastHasPath(tr, a, j);
      var p :| PathBetween(tr, p, a, j);
      assert PathBetween(tr, p + [b], a, b);
    }
  }

  lemma {:induction false} PathInPast(tr: Trace, p: seq<nat>)
    requires |p| >= 1 && IsPath(tr, p) && p[|p| - 1] < |tr|
    ensures p[0] in Past(tr, p[|p| - 1])
  {
    if |p| > 1 {
      var q := p[..|p| - 1];
      assert Edge(tr, p[|p| - 2], p[|p| - 1]);
      assert IsPath(tr, q) by {
        forall i | 0 <= i < |q| - 1 ensures Edge(tr, q[i], q[i + 1]) {
          assert Edge(tr, p[i], p[i + 1]);
        }
      }
      PathInPast(tr, q);
    }
  }

  // -- stamps count pasts -----------------------------------------------------

  /** Printed entries of entity `v` in `s`. */
  ghost function Own(tr: Trace, s: set<nat>, v: nat): set<nat> {
    set k | k in s && k < |tr| && tr[k].owner == v && tr[k].printed
  }

  /** The timestamp with `n` components that describes the set `s`. */
  ghost function StampOf(tr: Trace, s: set<nat>, n: nat): Clock {
    seq(n, v requires 0 <= v < n => |Own(tr, s, v)|)
  }

  /** Closed sets agree on prefixes of each entity, so joining their stamps is union. */
  lemma JoinIsUnion(tr: Trace, a: set<nat>, b: set<nat>, n: nat)
    requires Closed(tr, a) && Closed(tr, b)
    ensures Join(StampOf(tr, a, n), StampOf(tr, b, n)) == StampOf(tr, a + b, n)
    ensures Closed(tr, a + b)
  {
    forall v | 0 <= v < n
      ensures Max(|Own(tr, a, v)|, |Own(tr, b, v)|) == |Own(tr, a + b, v)|
    {
      var x, y := Own(tr, a, v), Own(tr, b, v);
      assert x + y == Own(tr, a + b, v);
      if !(x <= y) {
        var i :| i in x && i !in y;
        forall j | j in y ensures j in x {
          assert i != j && (i < j ==> i in y);
        }
      }
      if x <= y {
        assert x + y == y;
        SubsetCard(x, y);
      } else {
        assert x + y == x;
        SubsetCard(y, x);
      }
    }
  }

  lemma SubsetStamp(tr: Trace, a: set<nat>, b: set<nat>, n: nat)
    requires a <= b
    ensures Leq(StampOf(tr, a, n), StampOf(tr, b, n))
  {
    forall v | 0 <= v < n ensures |Own(tr, a, v)| <= |Own(tr, b, v)| {
      SubsetCard(Own(tr, a, v), Own(tr, b, v));
    }
  }

  // -- appending an entry -----------------------------------------------------

  lemma {:induction false} PastExtend(tr: Trace, f: Fact, i: nat)
    requires i < |tr|
    ensures Past(tr + [f], i) == Past(tr, i)
    decreases i
  {
    forall j: nat | j < i ensures Past(tr + [f], j) == Past(tr, j) && (Edge(tr + [f], j, i) <==> Edge(tr, j, i)) {
      PastExtend(tr, f, j);
    }
  }

  lemma StampExtend(tr: Trace, f: Fact, s: set<nat>, n: nat)
    requires forall k :: k in s ==> k < |tr|
    ensures StampOf(tr + [f], s, n) == StampOf(tr, s, n)
  {
    forall v | 0 <= v < n ensures Own(tr + [f], s, v) == Own(tr, s, v) {
    }
  }

  /** Adding the entry itself ticks its owner's component exactly when it is printed. */
  lemma StampNew(tr: Trace, f: Fact, s: set<nat>, n: nat)
    requires f.owner < n && forall k :: k in s ==> k < |tr|
    ensures var c := StampOf(tr, s, n);
      StampOf(tr + [f], s + {|tr|}, n) == if f.printed then Tick(c, f.owner) else c
  {
    forall v | 0 <= v < n
      ensures |Own(tr + [f], s + {|tr|}, v)| == |Own(tr, s, v)| + if f.printed && v == f.owner then 1 else 0
    {
      var x, y := Own(tr + [f], s + {|tr|}, v), Own(tr, s, v);
      assert x == if f.printed && v == f.owner then y + {|tr|} else y;
    }
  }

  /** The past of a fresh entry: itself, all its owner has seen, and its cause's past. */
  lemma PastNew(tr: Trace, f: Fact)
    requires f.cause.Some? ==> f.cause.value < |tr|
    ensures var tr' := tr + [f];
      Past(tr', |tr|) == {|tr|} + Seen(tr, f.owner) + if f.cause.Some? then Past(tr, f.cause.value) else {}
  {
    var i, tr' := |tr|, tr + [f];
    forall j: nat | j < i
      ensures Past(tr', j) == Past(tr, j)
      ensures Edge(tr', j, i) <==> Feeds(tr, j, f.owner) || f.cause == Some(j)
    {
      PastExtend(tr, f, j);
    }
    var rhs := {i} + Seen(tr, f.owner) + if f.cause.Some? then Past(tr, f.cause.value) else {};
    forall k | k in Past(tr', i) ensures k in rhs {
      if k != i {
        var j: nat :| j < i && Edge(tr', j, i) && k in Past(tr', j);
      }
    }
    forall k | k in rhs ensures k in Past(tr', i) {
      if k in Seen(tr, f.owner) {
        var j: nat :| j < |tr| && Feeds(tr, j, f.owner) && k in Past(tr, j);
        assert Edge(tr', j, i);
      } else if k != i {
        assert Edge(tr', f.cause.value, i);
      }
    }
  }

  lemma SeenKept(tr: Trace, f: Fact, e: nat, k: nat)
    requires k in Seen(tr, e)
    ensures k in Seen(tr + [f], e)
  {
    var j: nat :| j < |tr| && Feeds(tr, j, e) && k in Past(tr, j);
    PastExtend(tr, f, j);
    assert Feeds(tr + [f], j, e);
  }

  lemma SeenGained(tr: Trace, f: Fact, e: nat, k: nat)
    requires k in Seen(tr + [f], e)
    ensures k in Seen(tr, e) || (Feeds(tr + [f], |tr|, e) && k in Past(tr + [f], |tr|))
  {
    var j: nat :| j < |tr + [f]| && Feeds(tr + [f], j, e) && k in Past(tr + [f], j);
    if j < |tr| {
      PastExtend(tr, f, j);
      assert Feeds(tr, j, e);
    }
  }

  /** What entity `e` has seen after a fresh entry. */
  lemma SeenNew(tr: Trace, f: Fact, e: nat)
    ensures var tr' := tr + [f];
      Seen(tr', e) == Seen(tr, e) + if Feeds(tr', |tr|, e) then Past(tr', |tr|) else {}
  {
    var tr' := tr + [f];
    forall k | k in Seen(tr, e) ensures k in Seen(tr', e) {
      SeenKept(tr, f, e, k);
    }
    forall k | k in Seen(tr', e) ensures k in Seen(tr, e) || (Feeds(tr', |tr|, e) && k in Past(tr', |tr|)) {
      SeenGained(tr, f, e, k);
    }
  }

  // -- reading stamps ---------------------------------------------------------

  /** A stamp describing `Past(tr, b)` reaches the tick of `a` exactly when `a` is in that past. */
  lemma TickInStamp(tr: Trace, a: nat, b: nat)
    requires a < |tr| && b < |tr| && tr[a].printed
    ensures |Own(tr, Past(tr, b), tr[a].owner)| >= |Own(tr, Past(tr, a), tr[a].owner)| <==> a in Past(tr, b)
  {
    var v := tr[a].owner;
    var x, y := Own(tr, Past(tr, a), v), Own(tr, Past(tr, b), v);
    PastClosed(tr, b);
    if a in Past(tr, b) {
      forall k | k in x ensures k in y {
        PastTransitive(tr, k, a, b);
      }
      SubsetCard(x, y);
    } else {
      forall k | k in y ensures k in x {
        assert k < a;
        assert Edge(tr, k, a) && k in Past(tr, k);
      }
      assert a in x && a !in y;
      SubsetCard(y, x);
    }
  }
}
