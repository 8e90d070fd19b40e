/**
 The sorted dictionary with hinted insertion (libcaf_core/caf/dictionary.hpp).
 Entries are listed in the order of the underlying `std::map`; an iterator is an
 index, and the end iterator is the number of entries.
 */
module Dictionary {

  datatype Entry<V> = Entry(key: string, value: V)

  // -- the order of keys ------------------------------------------------------

  predicate Less(a: string, b: string) {
    b != [] && (a == [] || a[0] < b[0] || (a[0] == b[0] && Less(a[1..], b[1..])))
  }

  lemma {:induction false} LessIrreflexive(a: string)
    ensures !Less(a, a)
  {
    if a != [] {
      LessIrreflexive(a[1..]);
    }
  }

  lemma {:induction false} LessTransitive(a: string, b: string, c: string)
    requires Less(a, b) && Less(b, c)
    ensures Less(a, c)
  {
    if a != [] && a[0] == b[0] == c[0] {
      LessTransitive(a[1..], b[1..], c[1..]);
    }
  }

  lemma {:induction false} LessTotal(a: string, b: string)
    ensures a == b || Less(a, b) || Less(b, a)
  {
    if a != [] && b != [] && a[0] == b[0] {
      LessTotal(a[1..], b[1..]);
      assert a == [a[0]] + a[1..] && b == [b[0]] + b[1..];
    }
  }

  ghost predicate Sorted<V>(xs: seq<Entry<V>>) {
    forall i, j :: 0 <= i < j < |xs| ==> Less(xs[i].key, xs[j].key)
  }

  /** The entries are those of map `m`. */
  ghost predicate Represents<V>(xs: seq<Entry<V>>, m: map<string, V>) {
    && (forall i :: 0 <= i < |xs| ==> xs[i].key in m && m[xs[i].key] == xs[i].value)
    && (forall k :: k in m ==> Has(xs, k))
  }

  ghost predicate Has<V>(xs: seq<Entry<V>>, k: string) {
    exists i :: 0 <= i < |xs| && xs[i].key == k
  }

  // -- operations -------------------------------------------------------------

  /** The first position from `from` on whose key is not less than `key`. */
  function LowerBound<V>(xs: seq<Entry<V>>, from: nat, key: string): (i: nat)
    requires from <= |xs|
    ensures from <= i <= |xs| && (i < |xs| ==> !Less(xs[i].key, key))
    ensures forall j :: from <= j < i ==> Less(xs[j].key, key)
    decreases |xs| - from
  {
    if from < |xs| && Less(xs[from].key, key) then LowerBound(xs, from + 1, key) else from
  }

  predicate IsAt<V>(xs: seq<Entry<V>>, i: nat, key: string) {
    i < |xs| && xs[i].key == key
  }

  function InsertAt<V>(xs: seq<Entry<V>>, i: nat, e: Entry<V>): seq<Entry<V>>
    requires i <= |xs|
  {
    xs[..i] + [e] + xs[i..]
  }

  /** The dictionary after an insertion, the position of the entry, and whether the entry is new. */
  datatype Insertion<V> = Insertion(xs: seq<Entry<V>>, at: nat, isNew: bool)

  /** `std::map::emplace`; `std::map::emplace_hint` differs in cost only. */
  function MapEmplace<V>(xs: seq<Entry<V>>, key: string, v: V): Insertion<V> {
    var i := LowerBound(xs, 0, key);
    if IsAt(xs, i, key) then Insertion(xs, i, false) else Insertion(InsertAt(xs, i, Entry(key, v)), i, true)
  }

  function Find<V>(xs: seq<Entry<V>>, key: string): nat {
    var i := LowerBound(xs, 0, key);
    if IsAt(xs, i, key) then i else |xs|
  }

  function Emplace<V>(xs: seq<Entry<V>>, key: string, v: V): Insertion<V> {
    var i := LowerBound(xs, 0, key);
    if i == |xs| then MapEmplace(xs, key, v)
    else if xs[i].key == key then Insertion(xs, i, false)
    else MapEmplace(xs, key, v).(isNew := true)
  }

  /** The hinted forms return the position only; the flag tells whether the number of entries grew. */
  function EmplaceHint<V>(xs: seq<Entry<V>>, hint: nat, key: string, v: V): Insertion<V>
    requires hint <= |xs|
  {
    if hint == |xs| || Less(key, xs[hint].key) then MapEmplace(xs, key, v)
    else if xs[hint].key == key then Insertion(xs, hint, false)
    else MapEmplace(xs, key, v)
  }

  function InsertOrAssign<V>(xs: seq<Entry<V>>, key: string, v: V): Insertion<V> {
    var i := LowerBound(xs, 0, key);
    if i == |xs| then MapEmplace(xs, key, v)
    else if xs[i].key == key then Insertion(xs[i := Entry(key, v)], i, false)
    else MapEmplace(xs, key, v).(isNew := true)
  }

  function InsertOrAssignHint<V>(xs: seq<Entry<V>>, hint: nat, key: string, v: V): Insertion<V>
    requires hint <= |xs|
  {
    if hint == |xs| || Less(key, xs[hint].key) then InsertOrAssign(xs, key, v)
    else
      var i := LowerBound(xs, hint, key);
      if IsAt(xs, i, key) then Insertion(xs[i := Entry(key, v)], i, false) else MapEmplace(xs, key, v)
  }

  // -- positions in a sorted dictionary ---------------------------------------

  /** Everything from the lower bound on is not less than the key. */
  lemma SplitsAtLowerBound<V>(xs: seq<Entry<V>>, key: string, j: nat)
    requires Sorted(xs) && j < |xs|
    ensures j < LowerBound(xs, 0, key) <==> Less(xs[j].key, key)
  {
    var i := LowerBound(xs, 0, key);
    if i < j && Less(xs[j].key, key) {
      LessTransitive(xs[i].key, xs[j].key, key);
    }
  }

  /** A position with the key is the lower bound of the key. */
  lemma KeyIsLowerBound<V>(xs: seq<Entry<V>>, key: string, j: nat)
    requires Sorted(xs) && j < |xs| && xs[j].key == key
    ensures LowerBound(xs, 0, key) == j
  {
    LessIrreflexive(key);
    SplitsAtLowerBound(xs, key, j);
  }

  /** Starting the search late makes no difference unless it starts after the key. */
  lemma LateStart<V>(xs: seq<Entry<V>>, from: nat, key: string)
    requires Sorted(xs) && from < |xs| && !Less(key, xs[from].key)
    ensures LowerBound(xs, from, key) == LowerBound(xs, 0, key)
  {
    LessTotal(xs[from].key, key);
    if xs[from].key == key {
      KeyIsLowerBound(xs, key, from);
      LessIrreflexive(key);
    } else {
      SplitsAtLowerBound(xs, key, from);
    }
  }

  // -- hints ------------------------------------------------------------------

  /** Whatever the hint, the dictionary and the position of the entry are those without a hint. */
  lemma EmplaceIgnoresHint<V>(xs: seq<Entry<V>>, hint: nat, key: string, v: V)
    requires Sorted(xs) && hint <= |xs|
    ensures EmplaceHint(xs, hint, key, v) == Emplace(xs, key, v)
  {
    if IsAt(xs, hint, key) {
      KeyIsLowerBound(xs, key, hint);
      LessIrreflexive(key);
    }
  }

  lemma InsertOrAssignIgnoresHint<V>(xs: seq<Entry<V>>, hint: nat, key: string, v: V)
    requires Sorted(xs) && hint <= |xs|
    ensures InsertOrAssignHint(xs, hint, key, v) == InsertOrAssign(xs, key, v)
  {
    if hint < |xs| && !Less(key, xs[hint].key) {
      LateStart(xs, hint, key);
    }
  }

  // -- meaning ----------------------------------------------------------------

  /** Looking up a key finds its entry exactly when the map has it. */
  lemma FindsKeys<V>(xs: seq<Entry<V>>, m: map<string, V>, key: string)
    requires Sorted(xs) && Represents(xs, m)
    ensures var i := Find(xs, key);
      && i <= |xs|
      && (i < |xs| <==> key in m)
      && (i < |xs| ==> xs[i] == Entry(key, m[key]))
  {
    if key in m {
      assert Has(xs, key);
      var j :| 0 <= j < |xs| && xs[j].key == key;
      KeyIsLowerBound(xs, key, j);
    }
  }

  lemma InsertKeepsSorted<V>(xs: seq<Entry<V>>, key: string, v: V)
    requires Sorted(xs) && !IsAt(xs, LowerBound(xs, 0, key), key)
    ensures Sorted(InsertAt(xs, LowerBound(xs, 0, key), Entry(key, v)))
  {
    var i := LowerBound(xs, 0, key);
    var ys := InsertAt(xs, i, Entry(key, v));
    forall j | 0 <= j < |xs| ensures if j < i then Less(xs[j].key, key) else Less(key, xs[j].key) {
      SplitsAtLowerBound(xs, key, j);
      LessTotal(xs[j].key, key);
      if xs[j].key == key {
        KeyIsLowerBound(xs, key, j);
      }
    }
    forall a, b | 0 <= a < b < |ys| ensures Less(ys[a].key, ys[b].key) {
      assert a < i ==> ys[a] == xs[a];
      assert a > i ==> ys[a] == xs[a - 1];
      assert b < i ==> ys[b] == xs[b];
      assert b > i ==> ys[b] == xs[b - 1];
    }
  }

  lemma InsertRepresents<V>(xs: seq<Entry<V>>, m: map<string, V>, i: nat, key: string, v: V)
    requires Represents(xs, m) && key !in m && i <= |xs|
    ensures Represents(InsertAt(xs, i, Entry(key, v)), m[key := v])
  {
    var ys := InsertAt(xs, i, Entry(key, v));
    forall k | k in m[key := v] ensures Has(ys, k) {
      if k == key {
        assert ys[i].key == key;
      } else {
        var j :| 0 <= j < |xs| && xs[j].key == k;
        assert ys[if j < i then j else j + 1].key == k;
      }
    }
    forall j | 0 <= j < |ys| ensures ys[j].key in m[key := v] && m[key := v][ys[j].key] == ys[j].value {
      assert j < i ==> ys[j] == xs[j];
      assert j > i ==> ys[j] == xs[j - 1];
    }
  }

  /** Emplacing adds the key unless it is there, keeps the order, and points at the entry. */
  lemma EmplaceMeaning<V>(xs: seq<Entry<V>>, m: map<string, V>, key: string, v: V)
    requires Sorted(xs) && Represents(xs, m)
    ensures var r := Emplace(xs, key, v);
      && Sorted(r.xs) && IsAt(r.xs, r.at, key) && (r.isNew <==> key !in m)
      && Represents(r.xs, if key in m then m else m[key := v])
  {
    FindsKeys(xs, m, key);
    if key !in m {
      InsertKeepsSorted(xs, key, v);
      InsertRepresents(xs, m, LowerBound(xs, 0, key), key, v);
    }
  }

  lemma AssignMeaning<V>(xs: seq<Entry<V>>, m: map<string, V>, i: nat, v: V)
    requires Sorted(xs) && Represents(xs, m) && i < |xs|
    ensures var ys := xs[i := Entry(xs[i].key, v)];
      Sorted(ys) && Represents(ys, m[xs[i].key := v])
  {
    var key := xs[i].key;
    var ys := xs[i := Entry(key, v)];
    forall k | k in m[key := v] ensures Has(ys, k) {
      assert Has(xs, k);
      var j :| 0 <= j < |xs| && xs[j].key == k;
      assert ys[j].key == k;
    }
    forall j | 0 <= j < |ys| && j != i ensures xs[j].key != key {
      LessIrreflexive(key);
    }
  }

  /** Inserting or assigning sets the key's value, keeps the order, and points at the entry. */
  lemma InsertOrAssignMeaning<V>(xs: seq<Entry<V>>, m: map<string, V>, key: string, v: V)
    requires Sorted(xs) && Represents(xs, m)
    ensures var r := InsertOrAssign(xs, key, v);
      && Sorted(r.xs) && IsAt(r.xs, r.at, key) && (r.isNew <==> key !in m)
      && Represents(r.xs, m[key := v])
  {
    FindsKeys(xs, m, key);
    if key in m {
      AssignMeaning(xs, m, LowerBound(xs, 0, key), v);
    } else {
      InsertKeepsSorted(xs, key, v);
      InsertRepresents(xs, m, LowerBound(xs, 0, key), key, v);
    }
  }

  /** All insertions keep the keys sorted and unique. */
  lemma InsertionsKeepSorted<V>(xs: seq<Entry<V>>, key: string, v: V)
    requires Sorted(xs)
    ensures Sorted(MapEmplace(xs, key, v).xs) && Sorted(Emplace(xs, key, v).xs)
    ensures Sorted(InsertOrAssign(xs, key, v).xs)
  {
    var i := LowerBound(xs, 0, key);
    if !IsAt(xs, i, key) {
      InsertKeepsSorted(xs, key, v);
    }
  }

  // -- in place ---------------------------------------------------------------

  class SortedDictionary<V> {
    var xs: seq<Entry<V>>

    constructor ()
      ensures xs == [] && Sorted(xs)
    {
      xs := [];
    }

    /** Binary search in `xs[from..]`. */
    method LowerBoundFrom(from: nat, key: string) returns (i: nat)
      requires Sorted(xs) && from <= |xs|
      ensures i == LowerBound(xs, from, key)
    {
      var lo, hi := from, |xs|;
      while lo < hi
        invariant from <= lo <= hi <= |xs|
        invariant forall j :: from <= j < lo ==> Less(xs[j].key, key)
        invariant hi < |xs| ==> !Less(xs[hi].key, key)
      {
        var mid := lo + (hi - lo) / 2;
        if Less(xs[mid].key, key) {
          forall j | lo <= j < mid ensures Less(xs[j].key, key) {
            LessTransitive(xs[j].key, xs[mid].key, key);
          }
          lo := mid + 1;
        } else {
          hi := mid;
        }
      }
      i := lo;
    }

    method FindKey(key: string) returns (i: nat)
      requires Sorted(xs)
      ensures i == Find(xs, key)
    {
      i := LowerBoundFrom(0, key);
      if i == |xs| || xs[i].key != key {
        i := |xs|;
      }
    }

    method EmplaceInMap(key: string, v: V) returns (at: nat, isNew: bool)
      requires Sorted(xs)
      modifies this
      ensures Insertion(xs, at, isNew) == MapEmplace(old(xs), key, v)
      ensures Sorted(xs)
    {
      InsertionsKeepSorted(xs, key, v);
      at := LowerBoundFrom(0, key);
      isNew := at == |xs| || xs[at].key != key;
      if isNew {
        xs := xs[..at] + [Entry(key, v)] + xs[at..];
      }
    }

    method EmplaceKey(key: string, v: V) returns (at: nat, isNew: bool)
      requires Sorted(xs)
      modifies this
      ensures Insertion(xs, at, isNew) == Emplace(old(xs), key, v)
      ensures Sorted(xs)
    {
      InsertionsKeepSorted(xs, key, v);
      at := LowerBoundFrom(0, key);
      if at == |xs| {
        at, isNew := EmplaceInMap(key, v);
      } else if xs[at].key == key {
        isNew := false;
      } else {
        at, isNew := EmplaceInMap(key, v);
        isNew := true;
      }
    }

    method EmplaceHinted(hint: nat, key: string, v: V) returns (at: nat)
      requires Sorted(xs) && hint <= |xs|
      modifies this
      ensures xs == Emplace(old(xs), key, v).xs && at == Emplace(old(xs), key, v).at
      ensures Sorted(xs)
    {
      InsertionsKeepSorted(xs, key, v);
      EmplaceIgnoresHint(xs, hint, key, v);
      var isNew;
      if hint == |xs| || Less(key, xs[hint].key) {
        at, isNew := EmplaceInMap(key, v);
      } else if xs[hint].key == key {
        at := hint;
      } else {
        at, isNew := EmplaceInMap(key, v);
      }
    }

    method InsertOrAssignKey(key: string, v: V) returns (at: nat, isNew: bool)
      requires Sorted(xs)
      modifies this
      ensures Insertion(xs, at, isNew) == InsertOrAssign(old(xs), key, v)
      ensures Sorted(xs)
    {
      InsertionsKeepSorted(xs, key, v);
      at := LowerBoundFrom(0, key);
      if at == |xs| {
        at, isNew := EmplaceInMap(key, v);
      } else if xs[at].key == key {
        xs, isNew := xs[at := Entry(key, v)], false;
      } else {
        at, isNew := EmplaceInMap(key, v);
        isNew := true;
      }
    }

    method InsertOrAssignHinted(hint: nat, key: string, v: V) returns (at: nat)
      requires Sorted(xs) && hint <= |xs|
      modifies this
      ensures xs == InsertOrAssign(old(xs), key, v).xs && at == InsertOrAssign(old(xs), key, v).at
      ensures Sorted(xs)
    {
      InsertionsKeepSorted(xs, key, v);
      InsertOrAssignIgnoresHint(xs, hint, key, v);
      var isNew;
      if hint == |xs| || Less(key, xs[hint].key) {
        at, isNew := InsertOrAssignKey(key, v);
        return;
      }
      at := LowerBoundFrom(hint, key);
      if at != |xs| && xs[at].key == key {
        xs := xs[at := Entry(key, v)];
      } else {
        at, isNew := EmplaceInMap(key, v);
      }
    }
  }
}
