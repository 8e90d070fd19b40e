/**
 The written forms of a value: token sequences that stand for it, described
 without the loader. A value may be written as it is saved, with two freedoms: a
 field may be written although it equals its fallback, and the type index of an
 absent variant is of no importance. Whatever can be loaded was written
 (libcaf_core/caf/inspector_access.hpp, libcaf_core/caf/load_inspector_base.hpp,
 libcaf_core/caf/load_inspector.hpp).
 */
module InspectionForms {
  import opened Basics
  import opened Inspection

  function Framed(b: Token, mid: seq<Token>, e: Token): seq<Token> {
    [b] + mid + [e]
  }

  /** The pieces from the `i`-th on, one after the other. */
  function Onwards<T>(ps: seq<seq<T>>, i: nat): seq<T>
    requires i <= |ps|
    decreases |ps| - i
  {
    if i == |ps| then [] else ps[i] + Onwards(ps, i + 1)
  }

  // -- written forms ----------------------------------------------------------

  /** `ts` is a written form of the value `v` of type `s`. */
  ghost predicate Written(s: Shape, v: Value, ts: seq<Token>)
    decreases s, Rank(s), 0
  {
    match s
    case Builtin => v.Atom? && ts == [Number(v.n)]
    case Tuple(items) =>
      && v.Items? && |v.items| == |items|
      && exists ps :: PartsWritten(s, v.items, ps) && ts == Framed(BeginTuple(|items|), Onwards(ps, 0), EndTuple)
    case Listing(_) =>
      && v.Items?
      && exists ps :: ElementsWritten(s, v.items, ps)
                      && ts == Framed(BeginSequence(|v.items|), Onwards(ps, 0), EndSequence)
    case Mapping(_, _) =>
      && v.Entries? && DistinctKeys(v.entries)
      && exists ps :: EntriesWritten(s, v.entries, ps)
                      && ts == Framed(BeginAssociativeArray(|v.entries|), Onwards(ps, 0), EndAssociativeArray)
    case Object(name, fields) =>
      && v.Items? && |v.items| == |fields|
      && exists ps :: FieldsWritten(s, v.items, ps) && ts == Framed(BeginObject(name), Onwards(ps, 0), EndObject)
    case _ =>
      exists mid :: FieldWritten("value", s, _ => true, v, mid) && ts == Framed(BeginObject("anonymous"), mid, EndObject)
  }

  /** `ps` are written forms of `vs`, the first parts of a tuple. */
  ghost predicate PartsWritten(s: Shape, vs: seq<Value>, ps: seq<seq<Token>>)
    requires s.Tuple?
    decreases s, 0, 1
  {
    |ps| == |vs| <= |s.items| && forall i :: 0 <= i < |vs| ==> Written(s.items[i], vs[i], ps[i])
  }

  ghost predicate ElementsWritten(s: Shape, vs: seq<Value>, ps: seq<seq<Token>>)
    requires s.Listing?
    decreases s, 0, 1
  {
    |ps| == |vs| && forall i :: 0 <= i < |vs| ==> Written(s.item, vs[i], ps[i])
  }

  ghost predicate EntriesWritten(s: Shape, es: seq<(Value, Value)>, ps: seq<seq<Token>>)
    requires s.Mapping?
    decreases s, 0, 1
  {
    |ps| == |es| && forall i {:trigger EntryWritten(s, es[i], ps[i])} :: 0 <= i < |es| ==> EntryWritten(s, es[i], ps[i])
  }

  ghost predicate EntryWritten(s: Shape, e: (Value, Value), ts: seq<Token>)
    requires s.Mapping?
    decreases s, 0, 0
  {
    exists a, b :: Written(s.key, e.0, a) && Written(s.item, e.1, b)
                   && ts == Framed(BeginKeyValuePair, a + b, EndKeyValuePair)
  }

  /** `ps` are written forms of `vs`, the first fields of an object. */
  ghost predicate FieldsWritten(s: Shape, vs: seq<Value>, ps: seq<seq<Token>>)
    requires s.Object?
    decreases s, 0, 1
  {
    |ps| == |vs| <= |s.fields| && forall i :: 0 <= i < |vs| ==> MemberWritten(s.fields[i], vs[i], ps[i])
  }

  /** A member that equals its fallback may be absent; one that is present satisfies its invariant. */
  ghost predicate MemberWritten(f: Field, v: Value, ts: seq<Token>)
    decreases f.shape, 4, 0
  {
    if f.fallback.None? then FieldWritten(f.name, f.shape, f.admits, v, ts)
    else
      || (v == f.fallback.value && MaybeWritten(f.name, f.shape, f.admits, None, ts))
      || MaybeWritten(f.name, f.shape, f.admits, Some(v), ts)
  }

  /** A field without fallback. */
  ghost predicate FieldWritten(name: string, s: Shape, ok: Value -> bool, v: Value, ts: seq<Token>)
    decreases s, 2, 0
  {
    if s.Optional? then
      || (v.Nothing? && MaybeWritten(name, s.item, ok, None, ts))
      || (v.Just? && MaybeWritten(name, s.item, ok, Some(v.value), ts))
    else if s.Variant? then
      && v.Alt? && v.index < |s.alts| && ok(v)
      && exists mid :: Written(s.alts[v.index].shape, v.value, mid)
                       && ts == Framed(BeginVariantField(name, Ids(s.alts), v.index), mid, EndField)
    else
      ok(v) && exists mid :: Written(s, v, mid) && ts == Framed(BeginField(name), mid, EndField)
  }

  /** A field that may be absent. */
  ghost predicate MaybeWritten(name: string, s: Shape, ok: Value -> bool, v: Option<Value>, ts: seq<Token>)
    decreases s, 2, 0
  {
    if v.None? then AbsentWritten(name, s, ts)
    else if s.Variant? then
      var x := v.value;
      && x.Alt? && x.index < |s.alts| && ok(x)
      && exists mid :: Written(s.alts[x.index].shape, x.value, mid)
                       && ts == Framed(BeginOptionalVariantField(name, true, Ids(s.alts), x.index), mid, EndField)
    else
      && !s.Optional? && ok(v.value)
      && exists mid :: Written(s, v.value, mid) && ts == Framed(BeginOptionalField(name, true), mid, EndField)
  }

  ghost predicate AbsentWritten(name: string, s: Shape, ts: seq<Token>) {
    && |ts| == 2 && ts[1] == EndField
    && if s.Variant?
       then ts[0].BeginOptionalVariantField? && ts[0].name == name && !ts[0].present && ts[0].types == Ids(s.alts)
       else ts[0] == BeginOptionalField(name, false)
  }

  // -- what is loaded was written ---------------------------------------------

  lemma Reframe(ts: seq<Token>, mid: seq<Token>, rest: seq<Token>, e: Token)
    requires ts != [] && ts[1..] == mid + rest && Starts(rest, e)
    ensures ts == Framed(ts[0], mid, e) + rest[1..]
  {
    assert ts == [ts[0]] + ts[1..] && rest == [e] + rest[1..];
  }

  lemma {:induction false} OnwardsShift<T>(p: seq<T>, ps: seq<seq<T>>, i: nat)
    requires i <= |ps|
    ensures Onwards([p] + ps, i + 1) == Onwards(ps, i)
    decreases |ps| - i
  {
    assert |[p] + ps| == |ps| + 1;
    if i < |ps| {
      assert ([p] + ps)[i + 1] == ps[i];
      OnwardsShift(p, ps, i + 1);
    }
  }

  /** One more piece in front of those that lead to `rest`. */
  lemma {:induction false} OnwardsFirst<T>(p: seq<T>, ps: seq<seq<T>>, rest: seq<T>)
    ensures Onwards([p] + ps, 0) + rest == p + (Onwards(ps, 0) + rest)
  {
    OnwardsShift(p, ps, 0);
    Associative(p, Onwards(ps, 0), rest);
  }

  /** The tokens that a successful load consumes. */
  lemma {:induction false} LoadedWasWritten(s: Shape, ts: seq<Token>) returns (a: seq<Token>)
    requires Supported(s) && LoadValue(s, ts).Ok?
    ensures ts == a + LoadValue(s, ts).rest && Written(s, LoadValue(s, ts).value, a)
    decreases s, Rank(s), 0
  {
    match s
    case Builtin => a := [ts[0]];
    case Tuple(items) =>
      var ps := PartsWereWritten(s, 0, ts[1..]);
      Reframe(ts, Onwards(ps, 0), LoadParts(s, 0, ts[1..]).rest, EndTuple);
      a := Framed(ts[0], Onwards(ps, 0), EndTuple);
      AllParts(s, LoadParts(s, 0, ts[1..]).value, ps);
    case Listing(_) =>
      var ps := ElementsWereWritten(s, ts[0].size, ts[1..]);
      Reframe(ts, Onwards(ps, 0), LoadElements(s, ts[0].size, ts[1..]).rest, EndSequence);
      a := Framed(ts[0], Onwards(ps, 0), EndSequence);
    case Mapping(_, _) =>
      a := MappingWasWritten(s, ts);
    case Object(_, _) =>
      var ps := FieldsWereWritten(s, 0, ts[1..]);
      Reframe(ts, Onwards(ps, 0), LoadFields(s, 0, ts[1..]).rest, EndObject);
      a := Framed(ts[0], Onwards(ps, 0), EndObject);
      AllFields(s, LoadFields(s, 0, ts[1..]).value, ps);
    case _ =>
      var mid := FieldWasWritten("value", s, _ => true, ts[1..]);
      Reframe(ts, mid, LoadField("value", s, _ => true, ts[1..]).rest, EndObject);
      a := Framed(ts[0], mid, EndObject);
  }

  /** `ps` are written forms of `vs`, the parts of a tuple from the `i`-th on. */
  ghost predicate LastPartsWritten(s: Shape, i: nat, vs: seq<Value>, ps: seq<seq<Token>>)
    requires s.Tuple?
  {
    && |ps| == |vs| && i + |vs| == |s.items|
    && forall k :: i <= k < |s.items| ==> Written(s.items[k], vs[k - i], ps[k - i])
  }

  lemma {:induction false} AllParts(s: Shape, vs: seq<Value>, ps: seq<seq<Token>>)
    requires s.Tuple? && LastPartsWritten(s, 0, vs, ps)
    ensures PartsWritten(s, vs, ps)
  {
    forall k | 0 <= k < |vs| ensures Written(s.items[k], vs[k], ps[k]) {
      assert Written(s.items[k], vs[k - 0], ps[k - 0]);
    }
  }

  lemma {:induction false} PartBefore(s: Shape, i: nat, v: Value, p: seq<Token>, vs: seq<Value>, ps: seq<seq<Token>>)
    requires s.Tuple? && i < |s.items| && Written(s.items[i], v, p) && LastPartsWritten(s, i + 1, vs, ps)
    ensures LastPartsWritten(s, i, [v] + vs, [p] + ps)
  {
    forall k | i <= k < |s.items| ensures Written(s.items[k], ([v] + vs)[k - i], ([p] + ps)[k - i]) {
      if k > i {
        assert Written(s.items[k], vs[k - (i + 1)], ps[k - (i + 1)]);
      }
    }
  }

  lemma {:induction false} PartsWereWritten(s: Shape, i: nat, ts: seq<Token>) returns (ps: seq<seq<Token>>)
    requires s.Tuple? && Supported(s) && i <= |s.items| && LoadParts(s, i, ts).Ok?
    ensures var r := LoadParts(s, i, ts); LastPartsWritten(s, i, r.value, ps) && ts == Onwards(ps, 0) + r.rest
    decreases s, 0, |s.items| - i
  {
    if i == |s.items| {
      ps := [];
    } else {
      var r := LoadValue(s.items[i], ts);
      var head := LoadedWasWritten(s.items[i], ts);
      var tail := PartsWereWritten(s, i + 1, r.rest);
      var more := LoadParts(s, i + 1, r.rest);
      ps := [head] + tail;
      OnwardsFirst(head, tail, more.rest);
      PartBefore(s, i, r.value, head, more.value, tail);
    }
  }

  lemma {:induction false} ElementsWereWritten(s: Shape, n: nat, ts: seq<Token>) returns (ps: seq<seq<Token>>)
    requires s.Listing? && Supported(s) && LoadElements(s, n, ts).Ok?
    ensures var r := LoadElements(s, n, ts);
      |r.value| == n && ElementsWritten(s, r.value, ps) && ts == Onwards(ps, 0) + r.rest
    decreases s, 0, n
  {
    if n == 0 {
      ps := [];
    } else {
      var r := LoadValue(s.item, ts);
      var head := LoadedWasWritten(s.item, ts);
      var tail := ElementsWereWritten(s, n - 1, r.rest);
      var more := LoadElements(s, n - 1, r.rest);
      ps := [head] + tail;
      OnwardsFirst(head, tail, more.rest);
      ElementBefore(s, r.value, head, more.value, tail);
    }
  }

  lemma {:induction false} ElementBefore(s: Shape, v: Value, p: seq<Token>, vs: seq<Value>, ps: seq<seq<Token>>)
    requires s.Listing? && Written(s.item, v, p) && ElementsWritten(s, vs, ps)
    ensures ElementsWritten(s, [v] + vs, [p] + ps)
  {
    forall k | 0 <= k < |vs| + 1 ensures Written(s.item, ([v] + vs)[k], ([p] + ps)[k]) {
      Fronted(v, vs, k);
      Fronted(p, ps, k);
    }
  }

  lemma {:induction false} MappingWasWritten(s: Shape, ts: seq<Token>) returns (a: seq<Token>)
    requires s.Mapping? && Supported(s) && LoadValue(s, ts).Ok?
    ensures ts == a + LoadValue(s, ts).rest && Written(s, LoadValue(s, ts).value, a)
    decreases s, 0, ts[0].size + 2
  {
    var fs, ps := EntriesWereWritten(s, ts[0].size, [], ts[1..]);
    LoadedKeysDiffer(s, ts[0].size, [], ts[1..]);
    assert [] + fs == fs;
    Reframe(ts, Onwards(ps, 0), LoadEntries(s, ts[0].size, [], ts[1..]).rest, EndAssociativeArray);
    a := Framed(ts[0], Onwards(ps, 0), EndAssociativeArray);
  }

  /** `fs` are the entries that are read after `es`. */
  lemma {:induction false} EntriesWereWritten(s: Shape, n: nat, es: seq<(Value, Value)>, ts: seq<Token>)
    returns (fs: seq<(Value, Value)>, ps: seq<seq<Token>>)
    requires s.Mapping? && Supported(s) && LoadEntries(s, n, es, ts).Ok?
    ensures var r := LoadEntries(s, n, es, ts);
      |fs| == n && r.value == es + fs && EntriesWritten(s, fs, ps) && ts == Onwards(ps, 0) + r.rest
    decreases s, 0, n + 1
  {
    if n == 0 {
      fs, ps := [], [];
    } else {
      var e := LoadEntry(s, ts);
      var head := EntryWasWritten(s, ts);
      var more, tail := EntriesWereWritten(s, n - 1, es + [e.value], e.rest);
      fs, ps := [e.value] + more, [head] + tail;
      Associative(es, [e.value], more);
      OnwardsFirst(head, tail, LoadEntries(s, n - 1, es + [e.value], e.rest).rest);
      EntryBefore(s, e.value, head, more, tail);
    }
  }

  lemma {:induction false} EntryBefore(
      s: Shape, e: (Value, Value), p: seq<Token>, es: seq<(Value, Value)>, ps: seq<seq<Token>>)
    requires s.Mapping? && EntryWritten(s, e, p) && EntriesWritten(s, es, ps)
    ensures EntriesWritten(s, [e] + es, [p] + ps)
  {
    forall k | 0 <= k < |es| + 1 ensures EntryWritten(s, ([e] + es)[k], ([p] + ps)[k]) {
      Fronted(e, es, k);
      Fronted(p, ps, k);
    }
  }

  lemma Fronted<T>(x: T, xs: seq<T>, k: nat)
    requires k <= |xs|
    ensures ([x] + xs)[k] == if k == 0 then x else xs[k - 1]
  {
  }

  lemma {:induction false} LoadedKeysDiffer(s: Shape, n: nat, es: seq<(Value, Value)>, ts: seq<Token>)
    requires s.Mapping? && Supported(s) && DistinctKeys(es) && LoadEntries(s, n, es, ts).Ok?
    ensures DistinctKeys(LoadEntries(s, n, es, ts).value)
    decreases n
  {
    if n > 0 {
      var e := LoadEntry(s, ts);
      DistinctSnoc(es, e.value);
      LoadedKeysDiffer(s, n - 1, es + [e.value], e.rest);
    }
  }

  lemma DistinctSnoc(es: seq<(Value, Value)>, e: (Value, Value))
    requires DistinctKeys(es) && !HasKey(es, e.0)
    ensures DistinctKeys(es + [e])
  {
  }

  lemma {:induction false} EntryWasWritten(s: Shape, ts: seq<Token>) returns (a: seq<Token>)
    requires s.Mapping? && Supported(s) && LoadEntry(s, ts).Ok?
    ensures var r := LoadEntry(s, ts); ts == a + r.rest && EntryWritten(s, r.value, a)
    decreases s, 0, 0
  {
    var k := LoadValue(s.key, ts[1..]);
    var v := LoadValue(s.item, k.rest);
    var head := LoadedWasWritten(s.key, ts[1..]);
    var tail := LoadedWasWritten(s.item, k.rest);
    Associative(head, tail, v.rest);
    Reframe(ts, head + tail, v.rest, EndKeyValuePair);
    a := Framed(ts[0], head + tail, EndKeyValuePair);
  }

  /** `ps` are written forms of `vs`, the fields of an object from the `i`-th on. */
  ghost predicate LastFieldsWritten(s: Shape, i: nat, vs: seq<Value>, ps: seq<seq<Token>>)
    requires s.Object?
  {
    && |ps| == |vs| && i + |vs| == |s.fields|
    && forall k :: i <= k < |s.fields| ==> MemberWritten(s.fields[k], vs[k - i], ps[k - i])
  }

  lemma {:induction false} AllFields(s: Shape, vs: seq<Value>, ps: seq<seq<Token>>)
    requires s.Object? && LastFieldsWritten(s, 0, vs, ps)
    ensures FieldsWritten(s, vs, ps)
  {
    forall k | 0 <= k < |vs| ensures MemberWritten(s.fields[k], vs[k], ps[k]) {
      assert MemberWritten(s.fields[k], vs[k - 0], ps[k - 0]);
    }
  }

  lemma {:induction false} FieldBefore(s: Shape, i: nat, v: Value, p: seq<Token>, vs: seq<Value>, ps: seq<seq<Token>>)
    requires s.Object? && i < |s.fields| && MemberWritten(s.fields[i], v, p) && LastFieldsWritten(s, i + 1, vs, ps)
    ensures LastFieldsWritten(s, i, [v] + vs, [p] + ps)
  {
    forall k | i <= k < |s.fields| ensures MemberWritten(s.fields[k], ([v] + vs)[k - i], ([p] + ps)[k - i]) {
      if k > i {
        assert MemberWritten(s.fields[k], vs[k - (i + 1)], ps[k - (i + 1)]);
      }
    }
  }

  lemma {:induction false} FieldsWereWritten(s: Shape, i: nat, ts: seq<Token>) returns (ps: seq<seq<Token>>)
    requires s.Object? && Supported(s) && i <= |s.fields| && LoadFields(s, i, ts).Ok?
    ensures var r := LoadFields(s, i, ts); LastFieldsWritten(s, i, r.value, ps) && ts == Onwards(ps, 0) + r.rest
    decreases s, 0, |s.fields| - i
  {
    if i == |s.fields| {
      ps := [];
    } else {
      var r := LoadMember(s.fields[i], ts);
      var head := MemberWasWritten(s.fields[i], ts);
      var tail := FieldsWereWritten(s, i + 1, r.rest);
      var more := LoadFields(s, i + 1, r.rest);
      ps := [head] + tail;
      OnwardsFirst(head, tail, more.rest);
      FieldBefore(s, i, r.value, head, more.value, tail);
    }
  }

  lemma {:induction false} MemberWasWritten(f: Field, ts: seq<Token>) returns (a: seq<Token>)
    requires Supported(f.shape) && FallbackFits(f) && LoadMember(f, ts).Ok?
    ensures var r := LoadMember(f, ts); ts == a + r.rest && MemberWritten(f, r.value, a)
    decreases f.shape, 4, 0
  {
    if f.fallback.Some? {
      a := MaybeWasWritten(f.name, f.shape, f.admits, ts);
    } else {
      a := FieldWasWritten(f.name, f.shape, f.admits, ts);
    }
  }

  lemma {:induction false} FieldWasWritten(name: string, s: Shape, ok: Value -> bool, ts: seq<Token>)
    returns (a: seq<Token>)
    requires Supported(s) && LoadField(name, s, ok, ts).Ok?
    ensures var r := LoadField(name, s, ok, ts); ts == a + r.rest && FieldWritten(name, s, ok, r.value, a)
    decreases s, 2, 0
  {
    if s.Optional? {
      a := MaybeWasWritten(name, s.item, ok, ts);
    } else if s.Variant? {
      var mid := AlternativeWasWritten(name, s, ts[0].index, ts[1..]);
      Reframe(ts, mid, LoadAlternative(name, s, ts[0].index, ts[1..]).rest, EndField);
      a := Framed(ts[0], mid, EndField);
    } else {
      var mid := LoadedWasWritten(s, ts[1..]);
      Reframe(ts, mid, LoadValue(s, ts[1..]).rest, EndField);
      a := Framed(ts[0], mid, EndField);
    }
  }

  lemma {:induction false} MaybeWasWritten(name: string, s: Shape, ok: Value -> bool, ts: seq<Token>)
    returns (a: seq<Token>)
    requires Supported(s) && !s.Optional? && LoadOptionalField(name, s, ok, ts).Ok?
    ensures var r := LoadOptionalField(name, s, ok, ts); ts == a + r.rest && MaybeWritten(name, s, ok, r.value, a)
    decreases s, 2, 0
  {
    if LoadOptionalField(name, s, ok, ts).value.None? {
      a := [ts[0], EndField];
      assert ts == a + ts[1..][1..];
    } else if s.Variant? {
      var mid := AlternativeWasWritten(name, s, ts[0].index, ts[1..]);
      Reframe(ts, mid, LoadAlternative(name, s, ts[0].index, ts[1..]).rest, EndField);
      a := Framed(ts[0], mid, EndField);
    } else {
      var mid := LoadedWasWritten(s, ts[1..]);
      Reframe(ts, mid, LoadValue(s, ts[1..]).rest, EndField);
      a := Framed(ts[0], mid, EndField);
    }
  }

  lemma {:induction false} AlternativeWasWritten(name: string, s: Shape, index: nat, ts: seq<Token>)
    returns (a: seq<Token>)
    requires s.Variant? && Supported(s) && LoadAlternative(name, s, index, ts).Ok?
    ensures var r := LoadAlternative(name, s, index, ts);
      && r.value.Alt? && r.value.index == index < |s.alts|
      && ts == a + r.rest && Written(s.alts[index].shape, r.value.value, a)
    decreases s, 0, 0
  {
    assert FindType(s.alts, s.alts[index].id) == index;
    a := LoadedWasWritten(s.alts[index].shape, ts);
  }
}
