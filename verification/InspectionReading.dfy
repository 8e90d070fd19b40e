/**
 The loader reads exactly the written forms: each of them loads as the value it
 stands for, nothing else loads, and what is wrong with other tokens decides the
 error (libcaf_core/caf/load_inspector_base.hpp, libcaf_core/caf/load_inspector.hpp,
 libcaf_core/caf/inspector_access.hpp).
 */
module InspectionReading {
  import opened Basics
  import opened Inspection
  import opened InspectionForms
  import InspectionRoundTrip

  lemma FrameOpens(b: Token, mid: seq<Token>, e: Token, rest: seq<Token>)
    ensures var ts := Framed(b, mid, e) + rest;
      ts != [] && ts[0] == b && ts[1..] == mid + ([e] + rest)
    ensures Starts([e] + rest, e) && ([e] + rest)[1..] == rest
  {
  }

  // -- lists of pieces that load ----------------------------------------------

  /** `p` loads as `v`, whatever follows. */
  ghost predicate PieceLoads(s: Shape, v: Value, p: seq<Token>)
    requires Supported(s)
  {
    forall rest {:trigger LoadValue(s, p + rest)} :: LoadValue(s, p + rest) == Ok(v, rest)
  }

  ghost predicate MemberPieceLoads(f: Field, v: Value, p: seq<Token>)
    requires Supported(f.shape) && FallbackFits(f)
  {
    forall rest {:trigger LoadMember(f, p + rest)} :: LoadMember(f, p + rest) == Ok(v, rest)
  }

  /** The values `vs` come before those of `r`; an error of `r` stays. */
  function PrependAll(vs: seq<Value>, r: Loaded<seq<Value>>): Loaded<seq<Value>> {
    if r.Ok? then Ok(vs + r.value, r.rest) else r
  }

  lemma PrependFirst(vs: seq<Value>, i: nat, r: Loaded<seq<Value>>)
    requires i < |vs|
    ensures PrependAll(vs[i..], r) == Prepend(vs[i], PrependAll(vs[i + 1..], r))
  {
    if r.Ok? {
      assert vs[i..] + r.value == [vs[i]] + (vs[i + 1..] + r.value);
    }
  }

  lemma PrependNone(vs: seq<Value>, r: Loaded<seq<Value>>)
    ensures PrependAll(vs[|vs|..], r) == r
    ensures r.Ok? && r.value == [] ==> PrependAll(vs[0..], r) == Ok(vs, r.rest)
  {
    if r.Ok? {
      assert vs[|vs|..] + r.value == r.value && (r.value == [] ==> vs[0..] + r.value == vs);
    }
  }

  /** Pieces that load as parts are loaded one by one; what comes of the following tokens decides the rest. */
  lemma {:induction false} PartsLoad(s: Shape, i: nat, vs: seq<Value>, ps: seq<seq<Token>>, rest: seq<Token>)
    requires s.Tuple? && Supported(s) && i <= |ps| == |vs| <= |s.items|
    requires forall k :: 0 <= k < |vs| ==> PieceLoads(s.items[k], vs[k], ps[k])
    ensures LoadParts(s, i, Onwards(ps, i) + rest) == PrependAll(vs[i..], LoadParts(s, |vs|, rest))
    decreases |vs| - i
  {
    var r := LoadParts(s, |vs|, rest);
    if i == |vs| {
      PrependNone(vs, r);
      assert Onwards(ps, i) + rest == rest;
    } else {
      PartsLoad(s, i + 1, vs, ps, rest);
      Associative(ps[i], Onwards(ps, i + 1), rest);
      assert PieceLoads(s.items[i], vs[i], ps[i]);
      PrependFirst(vs, i, r);
    }
  }

  lemma {:induction false} ElementsLoad(
      s: Shape, n: nat, m: nat, i: nat, vs: seq<Value>, ps: seq<seq<Token>>, rest: seq<Token>)
    requires s.Listing? && Supported(s) && i <= |ps| == |vs| && n == |vs| - i + m
    requires forall k :: 0 <= k < |vs| ==> PieceLoads(s.item, vs[k], ps[k])
    ensures LoadElements(s, n, Onwards(ps, i) + rest) == PrependAll(vs[i..], LoadElements(s, m, rest))
    decreases |vs| - i
  {
    var r := LoadElements(s, m, rest);
    if i == |vs| {
      PrependNone(vs, r);
      assert Onwards(ps, i) + rest == rest;
    } else {
      ElementsLoad(s, n - 1, m, i + 1, vs, ps, rest);
      Associative(ps[i], Onwards(ps, i + 1), rest);
      assert PieceLoads(s.item, vs[i], ps[i]);
      PrependFirst(vs, i, r);
    }
  }

  lemma {:induction false} FieldsLoad(s: Shape, i: nat, vs: seq<Value>, ps: seq<seq<Token>>, rest: seq<Token>)
    requires s.Object? && Supported(s) && i <= |ps| == |vs| <= |s.fields|
    requires forall k :: 0 <= k < |vs| ==> MemberPieceLoads(s.fields[k], vs[k], ps[k])
    ensures LoadFields(s, i, Onwards(ps, i) + rest) == PrependAll(vs[i..], LoadFields(s, |vs|, rest))
    decreases |vs| - i
  {
    var r := LoadFields(s, |vs|, rest);
    if i == |vs| {
      PrependNone(vs, r);
      assert Onwards(ps, i) + rest == rest;
    } else {
      FieldsLoad(s, i + 1, vs, ps, rest);
      Associative(ps[i], Onwards(ps, i + 1), rest);
      assert MemberPieceLoads(s.fields[i], vs[i], ps[i]);
      PrependFirst(vs, i, r);
    }
  }

  /** `p` loads as the entry `e`, whatever follows. */
  ghost predicate EntryPieceLoads(s: Shape, e: (Value, Value), p: seq<Token>)
    requires s.Mapping? && Supported(s)
  {
    forall rest {:trigger LoadEntry(s, p + rest)} :: LoadEntry(s, p + rest) == Ok(e, rest)
  }

  ghost predicate EntryPiecesLoad(s: Shape, es: seq<(Value, Value)>, ps: seq<seq<Token>>)
    requires s.Mapping? && Supported(s)
  {
    |ps| == |es| && forall k :: 0 <= k < |es| ==> EntryPieceLoads(s, es[k], ps[k])
  }

  lemma {:induction false} EntryAdds(
      s: Shape, m: nat, es: seq<(Value, Value)>, e: (Value, Value), p: seq<Token>, rest: seq<Token>)
    requires s.Mapping? && Supported(s) && m > 0 && EntryPieceLoads(s, e, p)
    ensures LoadEntries(s, m, es, p + rest)
         == if HasKey(es, e.0) then Err(MultipleKeyDefinitions) else LoadEntries(s, m - 1, es + [e], rest)
  {
  }

  lemma {:induction false} OnwardsLast<T>(ps: seq<seq<T>>, i: nat, rest: seq<T>)
    requires i < |ps|
    ensures Onwards(ps, i) + rest == Onwards(ps[..|ps| - 1], i) + (ps[|ps| - 1] + rest)
    decreases |ps| - i
  {
    var init, last := ps[..|ps| - 1], ps[|ps| - 1];
    if i == |ps| - 1 {
      assert Onwards(ps, i) == last + [];
    } else {
      OnwardsLast(ps, i + 1, rest);
      Associative(ps[i], Onwards(ps, i + 1), rest);
      Associative(ps[i], Onwards(init, i + 1), last + rest);
    }
  }

  lemma DistinctLast(es: seq<(Value, Value)>, e: (Value, Value))
    ensures DistinctKeys(es + [e]) <==> DistinctKeys(es) && !HasKey(es, e.0)
  {
    if DistinctKeys(es + [e]) {
      forall i | 0 <= i < |es| ensures es[i].0 != e.0 {
        assert (es + [e])[i] == es[i] && (es + [e])[|es|] == e;
      }
      assert forall i :: 0 <= i < |es| ==> (es + [e])[i] == es[i];
    }
  }

  /** What the load of entries from `ts` comes to: those of `es`, then `m` more from `rest`, unless a key is repeated. */
  ghost predicate LoadsUnlessRepeated(
      s: Shape, n: nat, ts: seq<Token>, es: seq<(Value, Value)>, m: nat, rest: seq<Token>)
    requires s.Mapping? && Supported(s)
  {
    LoadEntries(s, n, [], ts) == if DistinctKeys(es) then LoadEntries(s, m, es, rest) else Err(MultipleKeyDefinitions)
  }

  lemma {:induction false} OneMoreEntry(
      s: Shape, n: nat, ts: seq<Token>, es: seq<(Value, Value)>, e: (Value, Value), m: nat, p: seq<Token>,
      rest: seq<Token>)
    requires s.Mapping? && Supported(s) && LoadsUnlessRepeated(s, n, ts, es, m + 1, p + rest) && EntryPieceLoads(s, e, p)
    ensures LoadsUnlessRepeated(s, n, ts, es + [e], m, rest)
  {
    EntryAdds(s, m + 1, es, e, p, rest);
    DistinctLast(es, e);
  }

  lemma {:induction false} InitLoads(s: Shape, es: seq<(Value, Value)>, ps: seq<seq<Token>>)
    requires s.Mapping? && Supported(s) && EntryPiecesLoad(s, es, ps) && es != []
    ensures EntryPiecesLoad(s, es[..|es| - 1], ps[..|es| - 1]) && EntryPieceLoads(s, es[|es| - 1], ps[|es| - 1])
  {
    var k := |es| - 1;
    forall i | 0 <= i < k ensures EntryPieceLoads(s, es[..k][i], ps[..k][i]) {
      assert es[..k][i] == es[i] && ps[..k][i] == ps[i];
    }
  }

  /** Pieces that load as entries are loaded one by one; the `m` entries that follow decide the rest. */
  lemma {:induction false} EntriesLoad(
      s: Shape, n: nat, es: seq<(Value, Value)>, ps: seq<seq<Token>>, m: nat, rest: seq<Token>)
    requires s.Mapping? && Supported(s) && EntryPiecesLoad(s, es, ps) && n == |es| + m
    ensures LoadsUnlessRepeated(s, n, Onwards(ps, 0) + rest, es, m, rest)
    decreases |es|
  {
    if es == [] {
      assert Onwards(ps, 0) + rest == rest;
    } else {
      var k := |es| - 1;
      InitLoads(s, es, ps);
      OnwardsLast(ps, 0, rest);
      EntriesLoad(s, n, es[..k], ps[..k], m + 1, ps[k] + rest);
      OneMoreEntry(s, n, Onwards(ps, 0) + rest, es[..k], es[k], m, ps[k], rest);
      assert es == es[..k] + [es[k]];
    }
  }

  // -- what is written can be loaded ------------------------------------------

  lemma {:induction false} WrittenLoads(s: Shape, v: Value, ts: seq<Token>, rest: seq<Token>)
    requires Supported(s) && Written(s, v, ts)
    ensures LoadValue(s, ts + rest) == Ok(v, rest)
    decreases s, Rank(s), 0
  {
    match s
    case Builtin => assert (ts + rest)[1..] == rest;
    case Tuple(_) => TupleLoads(s, v, ts, rest);
    case Listing(_) => ListingLoads(s, v, ts, rest);
    case Mapping(_, _) => MappingLoads(s, v, ts, rest);
    case Object(_, _) => ObjectLoads(s, v, ts, rest);
    case _ =>
      var mid :| FieldWritten("value", s, _ => true, v, mid) && ts == Framed(BeginObject("anonymous"), mid, EndObject);
      FrameOpens(BeginObject("anonymous"), mid, EndObject, rest);
      FieldLoads("value", s, _ => true, v, mid, [EndObject] + rest);
  }

  lemma {:induction false} TupleLoads(s: Shape, v: Value, ts: seq<Token>, rest: seq<Token>)
    requires s.Tuple? && Supported(s) && Written(s, v, ts)
    ensures LoadValue(s, ts + rest) == Ok(v, rest)
    decreases s, 0, 1
  {
    var b := BeginTuple(|s.items|);
    var ps :| PartsWritten(s, v.items, ps) && ts == Framed(b, Onwards(ps, 0), EndTuple);
    FrameOpens(b, Onwards(ps, 0), EndTuple, rest);
    PartsWrittenLoad(s, v.items, ps);
    PartsLoad(s, 0, v.items, ps, [EndTuple] + rest);
    PrependNone(v.items, LoadParts(s, |s.items|, [EndTuple] + rest));
  }

  lemma {:induction false} PartsWrittenLoad(s: Shape, vs: seq<Value>, ps: seq<seq<Token>>)
    requires s.Tuple? && Supported(s) && PartsWritten(s, vs, ps)
    ensures forall k :: 0 <= k < |vs| ==> PieceLoads(s.items[k], vs[k], ps[k])
    decreases s, 0, 0
  {
    forall k, rest | 0 <= k < |vs| ensures LoadValue(s.items[k], ps[k] + rest) == Ok(vs[k], rest) {
      WrittenLoads(s.items[k], vs[k], ps[k], rest);
    }
  }

  lemma {:induction false} ListingLoads(s: Shape, v: Value, ts: seq<Token>, rest: seq<Token>)
    requires s.Listing? && Supported(s) && Written(s, v, ts)
    ensures LoadValue(s, ts + rest) == Ok(v, rest)
    decreases s, 0, 1
  {
    var b := BeginSequence(|v.items|);
    var ps :| ElementsWritten(s, v.items, ps) && ts == Framed(b, Onwards(ps, 0), EndSequence);
    FrameOpens(b, Onwards(ps, 0), EndSequence, rest);
    ElementsWrittenLoad(s, v.items, ps);
    ElementsLoad(s, |v.items|, 0, 0, v.items, ps, [EndSequence] + rest);
    PrependNone(v.items, LoadElements(s, 0, [EndSequence] + rest));
  }

  lemma {:induction false} ElementsWrittenLoad(s: Shape, vs: seq<Value>, ps: seq<seq<Token>>)
    requires s.Listing? && Supported(s) && ElementsWritten(s, vs, ps)
    ensures forall k :: 0 <= k < |vs| ==> PieceLoads(s.item, vs[k], ps[k])
    decreases s, 0, 0
  {
    forall k, rest | 0 <= k < |vs| ensures LoadValue(s.item, ps[k] + rest) == Ok(vs[k], rest) {
      WrittenLoads(s.item, vs[k], ps[k], rest);
    }
  }

  lemma {:induction false} MappingLoads(s: Shape, v: Value, ts: seq<Token>, rest: seq<Token>)
    requires s.Mapping? && Supported(s) && Written(s, v, ts)
    ensures LoadValue(s, ts + rest) == Ok(v, rest)
    decreases s, 0, 5
  {
    var n, b := |v.entries|, BeginAssociativeArray(|v.entries|);
    var ps :| EntriesWritten(s, v.entries, ps) && ts == Framed(b, Onwards(ps, 0), EndAssociativeArray);
    FrameOpens(b, Onwards(ps, 0), EndAssociativeArray, rest);
    WrittenEntriesLoad(s, n, v.entries, ps, [EndAssociativeArray] + rest);
  }

  /** Written entries are loaded if their keys differ, and refused for a repeated key otherwise. */
  lemma {:induction false} WrittenEntriesLoad(
      s: Shape, n: nat, es: seq<(Value, Value)>, ps: seq<seq<Token>>, rest: seq<Token>)
    requires s.Mapping? && Supported(s) && EntriesWritten(s, es, ps) && |es| <= n
    ensures LoadsUnlessRepeated(s, n, Onwards(ps, 0) + rest, es, n - |es|, rest)
    decreases s, 0, 2
  {
    EntriesWrittenLoad(s, es, ps);
    EntriesLoad(s, n, es, ps, n - |es|, rest);
  }

  lemma {:induction false} EntriesWrittenLoad(s: Shape, es: seq<(Value, Value)>, ps: seq<seq<Token>>)
    requires s.Mapping? && Supported(s) && EntriesWritten(s, es, ps)
    ensures EntryPiecesLoad(s, es, ps)
    decreases s, 0, 1
  {
    forall k | 0 <= k < |es| ensures EntryPieceLoads(s, es[k], ps[k]) {
      forall rest ensures LoadEntry(s, ps[k] + rest) == Ok(es[k], rest) {
        EntryLoads(s, es[k], ps[k], rest);
      }
    }
  }

  lemma {:induction false} ObjectLoads(s: Shape, v: Value, ts: seq<Token>, rest: seq<Token>)
    requires s.Object? && Supported(s) && Written(s, v, ts)
    ensures LoadValue(s, ts + rest) == Ok(v, rest)
    decreases s, 0, 1
  {
    var b := BeginObject(s.name);
    var ps :| FieldsWritten(s, v.items, ps) && ts == Framed(b, Onwards(ps, 0), EndObject);
    FrameOpens(b, Onwards(ps, 0), EndObject, rest);
    FieldsWrittenLoad(s, v.items, ps);
    FieldsLoad(s, 0, v.items, ps, [EndObject] + rest);
    PrependNone(v.items, LoadFields(s, |s.fields|, [EndObject] + rest));
  }

  lemma {:induction false} FieldsWrittenLoad(s: Shape, vs: seq<Value>, ps: seq<seq<Token>>)
    requires s.Object? && Supported(s) && FieldsWritten(s, vs, ps)
    ensures forall k :: 0 <= k < |vs| ==> MemberPieceLoads(s.fields[k], vs[k], ps[k])
    decreases s, 0, 0
  {
    forall k, rest | 0 <= k < |vs| ensures LoadMember(s.fields[k], ps[k] + rest) == Ok(vs[k], rest) {
      MemberLoads(s.fields[k], vs[k], ps[k], rest);
    }
  }

  lemma {:induction false} EntryLoads(s: Shape, e: (Value, Value), ts: seq<Token>, rest: seq<Token>)
    requires s.Mapping? && Supported(s) && EntryWritten(s, e, ts)
    ensures LoadEntry(s, ts + rest) == Ok(e, rest)
    decreases s, 0, 0
  {
    var a, b :| Written(s.key, e.0, a) && Written(s.item, e.1, b)
                && ts == Framed(BeginKeyValuePair, a + b, EndKeyValuePair);
    FrameOpens(BeginKeyValuePair, a + b, EndKeyValuePair, rest);
    Associative(a, b, [EndKeyValuePair] + rest);
    WrittenLoads(s.key, e.0, a, b + ([EndKeyValuePair] + rest));
    WrittenLoads(s.item, e.1, b, [EndKeyValuePair] + rest);
  }

  lemma {:induction false} MemberLoads(f: Field, v: Value, ts: seq<Token>, rest: seq<Token>)
    requires Supported(f.shape) && FallbackFits(f) && MemberWritten(f, v, ts)
    ensures LoadMember(f, ts + rest) == Ok(v, rest)
    decreases f.shape, 4, 0
  {
    if f.fallback.None? {
      FieldLoads(f.name, f.shape, f.admits, v, ts, rest);
    } else if MaybeWritten(f.name, f.shape, f.admits, Some(v), ts) {
      MaybeLoads(f.name, f.shape, f.admits, Some(v), ts, rest);
    } else {
      MaybeLoads(f.name, f.shape, f.admits, None, ts, rest);
    }
  }

  lemma {:induction false} FieldLoads(
      name: string, s: Shape, ok: Value -> bool, v: Value, ts: seq<Token>, rest: seq<Token>)
    requires Supported(s) && FieldWritten(name, s, ok, v, ts)
    ensures LoadField(name, s, ok, ts + rest) == Ok(v, rest)
    decreases s, 2, 0
  {
    if s.Optional? {
      MaybeLoads(name, s.item, ok, if v.Nothing? then None else Some(v.value), ts, rest);
    } else if s.Variant? {
      VariantFieldLoads(name, s, ok, v, ts, rest);
    } else {
      PlainFieldLoads(name, s, ok, v, ts, rest);
    }
  }

  lemma {:induction false} PlainFieldLoads(
      name: string, s: Shape, ok: Value -> bool, v: Value, ts: seq<Token>, rest: seq<Token>)
    requires !s.Optional? && !s.Variant? && Supported(s) && FieldWritten(name, s, ok, v, ts)
    ensures LoadField(name, s, ok, ts + rest) == Ok(v, rest)
    decreases s, 1, 1
  {
    var mid :| Written(s, v, mid) && ts == Framed(BeginField(name), mid, EndField);
    FrameOpens(BeginField(name), mid, EndField, rest);
    WrittenLoads(s, v, mid, [EndField] + rest);
  }

  lemma {:induction false} VariantFieldLoads(
      name: string, s: Shape, ok: Value -> bool, v: Value, ts: seq<Token>, rest: seq<Token>)
    requires s.Variant? && Supported(s) && FieldWritten(name, s, ok, v, ts)
    ensures LoadField(name, s, ok, ts + rest) == Ok(v, rest)
    decreases s, 1, 0
  {
    var b := BeginVariantField(name, Ids(s.alts), v.index);
    var mid :| Written(s.alts[v.index].shape, v.value, mid) && ts == Framed(b, mid, EndField);
    FrameOpens(b, mid, EndField, rest);
    AlternativeLoads(name, s, v, mid, [EndField] + rest);
  }

  lemma {:induction false} MaybeLoads(
      name: string, s: Shape, ok: Value -> bool, v: Option<Value>, ts: seq<Token>, rest: seq<Token>)
    requires Supported(s) && !s.Optional? && MaybeWritten(name, s, ok, v, ts)
    ensures LoadOptionalField(name, s, ok, ts + rest) == Ok(v, rest)
    decreases s, 2, 0
  {
    if v.None? {
      assert (ts + rest)[1..] == [EndField] + rest && ([EndField] + rest)[1..] == rest;
    } else if s.Variant? {
      VariantMaybeLoads(name, s, ok, v.value, ts, rest);
    } else {
      PlainMaybeLoads(name, s, ok, v.value, ts, rest);
    }
  }

  lemma {:induction false} PlainMaybeLoads(
      name: string, s: Shape, ok: Value -> bool, v: Value, ts: seq<Token>, rest: seq<Token>)
    requires !s.Optional? && !s.Variant? && Supported(s) && MaybeWritten(name, s, ok, Some(v), ts)
    ensures LoadOptionalField(name, s, ok, ts + rest) == Ok(Some(v), rest)
    decreases s, 1, 1
  {
    var mid :| Written(s, v, mid) && ts == Framed(BeginOptionalField(name, true), mid, EndField);
    FrameOpens(BeginOptionalField(name, true), mid, EndField, rest);
    WrittenLoads(s, v, mid, [EndField] + rest);
  }

  lemma {:induction false} VariantMaybeLoads(
      name: string, s: Shape, ok: Value -> bool, v: Value, ts: seq<Token>, rest: seq<Token>)
    requires s.Variant? && Supported(s) && MaybeWritten(name, s, ok, Some(v), ts)
    ensures LoadOptionalField(name, s, ok, ts + rest) == Ok(Some(v), rest)
    decreases s, 1, 0
  {
    var b := BeginOptionalVariantField(name, true, Ids(s.alts), v.index);
    var mid :| Written(s.alts[v.index].shape, v.value, mid) && ts == Framed(b, mid, EndField);
    FrameOpens(b, mid, EndField, rest);
    AlternativeLoads(name, s, v, mid, [EndField] + rest);
  }

  lemma {:induction false} AlternativeLoads(name: string, s: Shape, v: Value, ts: seq<Token>, rest: seq<Token>)
    requires s.Variant? && Supported(s) && v.Alt? && v.index < |s.alts|
    requires Written(s.alts[v.index].shape, v.value, ts)
    ensures LoadAlternative(name, s, v.index, ts + rest) == Ok(v, rest)
    decreases s, 0, 0
  {
    WrittenLoads(s.alts[v.index].shape, v.value, ts, rest);
    assert FindType(s.alts, s.alts[v.index].id) == v.index;
  }

  // -- exactly the written forms load -----------------------------------------

  /** `ts` is a written form of `v` followed by `rest`. */
  ghost predicate Reads(s: Shape, ts: seq<Token>, v: Value, rest: seq<Token>) {
    exists a :: Written(s, v, a) && ts == a + rest
  }

  /** Tokens load as `v` with `rest` left over exactly if they are a written form of `v` followed by `rest`. */
  lemma {:induction false} LoadsExactlyWrittenForms(s: Shape, ts: seq<Token>, v: Value, rest: seq<Token>)
    requires Supported(s)
    ensures LoadValue(s, ts) == Ok(v, rest) <==> Reads(s, ts, v, rest)
  {
    if Reads(s, ts, v, rest) {
      var a :| Written(s, v, a) && ts == a + rest;
      WrittenLoads(s, v, a, rest);
    }
    if LoadValue(s, ts) == Ok(v, rest) {
      var a := LoadedWasWritten(s, ts);
    }
  }

  /** Saving a valid value yields one of its written forms. */
  lemma {:induction false} SavedFormIsWritten(s: Shape, v: Value)
    requires Supported(s) && Typed(s, v) && Valid(s, v)
    ensures Written(s, v, SaveValue(s, v))
  {
    var ts := SaveValue(s, v);
    InspectionRoundTrip.RoundValue(s, v, []);
    assert ts + [] == ts;
    var a := LoadedWasWritten(s, ts);
    assert a + [] == a;
  }

  /** A written form stands for one value, and none is the beginning of another. */
  lemma {:induction false} WrittenFormsAreUnambiguous(
      s: Shape, v: Value, w: Value, ts: seq<Token>, us: seq<Token>, r: seq<Token>, q: seq<Token>)
    requires Supported(s) && Written(s, v, ts) && Written(s, w, us) && ts + r == us + q
    ensures v == w && ts == us && r == q
  {
    WrittenLoads(s, v, ts, r);
    WrittenLoads(s, w, us, q);
    assert ts == (ts + r)[..|ts + r| - |r|] && us == (us + q)[..|us + q| - |q|];
  }

  // -- what is refused, and how -----------------------------------------------

  /** A map in which a key is repeated is refused for that reason, whatever follows the repeated key. */
  lemma {:induction false} RepeatedKeysAreRefused(
      s: Shape, n: nat, es: seq<(Value, Value)>, ps: seq<seq<Token>>, rest: seq<Token>)
    requires s.Mapping? && Supported(s) && |es| <= n && EntriesWritten(s, es, ps) && !DistinctKeys(es)
    ensures LoadValue(s, [BeginAssociativeArray(n)] + (Onwards(ps, 0) + rest)) == Err(MultipleKeyDefinitions)
  {
    var ts := Onwards(ps, 0) + rest;
    WrittenEntriesLoad(s, n, es, ps, rest);
    assert ([BeginAssociativeArray(n)] + ts)[1..] == ts;
  }

  /** A value that fails the invariant of its field is refused by the name of the field, whatever follows. */
  lemma {:induction false} FailedInvariantsAreRefused(
      name: string, s: Shape, ok: Value -> bool, v: Value, ts: seq<Token>, rest: seq<Token>)
    requires Supported(s) && !s.Optional? && !s.Variant? && Written(s, v, ts) && !ok(v)
    ensures LoadField(name, s, ok, [BeginField(name)] + (ts + rest)) == Err(InvariantCheckFailed(name))
    ensures LoadOptionalField(name, s, ok, [BeginOptionalField(name, true)] + (ts + rest))
         == Err(InvariantCheckFailed(name))
  {
    assert ([BeginField(name)] + (ts + rest))[1..] == ts + rest;
    assert ([BeginOptionalField(name, true)] + (ts + rest))[1..] == ts + rest;
    WrittenLoads(s, v, ts, rest);
  }

  lemma {:induction false} FailedVariantsAreRefused(
      name: string, s: Shape, ok: Value -> bool, v: Value, ts: seq<Token>, rest: seq<Token>)
    requires s.Variant? && Supported(s) && v.Alt? && v.index < |s.alts| && !ok(v)
    requires Written(s.alts[v.index].shape, v.value, ts)
    ensures LoadField(name, s, ok, [BeginVariantField(name, Ids(s.alts), v.index)] + (ts + rest))
         == Err(InvariantCheckFailed(name))
    ensures LoadOptionalField(name, s, ok, [BeginOptionalVariantField(name, true, Ids(s.alts), v.index)] + (ts + rest))
         == Err(InvariantCheckFailed(name))
  {
    assert ([BeginVariantField(name, Ids(s.alts), v.index)] + (ts + rest))[1..] == ts + rest;
    assert ([BeginOptionalVariantField(name, true, Ids(s.alts), v.index)] + (ts + rest))[1..] == ts + rest;
    AlternativeLoads(name, s, v, ts, rest);
  }

  /** A type index that no alternative has is refused by the name of the field. */
  lemma {:induction false} UnknownTypesAreRefused(
      name: string, s: Shape, ok: Value -> bool, index: nat, rest: seq<Token>)
    requires s.Variant? && Supported(s) && |s.alts| <= index
    ensures LoadField(name, s, ok, [BeginVariantField(name, Ids(s.alts), index)] + rest) == Err(InvalidFieldType(name))
    ensures LoadOptionalField(name, s, ok, [BeginOptionalVariantField(name, true, Ids(s.alts), index)] + rest)
         == Err(InvalidFieldType(name))
  {
  }

  /** A field that is refused after written ones makes the object be refused, for the same reason. */
  lemma {:induction false} RefusedFieldsRefuseTheObject(
      s: Shape, vs: seq<Value>, ps: seq<seq<Token>>, us: seq<Token>, e: Error)
    requires s.Object? && Supported(s) && |vs| < |s.fields| && FieldsWritten(s, vs, ps)
    requires LoadMember(s.fields[|vs|], us) == Err(e)
    ensures LoadValue(s, [BeginObject(s.name)] + (Onwards(ps, 0) + us)) == Err(e)
  {
    var ts := Onwards(ps, 0) + us;
    FieldsWrittenLoad(s, vs, ps);
    FieldsLoad(s, 0, vs, ps, us);
    assert ([BeginObject(s.name)] + ts)[1..] == ts;
  }
}
