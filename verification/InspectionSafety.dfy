/**
 What can be loaded is valid: whatever the tokens, a successful load yields a
 value of the right type whose fields satisfy their invariants. Together with
 the round trip this tells exactly which values survive saving and loading.
 */
module InspectionSafety {
  import opened Inspection
  import InspectionRoundTrip

  ghost predicate Good(s: Shape, v: Value) {
    Typed(s, v) && Valid(s, v)
  }

  lemma {:induction false} LoadedValue(s: Shape, ts: seq<Token>)
    requires Supported(s) && LoadValue(s, ts).Ok?
    ensures Good(s, LoadValue(s, ts).value)
    decreases s, Rank(s), 0
  {
    match s
    case Builtin =>
    case Tuple(_) => LoadedParts(s, 0, ts[1..]); GoodTuple(s, LoadParts(s, 0, ts[1..]).value);
    case Listing(_) =>
      LoadedElements(s, ts[0].size, ts[1..]);
      GoodListing(s, LoadElements(s, ts[0].size, ts[1..]).value);
    case Mapping(_, _) =>
      LoadedEntries(s, ts[0].size, [], ts[1..]);
      GoodMapping(s, LoadEntries(s, ts[0].size, [], ts[1..]).value);
    case Object(_, _) => LoadedFields(s, 0, ts[1..]); GoodObject(s, LoadFields(s, 0, ts[1..]).value);
    case _ => LoadedField("value", s, _ => true, ts[1..]);
  }

  lemma GoodTuple(s: Shape, vs: seq<Value>)
    requires s.Tuple? && |vs| == |s.items| && forall j :: 0 <= j < |vs| ==> Good(s.items[0 + j], vs[j])
    ensures Good(s, Items(vs))
  {
  }

  lemma GoodListing(s: Shape, vs: seq<Value>)
    requires s.Listing? && forall j :: 0 <= j < |vs| ==> Good(s.item, vs[j])
    ensures Good(s, Items(vs))
  {
  }

  lemma GoodMapping(s: Shape, es: seq<(Value, Value)>)
    requires s.Mapping? && GoodEntries(s, es)
    ensures Good(s, Entries(es))
  {
  }

  lemma GoodObject(s: Shape, vs: seq<Value>)
    requires s.Object? && |vs| == |s.fields| && forall j :: 0 <= j < |vs| ==> GoodMember(s.fields[0 + j], vs[j])
    ensures Good(s, Items(vs))
  {
  }

  lemma {:induction false} LoadedParts(s: Shape, i: nat, ts: seq<Token>)
    requires s.Tuple? && Supported(s) && i <= |s.items| && LoadParts(s, i, ts).Ok?
    ensures var vs := LoadParts(s, i, ts).value;
      |vs| == |s.items| - i && forall j :: 0 <= j < |vs| ==> Good(s.items[i + j], vs[j])
    decreases s, 0, |s.items| - i
  {
    if i < |s.items| {
      var r := LoadValue(s.items[i], ts);
      LoadedValue(s.items[i], ts);
      LoadedParts(s, i + 1, r.rest);
      var more, vs := LoadParts(s, i + 1, r.rest).value, LoadParts(s, i, ts).value;
      forall j | 0 <= j < |vs| ensures Good(s.items[i + j], vs[j]) {
        assert j > 0 ==> vs[j] == more[j - 1] && Good(s.items[i + 1 + (j - 1)], more[j - 1]);
      }
    }
  }

  lemma {:induction false} LoadedElements(s: Shape, n: nat, ts: seq<Token>)
    requires s.Listing? && Supported(s) && LoadElements(s, n, ts).Ok?
    ensures forall j :: 0 <= j < |LoadElements(s, n, ts).value| ==> Good(s.item, LoadElements(s, n, ts).value[j])
    decreases s, 0, n
  {
    if n > 0 {
      LoadedValue(s.item, ts);
      LoadedElements(s, n - 1, LoadValue(s.item, ts).rest);
    }
  }

  ghost predicate GoodEntries(s: Shape, es: seq<(Value, Value)>)
    requires s.Mapping?
  {
    && DistinctKeys(es)
    && forall i :: 0 <= i < |es| ==> Good(s.key, es[i].0) && Good(s.item, es[i].1)
  }

  lemma {:induction false} LoadedEntries(s: Shape, n: nat, es: seq<(Value, Value)>, ts: seq<Token>)
    requires s.Mapping? && Supported(s) && GoodEntries(s, es) && LoadEntries(s, n, es, ts).Ok?
    ensures GoodEntries(s, LoadEntries(s, n, es, ts).value)
    decreases s, 0, n
  {
    if n > 0 {
      var e := LoadEntry(s, ts);
      LoadedEntry(s, ts);
      Extended(s, es, e.value);
      LoadedEntries(s, n - 1, es + [e.value], e.rest);
    }
  }

  lemma Extended(s: Shape, es: seq<(Value, Value)>, e: (Value, Value))
    requires s.Mapping? && GoodEntries(s, es) && !HasKey(es, e.0) && Good(s.key, e.0) && Good(s.item, e.1)
    ensures GoodEntries(s, es + [e])
  {
  }

  lemma {:induction false} LoadedEntry(s: Shape, ts: seq<Token>)
    requires s.Mapping? && Supported(s) && LoadEntry(s, ts).Ok?
    ensures Good(s.key, LoadEntry(s, ts).value.0) && Good(s.item, LoadEntry(s, ts).value.1)
    decreases s, 0, 0
  {
    LoadedValue(s.key, ts[1..]);
    LoadedValue(s.item, LoadValue(s.key, ts[1..]).rest);
  }

  ghost predicate GoodMember(f: Field, v: Value) {
    Typed(f.shape, v) && FieldValid(f, v)
  }

  lemma {:induction false} LoadedFields(s: Shape, i: nat, ts: seq<Token>)
    requires s.Object? && Supported(s) && i <= |s.fields| && LoadFields(s, i, ts).Ok?
    ensures var vs := LoadFields(s, i, ts).value;
      |vs| == |s.fields| - i && forall j :: 0 <= j < |vs| ==> GoodMember(s.fields[i + j], vs[j])
    decreases s, 0, |s.fields| - i
  {
    if i < |s.fields| {
      var r := LoadMember(s.fields[i], ts);
      LoadedMember(s.fields[i], ts);
      LoadedFields(s, i + 1, r.rest);
      var more, vs := LoadFields(s, i + 1, r.rest).value, LoadFields(s, i, ts).value;
      forall j | 0 <= j < |vs| ensures GoodMember(s.fields[i + j], vs[j]) {
        assert j > 0 ==> vs[j] == more[j - 1] && GoodMember(s.fields[i + 1 + (j - 1)], more[j - 1]);
      }
    }
  }

  lemma {:induction false} LoadedMember(f: Field, ts: seq<Token>)
    requires Supported(f.shape) && FallbackFits(f) && LoadMember(f, ts).Ok?
    ensures GoodMember(f, LoadMember(f, ts).value)
    decreases f.shape, 4, 0
  {
    if f.fallback.Some? {
      LoadedOptionalField(f.name, f.shape, f.admits, ts);
    } else {
      LoadedField(f.name, f.shape, f.admits, ts);
    }
  }

  lemma {:induction false} LoadedField(name: string, s: Shape, ok: Value -> bool, ts: seq<Token>)
    requires Supported(s) && LoadField(name, s, ok, ts).Ok?
    ensures var v := LoadField(name, s, ok, ts).value;
      Good(s, v) && (if s.Optional? then v.Just? ==> ok(v.value) else ok(v))
    decreases s, 2, 0
  {
    if s.Optional? {
      LoadedOptionalField(name, s.item, ok, ts);
    } else if s.Variant? {
      LoadedAlternative(name, s, ts[0].index, ts[1..]);
    } else {
      LoadedValue(s, ts[1..]);
    }
  }

  lemma {:induction false} LoadedOptionalField(name: string, s: Shape, ok: Value -> bool, ts: seq<Token>)
    requires Supported(s) && !s.Optional? && LoadOptionalField(name, s, ok, ts).Ok?
    ensures var v := LoadOptionalField(name, s, ok, ts).value;
      v.Some? ==> Good(s, v.value) && ok(v.value)
    decreases s, 2, 0
  {
    if LoadOptionalField(name, s, ok, ts).value.Some? {
      if s.Variant? {
        LoadedAlternative(name, s, ts[0].index, ts[1..]);
      } else {
        LoadedValue(s, ts[1..]);
      }
    }
  }

  lemma {:induction false} LoadedAlternative(name: string, s: Shape, index: nat, ts: seq<Token>)
    requires s.Variant? && Supported(s) && LoadAlternative(name, s, index, ts).Ok?
    ensures Good(s, LoadAlternative(name, s, index, ts).value)
    decreases s, 0, 0
  {
    LoadedValue(s.alts[FindType(s.alts, s.alts[index].id)].shape, ts);
  }

  /**
   Saving never looks at invariants. A saved value comes back, with the rest of
   the tokens untouched, exactly when all its fields satisfy their invariants.
   */
  lemma RoundTripIffValid(s: Shape, v: Value, rest: seq<Token>)
    requires Supported(s) && Typed(s, v)
    ensures LoadValue(s, SaveValue(s, v) + rest) == Ok(v, rest) <==> Valid(s, v)
  {
    if Valid(s, v) {
      InspectionRoundTrip.RoundValue(s, v, rest);
    } else if LoadValue(s, SaveValue(s, v) + rest).Ok? {
      LoadedValue(s, SaveValue(s, v) + rest);
    }
  }
}
