/**
 What is saved can be loaded: for every supported type and every valid value,
 loading the saved tokens returns the value and leaves what follows untouched.
 */
module InspectionRoundTrip {
  import opened Basics
  import opened Inspection

  // -- token sequences --------------------------------------------------------

  lemma Peel(b: Token, mid: seq<Token>, e: Token, rest: seq<Token>)
    ensures var ts := [b] + mid + [e] + rest;
      ts != [] && ts[0] == b && ts[1..] == mid + ([e] + rest)
  {
  }

  lemma Closes<T>(v: T, e: Token, rest: seq<Token>)
    ensures Close(Ok(v, [e] + rest), e) == Ok(v, rest)
  {
  }

  // -- the round trip, following the structure of the type --------------------

  lemma {:induction false} RoundValue(s: Shape, v: Value, rest: seq<Token>)
    requires Supported(s) && Typed(s, v) && Valid(s, v)
    ensures LoadValue(s, SaveValue(s, v) + rest) == Ok(v, rest)
    decreases s, Rank(s), 0
  {
    match s
    case Builtin =>
      assert ([Number(v.n)] + rest)[1..] == rest;
    case Tuple(items) =>
      Peel(BeginTuple(|items|), SaveParts(s, v.items, 0), EndTuple, rest);
      RoundParts(s, v.items, 0, [EndTuple] + rest);
      Closes(v.items, EndTuple, rest);
    case Listing(_) =>
      Peel(BeginSequence(|v.items|), SaveElements(s, v.items, 0), EndSequence, rest);
      RoundElements(s, v.items, 0, [EndSequence] + rest);
      Closes(v.items, EndSequence, rest);
    case Mapping(_, _) =>
      Peel(BeginAssociativeArray(|v.entries|), SaveEntries(s, v.entries, 0), EndAssociativeArray, rest);
      RoundEntries(s, v.entries, 0, [EndAssociativeArray] + rest);
      Closes(v.entries, EndAssociativeArray, rest);
    case Object(name, _) =>
      Peel(BeginObject(name), SaveFields(s, v.items, 0), EndObject, rest);
      RoundFields(s, v.items, 0, [EndObject] + rest);
      Closes(v.items, EndObject, rest);
    case _ =>
      Peel(BeginObject("anonymous"), SaveField("value", s, v), EndObject, rest);
      RoundField("value", s, _ => true, v, [EndObject] + rest);
      Closes(v, EndObject, rest);
  }

  lemma {:induction false} RoundParts(s: Shape, vs: seq<Value>, i: nat, rest: seq<Token>)
    requires s.Tuple? && Supported(s) && Typed(s, Items(vs)) && Valid(s, Items(vs)) && i <= |vs|
    ensures LoadParts(s, i, SaveParts(s, vs, i) + rest) == Ok(vs[i..], rest)
    decreases s, 0, |vs| - i
  {
    if i < |vs| {
      RoundValue(s.items[i], vs[i], SaveParts(s, vs, i + 1) + rest);
      RoundParts(s, vs, i + 1, rest);
      AddsPart(s, vs, i, rest);
    } else {
      assert SaveParts(s, vs, i) + rest == rest && vs[i..] == [];
    }
  }

  lemma AddsPart(s: Shape, vs: seq<Value>, i: nat, rest: seq<Token>)
    requires s.Tuple? && Supported(s) && Typed(s, Items(vs)) && i < |vs|
    requires var more := SaveParts(s, vs, i + 1) + rest;
      && LoadValue(s.items[i], SaveValue(s.items[i], vs[i]) + more) == Ok(vs[i], more)
      && LoadParts(s, i + 1, more) == Ok(vs[i + 1..], rest)
    ensures LoadParts(s, i, SaveParts(s, vs, i) + rest) == Ok(vs[i..], rest)
  {
    Associative(SaveValue(s.items[i], vs[i]), SaveParts(s, vs, i + 1), rest);
    assert vs[i..] == [vs[i]] + vs[i + 1..];
  }

  lemma {:induction false} RoundElements(s: Shape, vs: seq<Value>, i: nat, rest: seq<Token>)
    requires s.Listing? && Supported(s) && Typed(s, Items(vs)) && Valid(s, Items(vs)) && i <= |vs|
    ensures LoadElements(s, |vs| - i, SaveElements(s, vs, i) + rest) == Ok(vs[i..], rest)
    decreases s, 0, |vs| - i
  {
    if i < |vs| {
      RoundValue(s.item, vs[i], SaveElements(s, vs, i + 1) + rest);
      RoundElements(s, vs, i + 1, rest);
      AddsElement(s, vs, i, rest);
    } else {
      assert SaveElements(s, vs, i) + rest == rest && vs[i..] == [];
    }
  }

  lemma AddsElement(s: Shape, vs: seq<Value>, i: nat, rest: seq<Token>)
    requires s.Listing? && Supported(s) && Typed(s, Items(vs)) && i < |vs|
    requires var more := SaveElements(s, vs, i + 1) + rest;
      && LoadValue(s.item, SaveValue(s.item, vs[i]) + more) == Ok(vs[i], more)
      && LoadElements(s, |vs| - i - 1, more) == Ok(vs[i + 1..], rest)
    ensures LoadElements(s, |vs| - i, SaveElements(s, vs, i) + rest) == Ok(vs[i..], rest)
  {
    Associative(SaveValue(s.item, vs[i]), SaveElements(s, vs, i + 1), rest);
    assert vs[i..] == [vs[i]] + vs[i + 1..];
  }

  lemma {:induction false} RoundEntry(s: Shape, e: (Value, Value), rest: seq<Token>)
    requires s.Mapping? && Supported(s) && Typed(s.key, e.0) && Typed(s.item, e.1)
    requires Valid(s.key, e.0) && Valid(s.item, e.1)
    ensures LoadEntry(s, SaveEntry(s, e) + rest) == Ok(e, rest)
    decreases s, 0, 0
  {
    var k, v, last := SaveValue(s.key, e.0), SaveValue(s.item, e.1), [EndKeyValuePair] + rest;
    Peel(BeginKeyValuePair, k + v, EndKeyValuePair, rest);
    Associative(k, v, last);
    RoundValue(s.key, e.0, v + last);
    RoundValue(s.item, e.1, last);
    Closes(e, EndKeyValuePair, rest);
  }

  lemma {:induction false} RoundEntries(s: Shape, es: seq<(Value, Value)>, i: nat, rest: seq<Token>)
    requires s.Mapping? && Supported(s) && Typed(s, Entries(es)) && Valid(s, Entries(es)) && i <= |es|
    ensures LoadEntries(s, |es| - i, es[..i], SaveEntries(s, es, i) + rest) == Ok(es, rest)
    decreases s, 0, |es| - i
  {
    if i < |es| {
      RoundEntry(s, es[i], SaveEntries(s, es, i + 1) + rest);
      AddsEntry(s, es, i, rest);
      RoundEntries(s, es, i + 1, rest);
    } else {
      assert es[..i] == es;
    }
  }

  lemma NewKey(es: seq<(Value, Value)>, i: nat)
    requires DistinctKeys(es) && i < |es|
    ensures !HasKey(es[..i], es[i].0) && es[..i] + [es[i]] == es[..i + 1]
  {
  }

  lemma AddsEntry(s: Shape, es: seq<(Value, Value)>, i: nat, rest: seq<Token>)
    requires s.Mapping? && Supported(s) && Typed(s, Entries(es)) && i < |es|
    requires var more := SaveEntries(s, es, i + 1) + rest;
      LoadEntry(s, SaveEntry(s, es[i]) + more) == Ok(es[i], more)
    ensures LoadEntries(s, |es| - i, es[..i], SaveEntries(s, es, i) + rest)
         == LoadEntries(s, |es| - i - 1, es[..i + 1], SaveEntries(s, es, i + 1) + rest)
  {
    Associative(SaveEntry(s, es[i]), SaveEntries(s, es, i + 1), rest);
    NewKey(es, i);
  }

  lemma {:induction false} RoundFields(s: Shape, vs: seq<Value>, i: nat, rest: seq<Token>)
    requires s.Object? && Supported(s) && Typed(s, Items(vs)) && Valid(s, Items(vs)) && i <= |vs|
    ensures LoadFields(s, i, SaveFields(s, vs, i) + rest) == Ok(vs[i..], rest)
    decreases s, 0, |vs| - i
  {
    if i < |vs| {
      RoundMember(s.fields[i], vs[i], SaveFields(s, vs, i + 1) + rest);
      RoundFields(s, vs, i + 1, rest);
      AddsField(s, vs, i, rest);
    } else {
      assert SaveFields(s, vs, i) + rest == rest && vs[i..] == [];
    }
  }

  lemma AddsField(s: Shape, vs: seq<Value>, i: nat, rest: seq<Token>)
    requires s.Object? && Supported(s) && Typed(s, Items(vs)) && i < |vs|
    requires var more := SaveFields(s, vs, i + 1) + rest;
      && LoadMember(s.fields[i], SaveMember(s.fields[i], vs[i]) + more) == Ok(vs[i], more)
      && LoadFields(s, i + 1, more) == Ok(vs[i + 1..], rest)
    ensures LoadFields(s, i, SaveFields(s, vs, i) + rest) == Ok(vs[i..], rest)
  {
    Associative(SaveMember(s.fields[i], vs[i]), SaveFields(s, vs, i + 1), rest);
    assert vs[i..] == [vs[i]] + vs[i + 1..];
  }

  lemma {:induction false} RoundMember(f: Field, v: Value, rest: seq<Token>)
    requires Supported(f.shape) && FallbackFits(f) && Typed(f.shape, v) && FieldValid(f, v)
    ensures LoadMember(f, SaveMember(f, v) + rest) == Ok(v, rest)
    decreases f.shape, 4, 0
  {
    if f.fallback.Some? {
      RoundOptionalField(f.name, f.shape, f.admits, if v == f.fallback.value then None else Some(v), rest);
    } else {
      RoundField(f.name, f.shape, f.admits, v, rest);
    }
  }

  lemma {:induction false} RoundField(name: string, s: Shape, ok: Value -> bool, v: Value, rest: seq<Token>)
    requires Supported(s) && Typed(s, v) && Valid(s, v)
    requires if s.Optional? then v.Just? ==> ok(v.value) else ok(v)
    ensures LoadField(name, s, ok, SaveField(name, s, v) + rest) == Ok(v, rest)
    decreases s, 2, 0
  {
    if s.Optional? {
      RoundOptionalField(name, s.item, ok, if v.Just? then Some(v.value) else None, rest);
    } else if s.Variant? {
      Peel(BeginVariantField(name, Ids(s.alts), v.index), SaveValue(s.alts[v.index].shape, v.value), EndField, rest);
      RoundAlternative(name, s, v, [EndField] + rest);
      Closes(v, EndField, rest);
    } else {
      Peel(BeginField(name), SaveValue(s, v), EndField, rest);
      RoundValue(s, v, [EndField] + rest);
      Closes(v, EndField, rest);
    }
  }

  lemma {:induction false} RoundOptionalField(
      name: string, s: Shape, ok: Value -> bool, v: Option<Value>, rest: seq<Token>)
    requires Supported(s) && !s.Optional?
    requires v.Some? ==> Typed(s, v.value) && Valid(s, v.value) && ok(v.value)
    ensures LoadOptionalField(name, s, ok, SaveOptionalField(name, s, v) + rest) == Ok(v, rest)
    decreases s, 2, 0
  {
    if v.None? {
      var b := if s.Variant? then BeginOptionalVariantField(name, false, Ids(s.alts), 0)
               else BeginOptionalField(name, false);
      Peel(b, [], EndField, rest);
      assert [b] + [] + [EndField] == [b] + [EndField];
      assert [] + ([EndField] + rest) == [EndField] + rest;
      Closes(v, EndField, rest);
    } else if s.Variant? {
      var x := v.value;
      Peel(BeginOptionalVariantField(name, true, Ids(s.alts), x.index),
           SaveValue(s.alts[x.index].shape, x.value), EndField, rest);
      RoundAlternative(name, s, x, [EndField] + rest);
      Closes(x, EndField, rest);
    } else {
      Peel(BeginOptionalField(name, true), SaveValue(s, v.value), EndField, rest);
      RoundValue(s, v.value, [EndField] + rest);
      Closes(v.value, EndField, rest);
    }
  }

  lemma {:induction false} RoundAlternative(name: string, s: Shape, v: Value, rest: seq<Token>)
    requires s.Variant? && Supported(s) && Typed(s, v) && Valid(s, v)
    ensures LoadAlternative(name, s, v.index, SaveValue(s.alts[v.index].shape, v.value) + rest) == Ok(v, rest)
    decreases s, 0, 0
  {
    RoundValue(s.alts[v.index].shape, v.value, rest);
    assert FindType(s.alts, s.alts[v.index].id) == v.index;
  }

  // -- consequences -----------------------------------------------------------

  /** No two values of a type share a token stream, and no saved value is the beginning of another. */
  lemma SavedFormsAreUnambiguous(s: Shape, v: Value, w: Value, r: seq<Token>, q: seq<Token>)
    requires Supported(s) && Typed(s, v) && Valid(s, v) && Typed(s, w) && Valid(s, w)
    requires SaveValue(s, v) + r == SaveValue(s, w) + q
    ensures v == w && r == q
  {
    RoundValue(s, v, r);
    RoundValue(s, w, q);
  }
}
