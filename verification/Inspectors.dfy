/**
 The inspectors at work: a saving inspector that grows its token stream and a
 loading inspector that advances through one, fills containers element by
 element and records the first error.
 */
module Inspectors {
  import opened Basics
  import opened Inspection

  lemma Framed(before: seq<Token>, b: Token, mid: seq<Token>, e: Token)
    ensures before + [b] + mid + [e] == before + ([b] + mid + [e])
  {
  }

  class SaveInspector {
    var out: seq<Token>

    constructor ()
      ensures out == []
    {
      out := [];
    }

    method Emit(t: Token)
      modifies this
      ensures out == old(out) + [t]
    {
      out := out + [t];
    }

    method Save(s: Shape, v: Value)
      requires Supported(s) && Typed(s, v)
      modifies this
      ensures out == old(out) + SaveValue(s, v)
      decreases s, Rank(s), 0
    {
      match s
      case Builtin => Emit(Number(v.n));
      case Tuple(_) => SaveTuple(s, v.items);
      case Listing(_) => SaveList(s, v.items);
      case Mapping(_, _) => SaveMap(s, v.entries);
      case Object(_, _) => SaveObject(s, v.items);
      case _ => SaveSum(s, v);
    }

    method SaveSum(s: Shape, v: Value)
      requires (s.Optional? || s.Variant?) && Supported(s) && Typed(s, v)
      modifies this
      ensures out == old(out) + SaveValue(s, v)
      decreases s, 2, 1
    {
      Emit(BeginObject("anonymous"));
      SaveOneField("value", s, v);
      Framed(old(out), BeginObject("anonymous"), SaveField("value", s, v), EndObject);
      Emit(EndObject);
    }

    method SaveTuple(s: Shape, vs: seq<Value>)
      requires s.Tuple? && Supported(s) && Typed(s, Items(vs))
      modifies this
      ensures out == old(out) + SaveValue(s, Items(vs))
      decreases s, 0, 1
    {
      Emit(BeginTuple(|vs|));
      ghost var all := out + SaveParts(s, vs, 0);
      for i := 0 to |vs|
        invariant out + SaveParts(s, vs, i) == all
      {
        ghost var before := out;
        Save(s.items[i], vs[i]);
        Associative(before, SaveValue(s.items[i], vs[i]), SaveParts(s, vs, i + 1));
      }
      assert out == all;
      Framed(old(out), BeginTuple(|vs|), SaveParts(s, vs, 0), EndTuple);
      Emit(EndTuple);
    }

    method SaveList(s: Shape, vs: seq<Value>)
      requires s.Listing? && Supported(s) && Typed(s, Items(vs))
      modifies this
      ensures out == old(out) + SaveValue(s, Items(vs))
      decreases s, 0, 1
    {
      Emit(BeginSequence(|vs|));
      ghost var all := out + SaveElements(s, vs, 0);
      for i := 0 to |vs|
        invariant out + SaveElements(s, vs, i) == all
      {
        ghost var before := out;
        Save(s.item, vs[i]);
        Associative(before, SaveValue(s.item, vs[i]), SaveElements(s, vs, i + 1));
      }
      assert out == all;
      Framed(old(out), BeginSequence(|vs|), SaveElements(s, vs, 0), EndSequence);
      Emit(EndSequence);
    }

    method SaveMap(s: Shape, es: seq<(Value, Value)>)
      requires s.Mapping? && Supported(s) && Typed(s, Entries(es))
      modifies this
      ensures out == old(out) + SaveValue(s, Entries(es))
      decreases s, 0, 1
    {
      Emit(BeginAssociativeArray(|es|));
      ghost var all := out + SaveEntries(s, es, 0);
      for i := 0 to |es|
        invariant out + SaveEntries(s, es, i) == all
      {
        ghost var before := out;
        SaveKeyValuePair(s, es[i]);
        Associative(before, SaveEntry(s, es[i]), SaveEntries(s, es, i + 1));
      }
      assert out == all;
      Framed(old(out), BeginAssociativeArray(|es|), SaveEntries(s, es, 0), EndAssociativeArray);
      Emit(EndAssociativeArray);
    }

    method SaveKeyValuePair(s: Shape, e: (Value, Value))
      requires s.Mapping? && Supported(s) && Typed(s.key, e.0) && Typed(s.item, e.1)
      modifies this
      ensures out == old(out) + SaveEntry(s, e)
      decreases s, 0, 0
    {
      Emit(BeginKeyValuePair);
      Save(s.key, e.0);
      Save(s.item, e.1);
      Emit(EndKeyValuePair);
    }

    method SaveObject(s: Shape, vs: seq<Value>)
      requires s.Object? && Supported(s) && Typed(s, Items(vs))
      modifies this
      ensures out == old(out) + SaveValue(s, Items(vs))
      decreases s, 0, 1
    {
      Emit(BeginObject(s.name));
      ghost var all := out + SaveFields(s, vs, 0);
      for i := 0 to |vs|
        invariant out + SaveFields(s, vs, i) == all
      {
        ghost var before := out;
        SaveMemberField(s.fields[i], vs[i]);
        Associative(before, SaveMember(s.fields[i], vs[i]), SaveFields(s, vs, i + 1));
      }
      assert out == all;
      Framed(old(out), BeginObject(s.name), SaveFields(s, vs, 0), EndObject);
      Emit(EndObject);
    }

    method SaveMemberField(f: Field, v: Value)
      requires Supported(f.shape) && FallbackFits(f) && Typed(f.shape, v)
      modifies this
      ensures out == old(out) + SaveMember(f, v)
      decreases f.shape, 4, 0
    {
      if f.fallback.Some? {
        SaveMaybe(f.name, f.shape, if v == f.fallback.value then None else Some(v));
      } else {
        SaveOneField(f.name, f.shape, v);
      }
    }

    method SaveOneField(name: string, s: Shape, v: Value)
      requires Supported(s) && Typed(s, v)
      modifies this
      ensures out == old(out) + SaveField(name, s, v)
      decreases s, 2, 0
    {
      if s.Optional? {
        SaveMaybe(name, s.item, if v.Just? then Some(v.value) else None);
      } else if s.Variant? {
        Emit(BeginVariantField(name, Ids(s.alts), v.index));
        Save(s.alts[v.index].shape, v.value);
        Framed(old(out), BeginVariantField(name, Ids(s.alts), v.index),
               SaveValue(s.alts[v.index].shape, v.value), EndField);
        Emit(EndField);
      } else {
        Emit(BeginField(name));
        Save(s, v);
        Framed(old(out), BeginField(name), SaveValue(s, v), EndField);
        Emit(EndField);
      }
    }

    method SaveMaybe(name: string, s: Shape, v: Option<Value>)
      requires Supported(s) && !s.Optional? && (v.Some? ==> Typed(s, v.value))
      modifies this
      ensures out == old(out) + SaveOptionalField(name, s, v)
      decreases s, 2, 0
    {
      if s.Variant? {
        SaveMaybeVariant(name, s, v);
      } else if v.Some? {
        Emit(BeginOptionalField(name, true));
        Save(s, v.value);
        Framed(old(out), BeginOptionalField(name, true), SaveValue(s, v.value), EndField);
        Emit(EndField);
      } else {
        Emit(BeginOptionalField(name, false));
        Emit(EndField);
      }
    }

    method SaveMaybeVariant(name: string, s: Shape, v: Option<Value>)
      requires s.Variant? && Supported(s) && (v.Some? ==> Typed(s, v.value))
      modifies this
      ensures out == old(out) + SaveOptionalField(name, s, v)
      decreases s, 0, 0
    {
      if v.Some? {
        var x := v.value;
        Emit(BeginOptionalVariantField(name, true, Ids(s.alts), x.index));
        Save(s.alts[x.index].shape, x.value);
        Framed(old(out), BeginOptionalVariantField(name, true, Ids(s.alts), x.index),
               SaveValue(s.alts[x.index].shape, x.value), EndField);
        Emit(EndField);
      } else {
        Emit(BeginOptionalVariantField(name, false, Ids(s.alts), 0));
        Emit(EndField);
      }
    }
  }

  /** What a load reports: the value, or nothing and the error that it recorded. */
  ghost predicate Gives<T>(l: Loaded<T>, r: Option<T>, rest: seq<Token>, err: Option<Error>) {
    if l.Ok? then r == Some(l.value) && rest == l.rest && err == None else r == None && err == Some(l.error)
  }

  function PrependAll(xs: seq<Value>, r: Loaded<seq<Value>>): Loaded<seq<Value>> {
    if r.Ok? then Ok(xs + r.value, r.rest) else r
  }

  lemma OneMore(xs: seq<Value>, v: Value, r: Loaded<seq<Value>>)
    ensures PrependAll(xs + [v], r) == PrependAll(xs, Prepend(v, r))
  {
    if r.Ok? {
      assert xs + [v] + r.value == xs + ([v] + r.value);
    }
  }

  lemma NoneYet(r: Loaded<seq<Value>>)
    ensures PrependAll([], r) == r
  {
    if r.Ok? {
      assert [] + r.value == r.value;
    }
  }

  lemma NothingLeft(xs: seq<Value>, rest: seq<Token>)
    ensures PrependAll(xs, Ok([], rest)) == Ok(xs, rest)
  {
    assert xs + [] == xs;
  }

  class LoadInspector {
    var input: seq<Token>
    var err: Option<Error>

    constructor (input: seq<Token>)
      ensures this.input == input && err == None
    {
      this.input := input;
      err := None;
    }

    /** A call of the inspector that ends a scope or starts one without parameters. */
    method Expect(t: Token) returns (ok: bool)
      requires err == None
      modifies this
      ensures ok <==> Starts(old(input), t)
      ensures if ok then input == old(input)[1..] && err == None else err == Some(UnexpectedToken)
    {
      ok := input != [] && input[0] == t;
      if ok {
        input := input[1..];
      } else {
        err := Some(UnexpectedToken);
      }
    }

    method Load(s: Shape) returns (r: Option<Value>)
      requires Supported(s) && err == None
      modifies this
      ensures Gives(LoadValue(s, old(input)), r, input, err)
      decreases s, Rank(s), 0
    {
      match s
      case Builtin =>
        if input != [] && input[0].Number? {
          r, input := Some(Atom(input[0].n)), input[1..];
        } else {
          r, err := None, Some(UnexpectedToken);
        }
      case Tuple(_) => r := LoadTuple(s);
      case Listing(_) => r := LoadList(s);
      case Mapping(_, _) => r := LoadMap(s);
      case Object(_, _) => r := LoadObject(s);
      case _ => r := LoadSum(s);
    }

    method LoadList(s: Shape) returns (r: Option<Value>)
      requires s.Listing? && Supported(s) && err == None
      modifies this
      ensures Gives(LoadValue(s, old(input)), r, input, err)
      decreases s, 0, 1
    {
      r := None;
      if input == [] || !input[0].BeginSequence? {
        err := Some(UnexpectedToken);
        return;
      }
      var size := input[0].size;
      input := input[1..];
      ghost var all := LoadElements(s, size, input);
      var xs: seq<Value> := [];
      NoneYet(all);
      for i := 0 to size
        invariant err == None
        invariant all == PrependAll(xs, LoadElements(s, size - i, input))
      {
        var v := Load(s.item);
        if v.None? {
          return;
        }
        OneMore(xs, v.value, LoadElements(s, size - i - 1, input));
        xs := xs + [v.value];
      }
      NothingLeft(xs, input);
      var ok := Expect(EndSequence);
      if ok {
        r := Some(Items(xs));
      }
    }

    method LoadTuple(s: Shape) returns (r: Option<Value>)
      requires s.Tuple? && Supported(s) && err == None
      modifies this
      ensures Gives(LoadValue(s, old(input)), r, input, err)
      decreases s, 0, 1
    {
      r := None;
      var ok := Expect(BeginTuple(|s.items|));
      if !ok {
        return;
      }
      ghost var all := LoadParts(s, 0, input);
      var xs: seq<Value> := [];
      NoneYet(all);
      for i := 0 to |s.items|
        invariant err == None
        invariant all == PrependAll(xs, LoadParts(s, i, input))
      {
        var v := Load(s.items[i]);
        if v.None? {
          return;
        }
        OneMore(xs, v.value, LoadParts(s, i + 1, input));
        xs := xs + [v.value];
      }
      NothingLeft(xs, input);
      ok := Expect(EndTuple);
      if ok {
        r := Some(Items(xs));
      }
    }

    method LoadMap(s: Shape) returns (r: Option<Value>)
      requires s.Mapping? && Supported(s) && err == None
      modifies this
      ensures Gives(LoadValue(s, old(input)), r, input, err)
      decreases s, 0, 1
    {
      r := None;
      if input == [] || !input[0].BeginAssociativeArray? {
        err := Some(UnexpectedToken);
        return;
      }
      var size := input[0].size;
      input := input[1..];
      ghost var all := LoadEntries(s, size, [], input);
      var es: seq<(Value, Value)> := [];
      for i := 0 to size
        invariant err == None
        invariant all == LoadEntries(s, size - i, es, input)
      {
        var e := LoadKeyValuePair(s);
        if e.None? {
          return;
        }
        if HasKey(es, e.value.0) {
          err := Some(MultipleKeyDefinitions);
          return;
        }
        es := es + [e.value];
      }
      var ok := Expect(EndAssociativeArray);
      if ok {
        r := Some(Entries(es));
      }
    }

    method LoadKeyValuePair(s: Shape) returns (r: Option<(Value, Value)>)
      requires s.Mapping? && Supported(s) && err == None
      modifies this
      ensures Gives(LoadEntry(s, old(input)), r, input, err)
      decreases s, 0, 0
    {
      r := None;
      var ok := Expect(BeginKeyValuePair);
      if !ok {
        return;
      }
      var k := Load(s.key);
      if k.None? {
        return;
      }
      var v := Load(s.item);
      if v.None? {
        return;
      }
      ok := Expect(EndKeyValuePair);
      if ok {
        r := Some((k.value, v.value));
      }
    }

    method LoadObject(s: Shape) returns (r: Option<Value>)
      requires s.Object? && Supported(s) && err == None
      modifies this
      ensures Gives(LoadValue(s, old(input)), r, input, err)
      decreases s, 0, 1
    {
      r := None;
      var ok := Expect(BeginObject(s.name));
      if !ok {
        return;
      }
      ghost var all := LoadFields(s, 0, input);
      var xs: seq<Value> := [];
      NoneYet(all);
      for i := 0 to |s.fields|
        invariant err == None
        invariant all == PrependAll(xs, LoadFields(s, i, input))
      {
        var v := LoadMemberField(s.fields[i]);
        if v.None? {
          return;
        }
        OneMore(xs, v.value, LoadFields(s, i + 1, input));
        xs := xs + [v.value];
      }
      NothingLeft(xs, input);
      ok := Expect(EndObject);
      if ok {
        r := Some(Items(xs));
      }
    }

    method LoadSum(s: Shape) returns (r: Option<Value>)
      requires (s.Optional? || s.Variant?) && Supported(s) && err == None
      modifies this
      ensures Gives(LoadValue(s, old(input)), r, input, err)
      decreases s, 2, 1
    {
      r := None;
      var ok := Expect(BeginObject("anonymous"));
      if !ok {
        return;
      }
      var v := LoadOneField("value", s, _ => true);
      if v.Some? {
        ok := Expect(EndObject);
        r := if ok then v else None;
      }
    }

    method LoadMemberField(f: Field) returns (r: Option<Value>)
      requires Supported(f.shape) && FallbackFits(f) && err == None
      modifies this
      ensures Gives(LoadMember(f, old(input)), r, input, err)
      decreases f.shape, 4, 0
    {
      if f.fallback.Some? {
        var v := LoadMaybe(f.name, f.shape, f.admits);
        r := if v.None? then None else if v.value.Some? then v.value else f.fallback;
      } else {
        r := LoadOneField(f.name, f.shape, f.admits);
      }
    }

    /** Checks the invariant and ends the field. */
    method FinishField(name: string, ok: Value -> bool, v: Value) returns (r: Option<Value>)
      requires err == None
      modifies this
      ensures Gives(Finish(name, ok, Ok(v, old(input))), r, input, err)
    {
      r := None;
      if !ok(v) {
        err := Some(InvariantCheckFailed(name));
        return;
      }
      var ended := Expect(EndField);
      if ended {
        r := Some(v);
      }
    }

    method LoadOneField(name: string, s: Shape, ok: Value -> bool) returns (r: Option<Value>)
      requires Supported(s) && err == None
      modifies this
      ensures Gives(LoadField(name, s, ok, old(input)), r, input, err)
      decreases s, 2, 0
    {
      r := None;
      if s.Optional? {
        var v := LoadMaybe(name, s.item, ok);
        if v.Some? {
          r := Some(if v.value.Some? then Just(v.value.value) else Nothing);
        }
        return;
      }
      var v: Option<Value>;
      if s.Variant? {
        if input == [] || !input[0].BeginVariantField? || input[0].name != name || input[0].types != Ids(s.alts) {
          err := Some(UnexpectedToken);
          return;
        }
        var index := input[0].index;
        input := input[1..];
        v := LoadIndexed(name, s, index);
      } else {
        var begun := Expect(BeginField(name));
        if !begun {
          return;
        }
        v := Load(s);
      }
      if v.Some? {
        r := FinishField(name, ok, v.value);
      }
    }

    /** A field that may be absent; the inner option tells whether it is there. */
    method LoadMaybe(name: string, s: Shape, ok: Value -> bool) returns (r: Option<Option<Value>>)
      requires Supported(s) && !s.Optional? && err == None
      modifies this
      ensures Gives(LoadOptionalField(name, s, ok, old(input)), r, input, err)
      decreases s, 2, 0
    {
      r := None;
      var present, index := false, 0;
      if s.Variant? {
        if input == [] || !input[0].BeginOptionalVariantField? || input[0].name != name || input[0].types != Ids(s.alts) {
          err := Some(UnexpectedToken);
          return;
        }
        present, index := input[0].present, input[0].index;
      } else {
        if input == [] || !input[0].BeginOptionalField? || input[0].name != name {
          err := Some(UnexpectedToken);
          return;
        }
        present := input[0].present;
      }
      input := input[1..];
      if present {
        r := LoadPresent(name, s, ok, index);
      } else {
        var ended := Expect(EndField);
        if ended {
          r := Some(None);
        }
      }
    }

    method LoadPresent(name: string, s: Shape, ok: Value -> bool, index: nat) returns (r: Option<Option<Value>>)
      requires Supported(s) && !s.Optional? && err == None
      modifies this
      ensures Gives(Present(Finish(name, ok, if s.Variant? then LoadAlternative(name, s, index, old(input))
                                             else LoadValue(s, old(input)))), r, input, err)
      decreases s, 1, 1
    {
      r := None;
      var v: Option<Value>;
      if s.Variant? {
        v := LoadIndexed(name, s, index);
      } else {
        v := Load(s);
      }
      if v.Some? {
        v := FinishField(name, ok, v.value);
        if v.Some? {
          r := Some(v);
        }
      }
    }

    method LoadIndexed(name: string, s: Shape, index: nat) returns (r: Option<Value>)
      requires s.Variant? && Supported(s) && err == None
      modifies this
      ensures Gives(LoadAlternative(name, s, index, old(input)), r, input, err)
      decreases s, 0, 1
    {
      if index >= |s.alts| {
        r, err := None, Some(InvalidFieldType(name));
      } else {
        r := LoadTyped(name, s, s.alts[index].id);
      }
    }

    method LoadTyped(name: string, s: Shape, id: nat) returns (r: Option<Value>)
      requires s.Variant? && Supported(s) && err == None
      modifies this
      ensures Gives(LoadVariantValue(name, s, id, old(input)), r, input, err)
      decreases s, 0, 0
    {
      r := None;
      var i := FindType(s.alts, id);
      if i == |s.alts| {
        err := Some(InvalidFieldType(name));
      } else {
        var v := Load(s.alts[i].shape);
        if v.Some? {
          r := Some(Alt(i, v.value));
        }
      }
    }
  }
}
