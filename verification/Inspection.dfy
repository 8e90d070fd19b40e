/**
 Saving and loading values through the inspector API
 (libcaf_core/caf/inspector_access.hpp, libcaf_core/caf/inspector_access_base.hpp,
 libcaf_core/caf/load_inspector_base.hpp, libcaf_core/caf/save_inspector_base.hpp,
 libcaf_core/caf/load_inspector.hpp, libcaf_core/caf/save_inspector.hpp).

 Both directions work against an ideal inspector that records the calls of the
 saving side as tokens and hands them out again to the loading side.
 */
module Inspection {
  import opened Basics

  /** What kind of C++ type a value has, as far as the dispatch of `save` and `load` looks at it. */
  datatype Shape =
    | Builtin
    | Tuple(items: seq<Shape>)
    | Listing(item: Shape)
    | Mapping(key: Shape, item: Shape)
    | Optional(item: Shape)
    | Variant(alts: seq<Alternative>)
    | Object(name: string, fields: seq<Field>)

  datatype Alternative = Alternative(id: nat, shape: Shape)

  /** A field of an object, with the fallback and the invariant that the DSL may attach to it. */
  datatype Field = Field(name: string, shape: Shape, fallback: Option<Value>, admits: Value -> bool)

  /** Containers list their elements in iteration order; objects and tuples list their parts. */
  datatype Value =
    | Atom(n: int)
    | Items(items: seq<Value>)
    | Entries(entries: seq<(Value, Value)>)
    | Nothing
    | Just(value: Value)
    | Alt(index: nat, value: Value)

  datatype Token =
    | BeginObject(name: string) | EndObject
    | BeginField(name: string)
    | BeginOptionalField(name: string, present: bool)
    | BeginVariantField(name: string, types: seq<nat>, index: nat)
    | BeginOptionalVariantField(name: string, present: bool, types: seq<nat>, index: nat)
    | EndField
    | BeginTuple(size: nat) | EndTuple
    | BeginSequence(size: nat) | EndSequence
    | BeginAssociativeArray(size: nat) | EndAssociativeArray
    | BeginKeyValuePair | EndKeyValuePair
    | Number(n: int)

  datatype Error =
    | UnexpectedToken
    | InvariantCheckFailed(field: string)
    | InvalidFieldType(field: string)
    | MultipleKeyDefinitions

  datatype Loaded<+T> = Ok(value: T, rest: seq<Token>) | Err(error: Error)

  function Ids(alts: seq<Alternative>): seq<nat> {
    seq(|alts|, i requires 0 <= i < |alts| => alts[i].id)
  }

  // -- types and values -------------------------------------------------------

  /** `v` is a value of type `s`. */
  predicate Typed(s: Shape, v: Value)
    decreases s
  {
    match s
    case Builtin => v.Atom?
    case Tuple(items) => v.Items? && |v.items| == |items| && forall i :: 0 <= i < |items| ==> Typed(items[i], v.items[i])
    case Listing(item) => v.Items? && forall i :: 0 <= i < |v.items| ==> Typed(item, v.items[i])
    case Mapping(key, item) =>
      && v.Entries?
      && (forall i :: 0 <= i < |v.entries| ==> Typed(key, v.entries[i].0) && Typed(item, v.entries[i].1))
      && DistinctKeys(v.entries)
    case Optional(item) => v.Nothing? || (v.Just? && Typed(item, v.value))
    case Variant(alts) => v.Alt? && v.index < |alts| && Typed(alts[v.index].shape, v.value)
    case Object(_, fields) =>
      v.Items? && |v.items| == |fields| && forall i :: 0 <= i < |fields| ==> Typed(fields[i].shape, v.items[i])
  }

  predicate DistinctKeys(entries: seq<(Value, Value)>) {
    forall i, j :: 0 <= i < j < |entries| ==> entries[i].0 != entries[j].0
  }

  /**
   The types the API handles: an optional that directly holds an optional, or
   that has a fallback, would make `save_field` call itself forever, and the
   alternatives of a variant are told apart by their type IDs.
   */
  predicate Supported(s: Shape)
    decreases s
  {
    match s
    case Builtin => true
    case Tuple(items) => forall i :: 0 <= i < |items| ==> Supported(items[i])
    case Listing(item) => Supported(item)
    case Mapping(key, item) => Supported(key) && Supported(item)
    case Optional(item) => !item.Optional? && Supported(item)
    case Variant(alts) =>
      && (forall i :: 0 <= i < |alts| ==> Supported(alts[i].shape))
      && (forall i, j :: 0 <= i < j < |alts| ==> alts[i].id != alts[j].id)
    case Object(_, fields) => forall i :: 0 <= i < |fields| ==> Supported(fields[i].shape) && FallbackFits(fields[i])
  }

  predicate FallbackFits(f: Field) {
    f.fallback.Some? ==> !f.shape.Optional? && Typed(f.shape, f.fallback.value)
  }

  /** The invariant holds of what gets loaded: not of an absent value, and not of the fallback. */
  predicate Admitted(f: Field, v: Value) {
    || f.fallback == Some(v)
    || (if f.shape.Optional? then v.Just? ==> f.admits(v.value) else f.admits(v))
  }

  /** A typed value all of whose fields, at any depth, satisfy their invariants. */
  predicate Valid(s: Shape, v: Value)
    requires Typed(s, v)
    decreases s
  {
    match s
    case Builtin => true
    case Tuple(items) => forall i :: 0 <= i < |items| ==> Valid(items[i], v.items[i])
    case Listing(item) => forall i :: 0 <= i < |v.items| ==> Valid(item, v.items[i])
    case Mapping(key, item) =>
      forall i :: 0 <= i < |v.entries| ==> Valid(key, v.entries[i].0) && Valid(item, v.entries[i].1)
    case Optional(item) => v.Just? ==> Valid(item, v.value)
    case Variant(alts) => Valid(alts[v.index].shape, v.value)
    case Object(_, fields) =>
      forall i :: 0 <= i < |fields| ==>
        FieldValid(fields[i], v.items[i])
  }

  /** Fallbacks are never saved, so nothing is asked of their parts. */
  predicate FieldValid(f: Field, v: Value)
    requires Typed(f.shape, v)
    decreases f
  {
    f.fallback == Some(v) || (Admitted(f, v) && Valid(f.shape, v))
  }

  // -- saving -----------------------------------------------------------------

  /** Optionals and variants are saved as objects with one field, other types are the field's value. */
  function Rank(s: Shape): nat {
    if s.Optional? || s.Variant? then 3 else 1
  }

  function SaveValue(s: Shape, v: Value): seq<Token>
    requires Supported(s) && Typed(s, v)
    decreases s, Rank(s), 0
  {
    match s
    case Builtin => [Number(v.n)]
    case Tuple(items) => [BeginTuple(|items|)] + SaveParts(s, v.items, 0) + [EndTuple]
    case Listing(_) => [BeginSequence(|v.items|)] + SaveElements(s, v.items, 0) + [EndSequence]
    case Mapping(_, _) =>
      [BeginAssociativeArray(|v.entries|)] + SaveEntries(s, v.entries, 0) + [EndAssociativeArray]
    case Optional(_) => [BeginObject("anonymous")] + SaveField("value", s, v) + [EndObject]
    case Variant(_) => [BeginObject("anonymous")] + SaveField("value", s, v) + [EndObject]
    case Object(name, _) => [BeginObject(name)] + SaveFields(s, v.items, 0) + [EndObject]
  }

  function SaveParts(s: Shape, vs: seq<Value>, i: nat): seq<Token>
    requires s.Tuple? && Supported(s) && Typed(s, Items(vs)) && i <= |vs|
    decreases s, 0, |vs| - i
  {
    if i == |vs| then [] else SaveValue(s.items[i], vs[i]) + SaveParts(s, vs, i + 1)
  }

  function SaveElements(s: Shape, vs: seq<Value>, i: nat): seq<Token>
    requires s.Listing? && Supported(s) && Typed(s, Items(vs)) && i <= |vs|
    decreases s, 0, |vs| - i
  {
    if i == |vs| then [] else SaveValue(s.item, vs[i]) + SaveElements(s, vs, i + 1)
  }

  function SaveEntries(s: Shape, es: seq<(Value, Value)>, i: nat): seq<Token>
    requires s.Mapping? && Supported(s) && Typed(s, Entries(es)) && i <= |es|
    decreases s, 0, |es| - i
  {
    if i == |es| then []
    else SaveEntry(s, es[i]) + SaveEntries(s, es, i + 1)
  }

  function SaveEntry(s: Shape, e: (Value, Value)): seq<Token>
    requires s.Mapping? && Supported(s) && Typed(s.key, e.0) && Typed(s.item, e.1)
    decreases s, 0, 0
  {
    [BeginKeyValuePair] + (SaveValue(s.key, e.0) + SaveValue(s.item, e.1)) + [EndKeyValuePair]
  }

  function SaveFields(s: Shape, vs: seq<Value>, i: nat): seq<Token>
    requires s.Object? && Supported(s) && Typed(s, Items(vs)) && i <= |vs|
    decreases s, 0, |vs| - i
  {
    if i == |vs| then [] else SaveMember(s.fields[i], vs[i]) + SaveFields(s, vs, i + 1)
  }

  /** A field with a fallback counts as present when its value differs from the fallback. */
  function SaveMember(f: Field, v: Value): seq<Token>
    requires Supported(f.shape) && FallbackFits(f) && Typed(f.shape, v)
    decreases f.shape, 4, 0
  {
    if f.fallback.Some?
    then SaveOptionalField(f.name, f.shape, if v == f.fallback.value then None else Some(v))
    else SaveField(f.name, f.shape, v)
  }

  /** A field without fallback. */
  function SaveField(name: string, s: Shape, v: Value): seq<Token>
    requires Supported(s) && Typed(s, v)
    decreases s, 2, 0
  {
    match s
    case Optional(item) => SaveOptionalField(name, item, if v.Just? then Some(v.value) else None)
    case Variant(alts) =>
      [BeginVariantField(name, Ids(alts), v.index)] + SaveValue(alts[v.index].shape, v.value) + [EndField]
    case _ => [BeginField(name)] + SaveValue(s, v) + [EndField]
  }

  /** A field that may be absent. */
  function SaveOptionalField(name: string, s: Shape, v: Option<Value>): seq<Token>
    requires Supported(s) && !s.Optional? && (v.Some? ==> Typed(s, v.value))
    decreases s, 2, 0
  {
    if s.Variant? then
      if v.Some? then
        [BeginOptionalVariantField(name, true, Ids(s.alts), v.value.index)]
        + SaveValue(s.alts[v.value.index].shape, v.value.value) + [EndField]
      else
        [BeginOptionalVariantField(name, false, Ids(s.alts), 0)] + [EndField]
    else if v.Some? then
      [BeginOptionalField(name, true)] + SaveValue(s, v.value) + [EndField]
    else
      [BeginOptionalField(name, false)] + [EndField]
  }

  // -- loading ----------------------------------------------------------------

  predicate Starts(ts: seq<Token>, t: Token) {
    ts != [] && ts[0] == t
  }

  /** Ends a scope with the call that produced `t`. */
  function Close<T>(r: Loaded<T>, t: Token): Loaded<T> {
    if r.Err? then r
    else if Starts(r.rest, t) then Ok(r.value, r.rest[1..])
    else Err(UnexpectedToken)
  }

  function LoadValue(s: Shape, ts: seq<Token>): Loaded<Value>
    requires Supported(s)
    decreases s, Rank(s), 0
  {
    if ts == [] then Err(UnexpectedToken) else
    match s
    case Builtin => if ts[0].Number? then Ok(Atom(ts[0].n), ts[1..]) else Err(UnexpectedToken)
    case Tuple(items) =>
      if ts[0] != BeginTuple(|items|) then Err(UnexpectedToken)
      else AsItems(Close(LoadParts(s, 0, ts[1..]), EndTuple))
    case Listing(_) =>
      if !ts[0].BeginSequence? then Err(UnexpectedToken)
      else AsItems(Close(LoadElements(s, ts[0].size, ts[1..]), EndSequence))
    case Mapping(_, _) =>
      if !ts[0].BeginAssociativeArray? then Err(UnexpectedToken)
      else AsEntries(Close(LoadEntries(s, ts[0].size, [], ts[1..]), EndAssociativeArray))
    case Object(name, _) =>
      if ts[0] != BeginObject(name) then Err(UnexpectedToken)
      else AsItems(Close(LoadFields(s, 0, ts[1..]), EndObject))
    case _ =>
      if ts[0] != BeginObject("anonymous") then Err(UnexpectedToken)
      else Close(LoadField("value", s, _ => true, ts[1..]), EndObject)
  }

  function AsItems(r: Loaded<seq<Value>>): Loaded<Value> {
    if r.Ok? then Ok(Items(r.value), r.rest) else Err(r.error)
  }

  function AsEntries(r: Loaded<seq<(Value, Value)>>): Loaded<Value> {
    if r.Ok? then Ok(Entries(r.value), r.rest) else Err(r.error)
  }

  function Prepend(v: Value, r: Loaded<seq<Value>>): Loaded<seq<Value>> {
    if r.Ok? then Ok([v] + r.value, r.rest) else r
  }

  function LoadParts(s: Shape, i: nat, ts: seq<Token>): Loaded<seq<Value>>
    requires s.Tuple? && Supported(s) && i <= |s.items|
    decreases s, 0, |s.items| - i
  {
    if i == |s.items| then Ok([], ts)
    else
      var r := LoadValue(s.items[i], ts);
      if r.Err? then Err(r.error) else Prepend(r.value, LoadParts(s, i + 1, r.rest))
  }

  function LoadElements(s: Shape, n: nat, ts: seq<Token>): Loaded<seq<Value>>
    requires s.Listing? && Supported(s)
    decreases s, 0, n
  {
    if n == 0 then Ok([], ts)
    else
      var r := LoadValue(s.item, ts);
      if r.Err? then Err(r.error) else Prepend(r.value, LoadElements(s, n - 1, r.rest))
  }

  predicate HasKey(es: seq<(Value, Value)>, k: Value) {
    exists i :: 0 <= i < |es| && es[i].0 == k
  }

  /** `n` more entries after `es`; a key that is already there is an error. */
  function LoadEntries(s: Shape, n: nat, es: seq<(Value, Value)>, ts: seq<Token>): Loaded<seq<(Value, Value)>>
    requires s.Mapping? && Supported(s)
    decreases s, 0, n
  {
    if n == 0 then Ok(es, ts)
    else
      var r := LoadEntry(s, ts);
      if r.Err? then Err(r.error)
      else if HasKey(es, r.value.0) then Err(MultipleKeyDefinitions)
      else LoadEntries(s, n - 1, es + [r.value], r.rest)
  }

  function LoadEntry(s: Shape, ts: seq<Token>): Loaded<(Value, Value)>
    requires s.Mapping? && Supported(s)
    decreases s, 0, 0
  {
    if !Starts(ts, BeginKeyValuePair) then Err(UnexpectedToken)
    else
      var k := LoadValue(s.key, ts[1..]);
      if k.Err? then Err(k.error)
      else
        var v := LoadValue(s.item, k.rest);
        if v.Err? then Err(v.error) else Close(Ok((k.value, v.value), v.rest), EndKeyValuePair)
  }

  function LoadFields(s: Shape, i: nat, ts: seq<Token>): Loaded<seq<Value>>
    requires s.Object? && Supported(s) && i <= |s.fields|
    decreases s, 0, |s.fields| - i
  {
    if i == |s.fields| then Ok([], ts)
    else
      var r := LoadMember(s.fields[i], ts);
      if r.Err? then Err(r.error) else Prepend(r.value, LoadFields(s, i + 1, r.rest))
  }

  function LoadMember(f: Field, ts: seq<Token>): Loaded<Value>
    requires Supported(f.shape) && FallbackFits(f)
    decreases f.shape, 4, 0
  {
    if f.fallback.Some?
    then OrElse(LoadOptionalField(f.name, f.shape, f.admits, ts), f.fallback.value)
    else LoadField(f.name, f.shape, f.admits, ts)
  }

  function OrElse(r: Loaded<Option<Value>>, fallback: Value): Loaded<Value> {
    if r.Err? then Err(r.error) else Ok(if r.value.Some? then r.value.value else fallback, r.rest)
  }

  function AsOptional(r: Loaded<Option<Value>>): Loaded<Value> {
    if r.Err? then Err(r.error) else Ok(if r.value.Some? then Just(r.value.value) else Nothing, r.rest)
  }

  /** The value of a field must pass the invariant before the field ends. */
  function Finish(name: string, ok: Value -> bool, r: Loaded<Value>): Loaded<Value> {
    if r.Err? then r
    else if !ok(r.value) then Err(InvariantCheckFailed(name))
    else Close(r, EndField)
  }

  /** A field without fallback. The invariant of an optional field is about the value inside. */
  function LoadField(name: string, s: Shape, ok: Value -> bool, ts: seq<Token>): Loaded<Value>
    requires Supported(s)
    decreases s, 2, 0
  {
    if s.Optional? then AsOptional(LoadOptionalField(name, s.item, ok, ts))
    else if s.Variant? then
      if ts != [] && ts[0].BeginVariantField? && ts[0].name == name && ts[0].types == Ids(s.alts)
      then Finish(name, ok, LoadAlternative(name, s, ts[0].index, ts[1..]))
      else Err(UnexpectedToken)
    else if Starts(ts, BeginField(name)) then Finish(name, ok, LoadValue(s, ts[1..]))
    else Err(UnexpectedToken)
  }

  function LoadOptionalField(name: string, s: Shape, ok: Value -> bool, ts: seq<Token>): Loaded<Option<Value>>
    requires Supported(s) && !s.Optional?
    decreases s, 2, 0
  {
    if ts == [] then Err(UnexpectedToken)
    else if s.Variant? then
      if ts[0].BeginOptionalVariantField? && ts[0].name == name && ts[0].types == Ids(s.alts) then
        if ts[0].present
        then Present(Finish(name, ok, LoadAlternative(name, s, ts[0].index, ts[1..])))
        else Close(Ok(None, ts[1..]), EndField)
      else Err(UnexpectedToken)
    else if ts[0] == BeginOptionalField(name, true) then Present(Finish(name, ok, LoadValue(s, ts[1..])))
    else if ts[0] == BeginOptionalField(name, false) then Close(Ok(None, ts[1..]), EndField)
    else Err(UnexpectedToken)
  }

  function Present(r: Loaded<Value>): Loaded<Option<Value>> {
    if r.Err? then Err(r.error) else Ok(Some(r.value), r.rest)
  }

  /** The first alternative with the given type ID. */
  function FindType(alts: seq<Alternative>, id: nat): (i: nat)
    ensures i <= |alts| && (forall j :: 0 <= j < i ==> alts[j].id != id)
    ensures i < |alts| ==> alts[i].id == id
  {
    if alts == [] || alts[0].id == id then 0 else 1 + FindType(alts[1..], id)
  }

  /** Translates the index to a type ID and loads the alternative that has it. */
  function LoadAlternative(name: string, s: Shape, index: nat, ts: seq<Token>): Loaded<Value>
    requires s.Variant? && Supported(s)
    decreases s, 0, 1
  {
    if index >= |s.alts| then Err(InvalidFieldType(name)) else LoadVariantValue(name, s, s.alts[index].id, ts)
  }

  function LoadVariantValue(name: string, s: Shape, id: nat, ts: seq<Token>): Loaded<Value>
    requires s.Variant? && Supported(s)
    decreases s, 0, 0
  {
    var i := FindType(s.alts, id);
    if i == |s.alts| then Err(InvalidFieldType(name))
    else
      var r := LoadValue(s.alts[i].shape, ts);
      if r.Err? then r else Ok(Alt(i, r.value), r.rest)
  }
}
