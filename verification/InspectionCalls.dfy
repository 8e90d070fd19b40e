/**
 Which types the saving side of the inspector API can handle at all: the calls
 that `save` and `save_field` make to each other, by the type they are made for.
 For an optional in place of a value that may be absent, `save_field` calls
 itself (libcaf_core/caf/inspector_access.hpp), and nothing else ever runs in
 circles.
 */
module InspectionCalls {
  import opened Inspection

  /**
   A call for a value of shape `s`: `save`, `save_field` for a value, or
   `save_field` for a value that may be absent.
   */
  datatype Call = Save(s: Shape) | SaveIn(s: Shape) | SaveMaybe(s: Shape)

  ghost predicate ObjectCalls(f: Field, c: Call) {
    c == if f.fallback.Some? then SaveMaybe(f.shape) else SaveIn(f.shape)
  }

  /** Call `c` can make call `d`. */
  ghost predicate Makes(c: Call, d: Call) {
    match c
    case Save(Builtin) => false
    case Save(Tuple(items)) => exists i :: 0 <= i < |items| && d == Save(items[i])
    case Save(Listing(item)) => d == Save(item)
    case Save(Mapping(key, item)) => d == Save(key) || d == Save(item)
    case Save(Object(_, fields)) => exists i :: 0 <= i < |fields| && ObjectCalls(fields[i], d)
    case Save(s) => d == SaveIn(s)
    case SaveIn(Optional(item)) => d == SaveMaybe(item)
    case SaveMaybe(Optional(item)) => d == SaveMaybe(Optional(item))
    case SaveIn(Variant(alts)) => exists i :: 0 <= i < |alts| && d == Save(alts[i].shape)
    case SaveMaybe(Variant(alts)) => exists i :: 0 <= i < |alts| && d == Save(alts[i].shape)
    case SaveIn(s) => d == Save(s)
    case SaveMaybe(s) => d == Save(s)
  }

  /** At no depth an optional that directly holds an optional, or that has a fallback. */
  predicate Calm(s: Shape)
    decreases s
  {
    match s
    case Builtin => true
    case Tuple(items) => forall i :: 0 <= i < |items| ==> Calm(items[i])
    case Listing(item) => Calm(item)
    case Mapping(key, item) => Calm(key) && Calm(item)
    case Optional(item) => !item.Optional? && Calm(item)
    case Variant(alts) => forall i :: 0 <= i < |alts| ==> Calm(alts[i].shape)
    case Object(_, fields) =>
      forall i :: 0 <= i < |fields| ==> Calm(fields[i].shape) && !(fields[i].shape.Optional? && fields[i].fallback.Some?)
  }

  lemma {:induction false} SupportedIsCalm(s: Shape)
    requires Supported(s)
    ensures Calm(s)
    decreases s
  {
    match s
    case Builtin =>
    case Tuple(items) => forall i | 0 <= i < |items| ensures Calm(items[i]) { SupportedIsCalm(items[i]); }
    case Listing(item) => SupportedIsCalm(item);
    case Mapping(key, item) => SupportedIsCalm(key); SupportedIsCalm(item);
    case Optional(item) => SupportedIsCalm(item);
    case Variant(alts) => forall i | 0 <= i < |alts| ensures Calm(alts[i].shape) { SupportedIsCalm(alts[i].shape); }
    case Object(_, fields) =>
      forall i | 0 <= i < |fields| ensures Calm(fields[i].shape) { SupportedIsCalm(fields[i].shape); }
  }

  // -- calm calls come to an end ----------------------------------------------

  ghost predicate CalmCall(c: Call) {
    Calm(c.s) && !(c.SaveMaybe? && c.s.Optional?)
  }

  ghost function Order(c: Call): nat {
    if c.Save? then Rank(c.s) else 2
  }

  lemma CalmMakesCalm(c: Call, d: Call)
    requires CalmCall(c) && Makes(c, d)
    ensures CalmCall(d) && (d.s < c.s || (d.s == c.s && Order(d) < Order(c)))
  {
    match c
    case Save(Object(_, fields)) =>
      var i :| 0 <= i < |fields| && ObjectCalls(fields[i], d);
      assert fields[i].shape < c.s;
    case _ =>
  }

  /** The calls of a calm type never go on forever. */
  lemma {:induction false} CallsEnd(calls: nat -> Call, i: nat) returns (k: nat)
    requires CalmCall(calls(i))
    ensures !Makes(calls(k), calls(k + 1))
    decreases calls(i).s, Order(calls(i))
  {
    if Makes(calls(i), calls(i + 1)) {
      CalmMakesCalm(calls(i), calls(i + 1));
      k := CallsEnd(calls, i + 1);
    } else {
      k := i;
    }
  }

  // -- the others run in circles ----------------------------------------------

  ghost predicate IsLoop(p: seq<Call>, c: Call) {
    && p != [] && p[0] == c
    && (forall i :: 0 <= i < |p| - 1 ==> Makes(p[i], p[i + 1]))
    && Makes(p[|p| - 1], p[|p| - 1])
  }

  lemma Prepend(c: Call, p: seq<Call>)
    requires p != [] && Makes(c, p[0]) && IsLoop(p, p[0])
    ensures IsLoop([c] + p, c)
  {
    var q := [c] + p;
    forall i | 0 <= i < |q| - 1 ensures Makes(q[i], q[i + 1]) {
      assert i > 0 ==> q[i] == p[i - 1] && q[i + 1] == p[i];
    }
  }

  /** From a type that is not calm, calls lead to one that makes itself. */
  lemma {:induction false} FindLoop(s: Shape) returns (p: seq<Call>)
    requires !Calm(s)
    ensures IsLoop(p, Save(s))
    decreases s, 0
  {
    match s
    case Tuple(items) =>
      var i :| 0 <= i < |items| && !Calm(items[i]);
      p := FindLoop(items[i]);
      Prepend(Save(s), p);
      p := [Save(s)] + p;
    case Listing(item) =>
      p := FindLoop(item);
      Prepend(Save(s), p);
      p := [Save(s)] + p;
    case Mapping(key, item) =>
      p := FindLoop(if Calm(key) then item else key);
      Prepend(Save(s), p);
      p := [Save(s)] + p;
    case Optional(item) =>
      p := LoopInMaybe(item);
      Prepend(SaveIn(s), p);
      Prepend(Save(s), [SaveIn(s)] + p);
      p := [Save(s)] + ([SaveIn(s)] + p);
    case Variant(alts) =>
      var i :| 0 <= i < |alts| && !Calm(alts[i].shape);
      p := FindLoop(alts[i].shape);
      Prepend(SaveIn(s), p);
      Prepend(Save(s), [SaveIn(s)] + p);
      p := [Save(s)] + ([SaveIn(s)] + p);
    case Object(_, fields) =>
      var i :| 0 <= i < |fields| && !(Calm(fields[i].shape) && !(fields[i].shape.Optional? && fields[i].fallback.Some?));
      var f := fields[i];
      if f.fallback.Some? {
        p := LoopInMaybe(f.shape);
      } else {
        p := LoopIn(f.shape);
      }
      Prepend(Save(s), p);
      p := [Save(s)] + p;
  }

  lemma {:induction false} LoopInMaybe(s: Shape) returns (p: seq<Call>)
    requires s.Optional? || !Calm(s)
    ensures IsLoop(p, SaveMaybe(s))
    decreases s, 1
  {
    if s.Optional? {
      p := [SaveMaybe(s)];
    } else if s.Variant? {
      var i :| 0 <= i < |s.alts| && !Calm(s.alts[i].shape);
      p := FindLoop(s.alts[i].shape);
      Prepend(SaveMaybe(s), p);
      p := [SaveMaybe(s)] + p;
    } else {
      p := FindLoop(s);
      Prepend(SaveMaybe(s), p);
      p := [SaveMaybe(s)] + p;
    }
  }

  lemma {:induction false} LoopIn(s: Shape) returns (p: seq<Call>)
    requires !Calm(s)
    ensures IsLoop(p, SaveIn(s))
    decreases s, 1
  {
    if s.Optional? {
      p := LoopInMaybe(s.item);
    } else if s.Variant? {
      var i :| 0 <= i < |s.alts| && !Calm(s.alts[i].shape);
      p := FindLoop(s.alts[i].shape);
    } else {
      p := FindLoop(s);
    }
    Prepend(SaveIn(s), p);
    p := [SaveIn(s)] + p;
  }

  // -- both together ----------------------------------------------------------

  /** Calls that follow each other without end. */
  ghost predicate Endless(calls: nat -> Call) {
    forall i: nat :: Makes(calls(i), calls(i + 1))
  }

  /** Saving a value of type `s` can go on forever exactly if the type is not calm. */
  lemma SavingEndsIffCalm(s: Shape)
    ensures (exists calls: nat -> Call :: calls(0) == Save(s) && Endless(calls)) <==> !Calm(s)
  {
    if Calm(s) {
      forall calls: nat -> Call | calls(0) == Save(s) ensures !Endless(calls) {
        var k := CallsEnd(calls, 0);
      }
    } else {
      var p := FindLoop(s);
      var calls := Forever(p);
      forall i: nat ensures Makes(calls(i), calls(i + 1)) {
      }
      assert calls(0) == Save(s) && Endless(calls);
    }
  }

  ghost function Forever(p: seq<Call>): nat -> Call
    requires p != []
  {
    (i: nat) => if i < |p| then p[i] else p[|p| - 1]
  }
}
