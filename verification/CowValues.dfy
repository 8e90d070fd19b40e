/**
 Copy-on-write handles are indistinguishable from plain values: every run of
 handle operations over shared, counted objects simulates the run of a machine
 in which each handle simply stores a value of its own.
 */
module CowValues {
  import opened Basics
  import opened CountedMemory
  import opened CowHandles

  // -- runs of handle operations ----------------------------------------------

  /** Detach names the object it lets go of; the caller owns that reference from then on. */
  datatype Op<V> =
    | Construct(h: nat)
    | Make(h: nat, v: V)
    | Copy(h: nat, g: nat)
    | Move(h: nat, g: nat)
    | SwapWith(h: nat, g: nat)
    | Clear(h: nat)
    | Drop(h: nat)
    | LetGo(h: nat, a: nat)
    | TakeOver(h: nat, a: nat)
    | Share(h: nat, a: nat)
    | Retain(a: nat)
    | GiveUp(a: nat)
    | MakeUnique(h: nat)
    | Assign(h: nat, v: V)

  /** What the caller owes: the handles exist, the raw pointers are owned, and only values are written to. */
  predicate Permitted<V>(m: Memory<V>, op: Op<V>) {
    match op
    case Construct(h) => h !in m.ptr
    case Move(h, g) => h !in m.ptr && Holds(m, g)
    case Copy(h, g) => Holds(m, h) && Holds(m, g)
    case SwapWith(h, g) => Holds(m, h) && Holds(m, g)
    case LetGo(h, a) => Holds(m, h) && m.ptr[h] == Some(a)
    case TakeOver(h, a) => Holds(m, h) && a in m.raw
    case Share(h, a) => Holds(m, h) && a in m.raw && a in m.count
    case Retain(a) => a in m.raw && a in m.count
    case GiveUp(a) => a in m.raw && a in m.count && m.count[a] > 0
    case Assign(h, _) => Holds(m, h) && m.ptr[h].Some?
    case _ => Holds(m, op.h)
  }

  function Apply<V>(m: Memory<V>, op: Op<V>): Memory<V>
    requires Permitted(m, op)
  {
    match op
    case Construct(h) => Declare(m, h)
    case Make(h, v) => Emplace(m, h, v)
    case Copy(h, g) => Reset(m, h, m.ptr[g], true)
    case Move(h, g) => Adopt(Detach(m, g), h, m.ptr[g])
    case SwapWith(h, g) => Swap(m, h, g)
    case Clear(h) => Reset(m, h, None, true)
    case Drop(h) => Destroy(m, h)
    case LetGo(h, _) => Detach(m, h)
    case TakeOver(h, a) => Reset(m, h, Some(a), false)
    case Share(h, a) => Reset(m, h, Some(a), true)
    case Retain(a) => AddRef(m, a)
    case GiveUp(a) => Release(m, a)
    case MakeUnique(h) => Unshare(m, h)
    case Assign(h, v) => Write(m, h, v)
  }

  lemma ApplySound<V>(m: Memory<V>, op: Op<V>)
    requires Sound(m) && Permitted(m, op)
    ensures Sound(Apply(m, op))
  {
    match op
    case Construct(h) => AdoptSound(m, h, None);
    case Make(h, v) => EmplaceSound(m, h, v);
    case Copy(h, g) => ResetSound(m, h, m.ptr[g], true);
    case Move(h, g) => MoveSound(m, h, g);
    case SwapWith(h, g) => SwapSound(m, h, g);
    case Clear(h) => ResetSound(m, h, None, true);
    case Drop(h) => DestroySound(m, h);
    case LetGo(h, _) => DetachSound(m, h);
    case TakeOver(h, a) => ResetSound(m, h, Some(a), false);
    case Share(h, a) => ResetSound(m, h, Some(a), true);
    case Retain(a) => AddRefSound(m, a);
    case GiveUp(a) => ReleaseSound(m, a);
    case MakeUnique(h) => UnshareSound(m, h);
    case Assign(h, v) => WriteSound(m, h, v);
  }

  lemma MoveSound<V>(m: Memory<V>, h: nat, g: nat)
    requires Sound(m) && h !in m.ptr && Holds(m, g)
    ensures Sound(Adopt(Detach(m, g), h, m.ptr[g]))
  {
    DetachSound(m, g);
    AdoptSound(Detach(m, g), h, m.ptr[g]);
  }

  // -- the machine without sharing --------------------------------------------

  /** A value per handle, and a value per reference that no handle owns. */
  datatype Plain<V> = Plain(handles: map<nat, Option<V>>, raw: multiset<nat>, loose: map<nat, V>)

  function Handles<V>(m: Memory<V>): map<nat, Option<V>>
    requires forall h :: h in m.ptr && m.ptr[h].Some? ==> m.ptr[h].value in m.val
  {
    map h | h in m.ptr :: if m.ptr[h].None? then None else Some(m.val[m.ptr[h].value])
  }

  function Loose<V>(m: Memory<V>): map<nat, V>
    requires forall a :: a in m.raw ==> a in m.val
  {
    map a | a in m.raw :: m.val[a]
  }

  function View<V>(m: Memory<V>): Plain<V>
    requires NoDangling(m)
  {
    Plain(Handles(m), m.raw, Loose(m))
  }

  /** The caller's obligations, in terms of what the plain machine shows. */
  predicate Sensible<V>(s: Plain<V>, op: Op<V>) {
    match op
    case Construct(h) => h !in s.handles
    case Move(h, g) => h !in s.handles && g in s.handles
    case Copy(h, g) => h in s.handles && g in s.handles
    case SwapWith(h, g) => h in s.handles && g in s.handles
    case LetGo(h, a) => h in s.handles && s.handles[h].Some?
    case TakeOver(h, a) => h in s.handles && a in s.raw && a in s.loose
    case Share(h, a) => h in s.handles && a in s.raw && a in s.loose
    case Retain(a) => a in s.raw
    case GiveUp(a) => a in s.raw
    case Assign(h, _) => h in s.handles && s.handles[h].Some?
    case _ => op.h in s.handles
  }

  /** One owner less of loose value `a`, which goes away with its last owner. */
  function Forget<V>(s: Plain<V>, a: nat): Plain<V> {
    s.(raw := s.raw - multiset{a}, loose := if s.raw[a] == 1 then s.loose - {a} else s.loose)
  }

  function PlainStep<V>(s: Plain<V>, op: Op<V>): Plain<V>
    requires Sensible(s, op)
  {
    match op
    case Construct(h) => s.(handles := s.handles[h := None])
    case Make(h, v) => s.(handles := s.handles[h := Some(v)])
    case Copy(h, g) => s.(handles := s.handles[h := s.handles[g]])
    case Move(h, g) => s.(handles := s.handles[g := None][h := s.handles[g]])
    case SwapWith(h, g) => s.(handles := s.handles[h := s.handles[g]][g := s.handles[h]])
    case Clear(h) => s.(handles := s.handles[h := None])
    case Drop(h) => s.(handles := s.handles - {h})
    case LetGo(h, a) =>
      Plain(s.handles[h := None], s.raw + multiset{a}, s.loose[a := s.handles[h].value])
    case TakeOver(h, a) => Forget(s, a).(handles := s.handles[h := Some(s.loose[a])])
    case Share(h, a) => s.(handles := s.handles[h := Some(s.loose[a])])
    case Retain(a) => s.(raw := s.raw + multiset{a})
    case GiveUp(a) => Forget(s, a)
    case MakeUnique(_) => s
    case Assign(h, v) => s.(handles := s.handles[h := Some(v)])
  }

  // -- one step ---------------------------------------------------------------

  /** Redirecting one handle to an old object, or to none, changes what that handle reads and no more. */
  lemma Redirected<V>(m: Memory<V>, m': Memory<V>, h: nat, p: Option<nat>)
    requires NoDangling(m) && NoDangling(m') && Keeps(m, m')
    requires m'.ptr == m.ptr[h := p] && (p.Some? ==> p.value in m.val)
    ensures Handles(m') == Handles(m)[h := if p.None? then None else Some(m.val[p.value])]
  {
  }

  /** Loose values never change while they have an owner. */
  lemma LooseKept<V>(m: Memory<V>, m': Memory<V>)
    requires NoDangling(m) && NoDangling(m') && Keeps(m, m') && m'.raw == m.raw
    ensures Loose(m') == Loose(m)
  {
  }

  lemma LooseForgotten<V>(m: Memory<V>, m': Memory<V>, a: nat)
    requires NoDangling(m) && NoDangling(m') && Keeps(m, m') && a in m.raw && m'.raw == m.raw - multiset{a}
    ensures Loose(m') == if m.raw[a] == 1 then Loose(m) - {a} else Loose(m)
  {
  }

  lemma ResetView<V>(m: Memory<V>, m': Memory<V>, h: nat, p: Option<nat>, adopt: bool)
    requires NoDangling(m) && NoDangling(m') && Keeps(m, m') && m'.ptr == m.ptr[h := p]
    requires p.Some? ==> p.value in m.val && (adopt ==> p.value in m.raw)
    requires m'.raw == if p.Some? && adopt then m.raw - multiset{p.value} else m.raw
    ensures Handles(m') == Handles(m)[h := if p.None? then None else Some(m.val[p.value])]
    ensures View(m') == (if p.Some? && adopt then Forget(View(m), p.value) else View(m)).(handles := Handles(m'))
  {
    Redirected(m, m', h, p);
    if p.Some? && adopt {
      LooseForgotten(m, m', p.value);
    } else {
      LooseKept(m, m');
    }
  }

  lemma EmplaceView<V>(m: Memory<V>, m': Memory<V>, h: nat, v: V)
    requires NoDangling(m) && NoDangling(m') && Keeps(m, m')
    requires m'.ptr == m.ptr[h := Some(m.next)] && m.next in m'.val && m'.val[m.next] == v && m'.raw == m.raw
    ensures View(m') == View(m).(handles := Handles(m)[h := Some(v)])
  {
  }

  lemma SameValue<V>(m: Memory<V>, h: nat)
    requires NoDangling(m) && Holds(m, h) && m.ptr[h].Some?
    ensures Handles(m)[h := Some(m.val[m.ptr[h].value])] == Handles(m)
  {
  }

  /** An object with count 1 that a handle points to has no other owner. */
  lemma SoleOwner<V>(m: Memory<V>, h: nat)
    requires Sound(m) && Holds(m, h) && m.ptr[h].Some? && m.count[m.ptr[h].value] == 1
    ensures var a := m.ptr[h].value;
      a !in m.raw && forall g :: g in m.ptr && g != h ==> m.ptr[g] != Some(a)
  {
    var a := m.ptr[h].value;
    assert h in Holders(m.ptr, a);
    assert |Holders(m.ptr, a) - {h}| + 1 == |Holders(m.ptr, a)|;
    assert Holders(m.ptr, a) - {h} == {};
    forall g | g in m.ptr && g != h ensures m.ptr[g] != Some(a) {
      assert g !in Holders(m.ptr, a) - {h};
    }
  }

  lemma StoreView<V>(m: Memory<V>, h: nat, v: V)
    requires NoDangling(m) && Holds(m, h) && m.ptr[h].Some?
    requires m.ptr[h].value !in m.raw && forall g :: g in m.ptr && g != h ==> m.ptr[g] != m.ptr[h]
    ensures var m' := m.(val := m.val[m.ptr[h].value := v]);
      NoDangling(m') && View(m') == View(m).(handles := Handles(m)[h := Some(v)])
  {
  }

  // -- the steps, one group of operations at a time ---------------------------

  /** What a view needs to know about the states before and after a step. */
  ghost predicate Linked<V>(m: Memory<V>, m': Memory<V>) {
    NoDangling(m) && NoDangling(m') && m.next !in m.val
  }

  lemma ResetSteps<V>(m: Memory<V>, m': Memory<V>, op: Op<V>)
    requires Permitted(m, op) && m' == Apply(m, op) && Linked(m, m')
    requires op.Copy? || op.Clear? || op.TakeOver? || op.Share?
    ensures Sensible(View(m), op) && View(m') == PlainStep(View(m), op)
  {
    var p := if op.Copy? then m.ptr[op.g] else if op.Clear? then None else Some(op.a);
    ResetEffect(m, op.h, p, !op.TakeOver?);
    ResetView(m, m', op.h, p, op.TakeOver?);
  }

  lemma MakeStep<V>(m: Memory<V>, m': Memory<V>, h: nat, v: V)
    requires Holds(m, h) && m' == Emplace(m, h, v) && Linked(m, m')
    ensures View(m') == View(m).(handles := Handles(m)[h := Some(v)])
  {
    EmplaceEffect(m, h, v);
    EmplaceView(m, m', h, v);
  }

  lemma UniqueStep<V>(m: Memory<V>, m': Memory<V>, h: nat)
    requires Holds(m, h) && m' == Unshare(m, h) && Linked(m, m')
    ensures View(m') == View(m)
  {
    if m.ptr[h].Some? && m.count[m.ptr[h].value] != 1 {
      MakeStep(m, m', h, m.val[m.ptr[h].value]);
      SameValue(m, h);
    }
  }

  lemma MoveStep<V>(m: Memory<V>, m': Memory<V>, h: nat, g: nat)
    requires h !in m.ptr && Holds(m, g) && m' == Apply(m, Move(h, g)) && Linked(m, m')
    ensures View(m') == PlainStep(View(m), Move(h, g))
  {
    Moved(m, m', h, g);
    LooseKept(m, m');
  }

  lemma Moved<V>(m: Memory<V>, m': Memory<V>, h: nat, g: nat)
    requires NoDangling(m) && NoDangling(m') && h !in m.ptr && g in m.ptr
    requires m'.ptr == m.ptr[g := None][h := m.ptr[g]] && m'.val == m.val
    ensures Handles(m') == Handles(m)[g := None][h := Handles(m)[g]]
  {
  }

  lemma SwapStep<V>(m: Memory<V>, m': Memory<V>, h: nat, g: nat)
    requires Holds(m, h) && Holds(m, g) && m' == Swap(m, h, g) && Linked(m, m')
    ensures View(m') == PlainStep(View(m), SwapWith(h, g))
  {
    Swapped(m, m', h, g);
    LooseKept(m, m');
  }

  lemma Swapped<V>(m: Memory<V>, m': Memory<V>, h: nat, g: nat)
    requires NoDangling(m) && NoDangling(m') && h in m.ptr && g in m.ptr
    requires m'.ptr == m.ptr[h := m.ptr[g]][g := m.ptr[h]] && m'.val == m.val
    ensures Handles(m') == Handles(m)[h := Handles(m)[g]][g := Handles(m)[h]]
  {
  }

  lemma DropStep<V>(m: Memory<V>, m': Memory<V>, h: nat)
    requires Holds(m, h) && m' == Destroy(m, h) && Linked(m, m')
    ensures View(m') == PlainStep(View(m), Drop(h))
  {
    DestroyEffect(m, h);
    Removed(m, m', h);
    LooseKept(m, m');
  }

  lemma Removed<V>(m: Memory<V>, m': Memory<V>, h: nat)
    requires NoDangling(m) && NoDangling(m') && Keeps(m, m') && m'.ptr == m.ptr - {h}
    ensures Handles(m') == Handles(m) - {h}
  {
  }

  lemma LetGoStep<V>(m: Memory<V>, m': Memory<V>, h: nat, a: nat)
    requires Holds(m, h) && m.ptr[h] == Some(a) && m' == Detach(m, h) && Linked(m, m')
    ensures View(m') == PlainStep(View(m), LetGo(h, a))
  {
    Redirected(m, m', h, None);
    assert Loose(m') == Loose(m)[a := m.val[a]];
  }

  lemma RetainStep<V>(m: Memory<V>, m': Memory<V>, a: nat)
    requires Permitted(m, Retain(a)) && m' == AddRef(m, a) && Linked(m, m')
    ensures View(m') == PlainStep(View(m), Retain(a))
  {
  }

  lemma GiveUpStep<V>(m: Memory<V>, m': Memory<V>, a: nat)
    requires Permitted(m, GiveUp(a)) && m' == Release(m, a) && Linked(m, m')
    ensures View(m') == PlainStep(View(m), GiveUp(a))
  {
    HandlesKept(m, m');
    LooseForgotten(m, m', a);
  }

  lemma HandlesKept<V>(m: Memory<V>, m': Memory<V>)
    requires NoDangling(m) && NoDangling(m') && Keeps(m, m') && m'.ptr == m.ptr
    ensures Handles(m') == Handles(m)
  {
  }

  /** After unsharing, the handle is the only owner of its object. */
  lemma UnshareAlone<V>(m: Memory<V>, h: nat)
    requires Sound(m) && Holds(m, h) && m.ptr[h].Some?
    ensures var m' := Unshare(m, h);
      && Linked(m, m') && Holds(m', h) && m'.ptr[h].Some? && m'.ptr[h].value !in m'.raw
      && forall g :: g in m'.ptr && g != h ==> m'.ptr[g] != m'.ptr[h]
  {
    UnshareSound(m, h);
    SoundHolds(m, h);
    EmplaceEffect(m, h, m.val[m.ptr[h].value]);
    SoleOwner(Unshare(m, h), h);
  }

  lemma AssignStep<V>(m: Memory<V>, m': Memory<V>, h: nat, v: V)
    requires Holds(m, h) && m.ptr[h].Some? && m' == Write(m, h, v)
    requires var m1 := Unshare(m, h);
      && Linked(m, m1) && Holds(m1, h) && m1.ptr[h].Some? && m1.ptr[h].value !in m1.raw
      && forall g :: g in m1.ptr && g != h ==> m1.ptr[g] != m1.ptr[h]
    ensures NoDangling(m') && View(m') == PlainStep(View(m), Assign(h, v))
  {
    UniqueStep(m, Unshare(m, h), h);
    StoreView(Unshare(m, h), h, v);
  }

  /** Every operation simulates the step of the machine without sharing. */
  lemma StepSimulates<V>(m: Memory<V>, m': Memory<V>, op: Op<V>)
    requires Permitted(m, op) && m' == Apply(m, op) && Linked(m, m') && !op.Assign?
    ensures Sensible(View(m), op) && View(m') == PlainStep(View(m), op)
  {
    match op
    case Construct(h) => Redirected(m, m', h, None); LooseKept(m, m');
    case Make(h, v) => MakeStep(m, m', h, v);
    case Move(h, g) => MoveStep(m, m', h, g);
    case SwapWith(h, g) => SwapStep(m, m', h, g);
    case Drop(h) => DropStep(m, m', h);
    case LetGo(h, a) => LetGoStep(m, m', h, a);
    case Retain(a) => RetainStep(m, m', a);
    case GiveUp(a) => GiveUpStep(m, m', a);
    case MakeUnique(h) => UniqueStep(m, m', h);
    case _ => ResetSteps(m, m', op);
  }

  lemma SoundLinked<V>(m: Memory<V>, op: Op<V>)
    requires Sound(m) && Permitted(m, op)
    ensures Linked(m, Apply(m, op))
  {
    ApplySound(m, op);
  }

  lemma ApplySimulates<V>(m: Memory<V>, op: Op<V>)
    requires Sound(m) && Permitted(m, op)
    ensures Linked(m, Apply(m, op))
    ensures Sensible(View(m), op) && View(Apply(m, op)) == PlainStep(View(m), op)
  {
    SoundLinked(m, op);
    if op.Assign? {
      UnshareAlone(m, op.h);
      AssignStep(m, Apply(m, op), op.h, op.v);
    } else {
      StepSimulates(m, Apply(m, op), op);
    }
  }

  /** The machine without sharing permits the same operations; LetGo must also name the right object. */
  lemma PermittedIffSensible<V>(m: Memory<V>, op: Op<V>)
    requires Sound(m)
    ensures NoDangling(m)
    ensures Permitted(m, op) <==> Sensible(View(m), op) && (op.LetGo? ==> m.ptr[op.h] == Some(op.a))
  {
    AllHold(m);
    SensibleWhenHeld(m, op);
  }

  lemma AllHold<V>(m: Memory<V>)
    requires Sound(m)
    ensures forall h :: h in m.ptr ==> Holds(m, h)
    ensures forall a :: a in m.raw ==> a in m.count && m.count[a] > 0
  {
  }

  lemma SensibleWhenHeld<V>(m: Memory<V>, op: Op<V>)
    requires NoDangling(m)
    requires forall h :: h in m.ptr ==> Holds(m, h)
    requires forall a :: a in m.raw ==> a in m.count && m.count[a] > 0
    ensures Permitted(m, op) <==> Sensible(View(m), op) && (op.LetGo? ==> m.ptr[op.h] == Some(op.a))
  {
  }

  // -- whole runs -------------------------------------------------------------

  function Start<V>(): Memory<V> {
    Memory(map[], map[], map[], multiset{}, multiset{}, 0)
  }

  ghost predicate IsRun<V>(run: seq<Memory<V>>, ops: seq<Op<V>>) {
    && |run| == |ops| + 1
    && run[0] == Start()
    && forall i :: 0 <= i < |ops| ==> Permitted(run[i], ops[i]) && run[i + 1] == Apply(run[i], ops[i])
  }

  /**
   In every run, each live object's count is the number of its handles and
   detached owners and is positive, every object ever created is either live or
   was deleted exactly once, and nothing refers to a deleted object.
   */
  lemma {:induction false} RunSound<V>(run: seq<Memory<V>>, ops: seq<Op<V>>, i: nat)
    requires IsRun(run, ops) && i < |run|
    ensures Sound(run[i])
  {
    if i > 0 {
      RunSound(run, ops, i - 1);
      ApplySound(run[i - 1], ops[i - 1]);
    }
  }

  /** In every run, an object has been deleted once exactly when nothing owns it any more, and never twice. */
  lemma DeletedExactlyWhenUnowned<V>(run: seq<Memory<V>>, ops: seq<Op<V>>, i: nat, a: nat)
    requires IsRun(run, ops) && i < |run| && a < run[i].next
    ensures run[i].freed[a] == if Owners(run[i], a) == 0 then 1 else 0
  {
    RunSound(run, ops, i);
    if a !in run[i].count {
      assert Holders(run[i].ptr, a) == {};
    }
  }

  /** A run of the machine without sharing. */
  ghost predicate IsPlainRun<V>(run: seq<Plain<V>>, ops: seq<Op<V>>) {
    && |run| == |ops| + 1
    && run[0] == Plain(map[], multiset{}, map[])
    && forall i :: 0 <= i < |ops| ==> Sensible(run[i], ops[i]) && run[i + 1] == PlainStep(run[i], ops[i])
  }

  ghost predicate AllLinked<V>(run: seq<Memory<V>>) {
    forall i :: 0 <= i < |run| ==> NoDangling(run[i])
  }

  /** What can be read through the handles and the detached references, state by state. */
  ghost function Views<V>(run: seq<Memory<V>>): (plain: seq<Plain<V>>)
    requires AllLinked(run)
    ensures |plain| == |run| && forall i :: 0 <= i < |run| ==> plain[i] == View(run[i])
  {
    if run == [] then [] else Views(run[..|run| - 1]) + [View(run[|run| - 1])]
  }

  /**
   Copy-on-write handles refine plain values: whatever operations are performed,
   each handle reads what it would read if every handle stored its own value.
   */
  lemma HandlesArePlainValues<V>(run: seq<Memory<V>>, ops: seq<Op<V>>)
    requires IsRun(run, ops)
    ensures AllLinked(run) && IsPlainRun(Views(run), ops)
  {
    forall i | 0 <= i < |run| ensures NoDangling(run[i]) {
      RunSound(run, ops, i);
    }
    var plain := Views(run);
    forall i | 0 <= i < |ops|
      ensures Sensible(plain[i], ops[i]) && plain[i + 1] == PlainStep(plain[i], ops[i])
    {
      RunSound(run, ops, i);
      ApplySimulates(run[i], ops[i]);
    }
  }

  /** A write through one handle is seen through no other handle and by no detached owner. */
  lemma WritesArePrivate<V>(run: seq<Memory<V>>, ops: seq<Op<V>>, i: nat, g: nat)
    requires IsRun(run, ops) && i < |ops| && ops[i].Assign? && g in run[i].ptr && g != ops[i].h
    ensures NoDangling(run[i]) && NoDangling(run[i + 1])
    ensures g in run[i + 1].ptr && Handles(run[i + 1])[g] == Handles(run[i])[g]
    ensures Handles(run[i + 1])[ops[i].h] == Some(ops[i].v)
    ensures Loose(run[i + 1]) == Loose(run[i])
  {
    RunSound(run, ops, i);
    ApplySimulates(run[i], ops[i]);
    assert g in Handles(run[i + 1]);
  }
}
