/**
 Operations on handles (libcaf_core/caf/intrusive_ptr.hpp,
 libcaf_core/caf/intrusive_cow_ptr.hpp), what each does to the handles, and that
 each keeps every reference count exact.
 */
module CowHandles {
  import opened Basics
  import opened CountedMemory

  /** Handle `h` exists, and the object it points to is live. */
  predicate Holds<V>(m: Memory<V>, h: nat) {
    && h in m.ptr
    && (m.ptr[h].Some? ==>
          m.ptr[h].value in m.count && m.ptr[h].value in m.val && m.count[m.ptr[h].value] > 0)
  }

  /** The objects that survive hold the values they held before. */
  ghost predicate Keeps<V>(m: Memory<V>, m': Memory<V>) {
    forall a :: a in m'.val && a in m.val ==> m'.val[a] == m.val[a]
  }

  // -- operations -------------------------------------------------------------

  /** Lets a handle adopt raw reference `p` and gives up the reference it had. */
  function Replace<V>(m: Memory<V>, h: nat, p: Option<nat>): Memory<V>
    requires Holds(m, h)
  {
    var m1 := Adopt(Detach(m, h), h, p);
    if m.ptr[h].None? then m1 else Release(m1, m.ptr[h].value)
  }

  /** Replaces a handle's object: the new reference is taken before the old one is given up. */
  function Reset<V>(m: Memory<V>, h: nat, p: Option<nat>, addRef: bool): Memory<V>
    requires Holds(m, h)
    requires p.Some? && addRef ==> p.value in m.count
  {
    Replace(if p.Some? && addRef then AddRef(m, p.value) else m, h, p)
  }

  /** A new, empty handle. */
  function Declare<V>(m: Memory<V>, h: nat): Memory<V> {
    Adopt(m, h, None)
  }

  /** Destroys a handle and gives up its reference. */
  function Destroy<V>(m: Memory<V>, h: nat): Memory<V>
    requires Holds(m, h)
  {
    var m1 := Replace(m, h, None);
    m1.(ptr := m1.ptr - {h})
  }

  /** Lets the handle manage a new object. */
  function Emplace<V>(m: Memory<V>, h: nat, v: V): Memory<V>
    requires Holds(m, h)
  {
    Replace(Alloc(m, v), h, Some(m.next))
  }

  function Swap<V>(m: Memory<V>, h: nat, g: nat): Memory<V>
    requires h in m.ptr && g in m.ptr
  {
    m.(ptr := m.ptr[h := m.ptr[g]][g := m.ptr[h]])
  }

  /** Gives the handle an object of its own unless it already has one. */
  function Unshare<V>(m: Memory<V>, h: nat): Memory<V>
    requires Holds(m, h)
  {
    if m.ptr[h].None? || m.count[m.ptr[h].value] == 1 then m else Emplace(m, h, m.val[m.ptr[h].value])
  }

  /** Assigns through the mutable reference of a handle. */
  function Write<V>(m: Memory<V>, h: nat, v: V): Memory<V>
    requires Holds(m, h) && m.ptr[h].Some?
  {
    var m1 := Unshare(m, h);
    EmplaceEffect(m, h, m.val[m.ptr[h].value]);
    m1.(val := m1.val[m1.ptr[h].value := v])
  }

  // -- what they do to handles and values -------------------------------------

  lemma ReplaceEffect<V>(m: Memory<V>, h: nat, p: Option<nat>)
    requires Holds(m, h) && (p.Some? ==> p.value in m.raw)
    ensures var m' := Replace(m, h, p);
      && m'.ptr == m.ptr[h := p]
      && m'.raw == (if p.Some? then m.raw - multiset{p.value} else m.raw)
  {
    ReplacePtr(m, h, p);
    ReplaceRaw(m, h, p);
  }

  lemma ReplacePtr<V>(m: Memory<V>, h: nat, p: Option<nat>)
    requires Holds(m, h)
    ensures Replace(m, h, p).ptr == m.ptr[h := p]
  {
    Overwritten(m.ptr, h, p);
    var m1 := Adopt(Detach(m, h), h, p);
    assert m1.ptr == m.ptr[h := p];
    assert Replace(m, h, p).ptr == m1.ptr;
  }

  lemma Overwritten(ptr: map<nat, Option<nat>>, h: nat, p: Option<nat>)
    ensures ptr[h := None][h := p] == ptr[h := p]
  {
  }

  lemma ReplaceRaw<V>(m: Memory<V>, h: nat, p: Option<nat>)
    requires Holds(m, h) && (p.Some? ==> p.value in m.raw)
    ensures Replace(m, h, p).raw == if p.Some? then m.raw - multiset{p.value} else m.raw
  {
    if m.ptr[h].Some? {
      var a := m.ptr[h].value;
      var raw := Adopt(Detach(m, h), h, p).raw;
      assert Replace(m, h, p).raw == raw - multiset{a};
      if p.Some? {
        Exchange(m.raw, a, p.value);
      } else {
        assert m.raw + multiset{a} - multiset{a} == m.raw;
      }
    }
  }

  lemma ReplaceKeeps<V>(m: Memory<V>, h: nat, p: Option<nat>)
    requires Holds(m, h)
    ensures Keeps(m, Replace(m, h, p))
  {
  }

  lemma Exchange(raw: multiset<nat>, a: nat, p: nat)
    requires p in raw
    ensures raw + multiset{a} - multiset{p} - multiset{a} == raw - multiset{p}
  {
  }

  lemma ResetEffect<V>(m: Memory<V>, h: nat, p: Option<nat>, addRef: bool)
    requires Holds(m, h) && (p.Some? ==> if addRef then p.value in m.count else p.value in m.raw)
    ensures var m' := Reset(m, h, p, addRef);
      && m'.ptr == m.ptr[h := p]
      && m'.raw == (if p.Some? && !addRef then m.raw - multiset{p.value} else m.raw)
      && Keeps(m, m')
  {
    if p.Some? && addRef {
      ReplaceEffect(AddRef(m, p.value), h, p);
      ReplaceKeeps(AddRef(m, p.value), h, p);
      assert m.raw + multiset{p.value} - multiset{p.value} == m.raw;
    } else {
      ReplaceEffect(m, h, p);
      ReplaceKeeps(m, h, p);
    }
  }

  lemma DestroyEffect<V>(m: Memory<V>, h: nat)
    requires Holds(m, h)
    ensures var m' := Destroy(m, h);
      m'.ptr == m.ptr - {h} && m'.raw == m.raw && Keeps(m, m')
  {
    ReplaceEffect(m, h, None);
    ReplaceKeeps(m, h, None);
    Emptied(m.ptr, h);
  }

  lemma Emptied(ptr: map<nat, Option<nat>>, h: nat)
    ensures ptr[h := None] - {h} == ptr - {h}
  {
  }

  lemma EmplaceEffect<V>(m: Memory<V>, h: nat, v: V)
    requires Holds(m, h)
    ensures var m' := Emplace(m, h, v);
      && m'.ptr == m.ptr[h := Some(m.next)]
      && m'.raw == m.raw
      && (m.next !in m.val ==> Keeps(m, m'))
      && (m.ptr[h] != Some(m.next) ==>
            m.next in m'.val && m'.val[m.next] == v && m.next in m'.count && m'.count[m.next] == 1)
  {
    EmplacePlace(m, h, v);
    if m.ptr[h] != Some(m.next) {
      EmplaceValue(m, h, v);
    }
    if m.next !in m.val {
      ReplaceKeeps(Alloc(m, v), h, Some(m.next));
    }
  }

  lemma EmplacePlace<V>(m: Memory<V>, h: nat, v: V)
    requires Holds(m, h)
    ensures Emplace(m, h, v).ptr == m.ptr[h := Some(m.next)] && Emplace(m, h, v).raw == m.raw
  {
    ReplaceEffect(Alloc(m, v), h, Some(m.next));
    assert m.raw + multiset{m.next} - multiset{m.next} == m.raw;
  }

  lemma EmplaceValue<V>(m: Memory<V>, h: nat, v: V)
    requires Holds(m, h) && m.ptr[h] != Some(m.next)
    ensures var m' := Emplace(m, h, v);
      m.next in m'.val && m'.val[m.next] == v && m.next in m'.count && m'.count[m.next] == 1
  {
  }

  // -- every operation keeps the counts exact ---------------------------------

  lemma SoundHolds<V>(m: Memory<V>, h: nat)
    requires Sound(m) && h in m.ptr
    ensures Holds(m, h) && m.ptr[h] != Some(m.next) && m.next !in m.val
  {
  }

  lemma ReplaceSound<V>(m: Memory<V>, h: nat, p: Option<nat>)
    requires Sound(m) && Holds(m, h) && (p.Some? ==> p.value in m.raw)
    ensures Sound(Replace(m, h, p))
  {
    DetachSound(m, h);
    AdoptSound(Detach(m, h), h, p);
    if m.ptr[h].Some? {
      ReleaseSound(Adopt(Detach(m, h), h, p), m.ptr[h].value);
    }
  }

  lemma ResetSound<V>(m: Memory<V>, h: nat, p: Option<nat>, addRef: bool)
    requires Sound(m) && Holds(m, h)
    requires p.Some? ==> if addRef then p.value in m.count else p.value in m.raw
    ensures Sound(Reset(m, h, p, addRef))
  {
    if p.Some? && addRef {
      AddRefSound(m, p.value);
      ReplaceSound(AddRef(m, p.value), h, p);
    } else {
      ReplaceSound(m, h, p);
    }
  }

  lemma DestroySound<V>(m: Memory<V>, h: nat)
    requires Sound(m) && Holds(m, h)
    ensures Sound(Destroy(m, h))
  {
    ReplaceSound(m, h, None);
    ReplaceEffect(m, h, None);
    ForgetSound(Replace(m, h, None), h);
  }

  lemma ForgetSound<V>(m: Memory<V>, h: nat)
    requires Sound(m) && h in m.ptr && m.ptr[h].None?
    ensures Sound(m.(ptr := m.ptr - {h}))
  {
    forall a: nat ensures Holders(m.ptr - {h}, a) == Holders(m.ptr, a) {
      HoldersRemove(m.ptr, h, a);
    }
  }

  lemma EmplaceSound<V>(m: Memory<V>, h: nat, v: V)
    requires Sound(m) && Holds(m, h)
    ensures Sound(Emplace(m, h, v))
  {
    AllocSound(m, v);
    ReplaceSound(Alloc(m, v), h, Some(m.next));
  }

  lemma SwapSound<V>(m: Memory<V>, h: nat, g: nat)
    requires Sound(m) && h in m.ptr && g in m.ptr
    ensures Sound(Swap(m, h, g))
  {
    forall a: nat ensures |Holders(m.ptr[h := m.ptr[g]][g := m.ptr[h]], a)| == |Holders(m.ptr, a)| {
      HoldersUpdate(m.ptr, h, m.ptr[g], a);
      HoldersUpdate(m.ptr[h := m.ptr[g]], g, m.ptr[h], a);
    }
  }

  lemma UnshareSound<V>(m: Memory<V>, h: nat)
    requires Sound(m) && Holds(m, h)
    ensures Sound(Unshare(m, h))
  {
    if m.ptr[h].Some? {
      EmplaceSound(m, h, m.val[m.ptr[h].value]);
    }
  }

  lemma WriteSound<V>(m: Memory<V>, h: nat, v: V)
    requires Sound(m) && Holds(m, h) && m.ptr[h].Some?
    ensures Sound(Write(m, h, v))
  {
    UnshareSound(m, h);
    var m1 := Unshare(m, h);
    assert Holds(m1, h) && m1.ptr[h].Some? by {
      EmplaceEffect(m, h, m.val[m.ptr[h].value]);
    }
    StoreSound(m1, m1.ptr[h].value, v);
  }

  lemma StoreSound<V>(m: Memory<V>, a: nat, v: V)
    requires Sound(m) && a in m.val
    ensures Sound(m.(val := m.val[a := v]))
  {
  }
}
