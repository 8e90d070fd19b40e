/**
 Reference-counted objects and the handles that share them
 (libcaf_core/caf/intrusive_ptr.hpp, libcaf_core/caf/intrusive_cow_ptr.hpp,
 libcaf_core/caf/ref_counted.hpp, libcaf_core/src/ref_counted.cpp).

 Objects are numbered in the order of their creation and never reuse a number,
 so that releasing an object twice would show.
 */
module CountedMemory {
  import opened Basics

  /**
   `count` and `val` describe the live objects, `ptr` the handles. `raw` holds
   one entry per reference that no handle owns: a detached pointer, or one that
   a running operation keeps in a local variable. `freed` logs deletions.
   */
  datatype Memory<V> = Memory(
    count: map<nat, nat>,
    val: map<nat, V>,
    ptr: map<nat, Option<nat>>,
    raw: multiset<nat>,
    freed: multiset<nat>,
    next: nat)

  // -- counting ---------------------------------------------------------------

  ghost function Holders(ptr: map<nat, Option<nat>>, a: nat): set<nat> {
    set h | h in ptr && ptr[h] == Some(a)
  }

  /** Handles and raw owners together. */
  ghost function Owners<V>(m: Memory<V>, a: nat): nat {
    |Holders(m.ptr, a)| + m.raw[a]
  }

  /** Whatever owns a reference owns one to a live object. */
  ghost predicate NoDangling<V>(m: Memory<V>) {
    && m.count.Keys == m.val.Keys
    && (forall h :: h in m.ptr && m.ptr[h].Some? ==> m.ptr[h].value in m.count)
    && (forall a :: a in m.raw ==> a in m.count)
  }

  ghost predicate CountsOwners<V>(m: Memory<V>) {
    forall a :: a in m.count ==> m.count[a] == Owners(m, a) >= 1
  }

  /** Every object ever created is live, or was deleted exactly once. */
  ghost predicate FreedOnce<V>(m: Memory<V>) {
    && (forall a :: a in m.count || a in m.freed ==> a < m.next)
    && (forall a :: 0 <= a < m.next ==> m.freed[a] == if a in m.count then 0 else 1)
  }

  ghost predicate Sound<V>(m: Memory<V>) {
    NoDangling(m) && CountsOwners(m) && FreedOnce(m)
  }

  lemma HoldersUpdate(ptr: map<nat, Option<nat>>, h: nat, p: Option<nat>, a: nat)
    ensures var was := h in ptr && ptr[h] == Some(a);
      |Holders(ptr[h := p], a)| + (if was then 1 else 0) == |Holders(ptr, a)| + if p == Some(a) then 1 else 0
  {
    var rest := Holders(ptr, a) - {h};
    assert Holders(ptr, a) == if h in ptr && ptr[h] == Some(a) then rest + {h} else rest;
    assert Holders(ptr[h := p], a) == if p == Some(a) then rest + {h} else rest;
  }

  lemma HoldersRemove(ptr: map<nat, Option<nat>>, h: nat, a: nat)
    requires h in ptr && ptr[h].None?
    ensures Holders(ptr - {h}, a) == Holders(ptr, a)
  {
  }

  // -- elementary steps -------------------------------------------------------

  /** Allocates an object with reference count 1. */
  function Alloc<V>(m: Memory<V>, v: V): Memory<V> {
    m.(count := m.count[m.next := 1], val := m.val[m.next := v], raw := m.raw + multiset{m.next}, next := m.next + 1)
  }

  /** Increases the count on behalf of a new owner. */
  function AddRef<V>(m: Memory<V>, a: nat): Memory<V>
    requires a in m.count
  {
    m.(count := m.count[a := m.count[a] + 1], raw := m.raw + multiset{a})
  }

  /** Gives up a reference; the last one deletes the object. */
  function Release<V>(m: Memory<V>, a: nat): Memory<V>
    requires a in m.count && m.count[a] > 0
  {
    if m.count[a] == 1 then
      m.(count := m.count - {a}, val := m.val - {a}, raw := m.raw - multiset{a}, freed := m.freed + multiset{a})
    else
      m.(count := m.count[a := m.count[a] - 1], raw := m.raw - multiset{a})
  }

  /** Lets go of a handle's object without touching the count. */
  function Detach<V>(m: Memory<V>, h: nat): Memory<V>
    requires h in m.ptr
  {
    if m.ptr[h].None? then m
    else m.(ptr := m.ptr[h := None], raw := m.raw + multiset{m.ptr[h].value})
  }

  /** Lets an empty handle adopt a raw reference without touching the count. */
  function Adopt<V>(m: Memory<V>, h: nat, p: Option<nat>): Memory<V> {
    m.(ptr := m.ptr[h := p], raw := if p.Some? then m.raw - multiset{p.value} else m.raw)
  }

  lemma AllocSound<V>(m: Memory<V>, v: V)
    requires Sound(m)
    ensures Sound(Alloc(m, v))
  {
    assert Holders(m.ptr, m.next) == {} && m.raw[m.next] == 0;
    AllocCounts(m, v);
  }

  lemma AllocCounts<V>(m: Memory<V>, v: V)
    requires CountsOwners(m) && Owners(m, m.next) == 0 && m.next !in m.count
    ensures CountsOwners(Alloc(m, v))
  {
  }

  lemma AddRefSound<V>(m: Memory<V>, a: nat)
    requires Sound(m) && a in m.count
    ensures Sound(AddRef(m, a))
  {
  }

  /** The last owner of an object is the raw reference being given up. */
  lemma LastOwner<V>(m: Memory<V>, a: nat)
    requires Sound(m) && a in m.raw && m.count[a] == 1
    ensures m.raw[a] == 1 && forall h :: h in m.ptr ==> m.ptr[h] != Some(a)
  {
    assert Holders(m.ptr, a) == {};
    assert forall h :: h in m.ptr && m.ptr[h] == Some(a) ==> h in Holders(m.ptr, a);
  }

  lemma ReleaseCounts<V>(m: Memory<V>, a: nat)
    requires Sound(m) && a in m.raw
    ensures CountsOwners(Release(m, a)) && NoDangling(Release(m, a))
  {
    var m' := Release(m, a);
    if m.count[a] == 1 {
      LastOwner(m, a);
    }
    forall x | x in m'.count ensures m'.count[x] == Owners(m', x) >= 1 {
      ReleaseCount(m, a, x);
    }
    forall x | x in m'.raw ensures x in m'.count {
      assert m'.raw[x] > 0 && m.raw[x] >= m'.raw[x];
    }
  }

  lemma ReleaseCount<V>(m: Memory<V>, a: nat, x: nat)
    requires a in m.count && a in m.raw && m.count[a] > 0 && x in Release(m, a).count
    requires x in m.count && m.count[x] == Owners(m, x) >= 1
    ensures Release(m, a).count[x] == Owners(Release(m, a), x) >= 1
  {
  }

  lemma ReleaseSound<V>(m: Memory<V>, a: nat)
    requires Sound(m) && a in m.raw
    ensures Sound(Release(m, a))
    ensures a in Release(m, a).count <==> Owners(m, a) > 1
  {
    ReleaseCounts(m, a);
  }

  lemma DetachSound<V>(m: Memory<V>, h: nat)
    requires Sound(m) && h in m.ptr
    ensures Sound(Detach(m, h))
  {
    var m' := Detach(m, h);
    forall a | a in m.count ensures Owners(m', a) == Owners(m, a) {
      HoldersUpdate(m.ptr, h, None, a);
    }
  }

  lemma AdoptSound<V>(m: Memory<V>, h: nat, p: Option<nat>)
    requires Sound(m) && (h in m.ptr ==> m.ptr[h].None?) && (p.Some? ==> p.value in m.raw)
    ensures Sound(Adopt(m, h, p))
  {
    var m' := Adopt(m, h, p);
    forall a | a in m.count ensures Owners(m', a) == Owners(m, a) {
      HoldersUpdate(m.ptr, h, p, a);
    }
  }
}
