/**
 The pointer classes as they run: methods that reassign `ptr_` and change
 reference counts in place, statement by statement, each proved to have the
 effect of the operation it implements.
 */
module ManagedPointers {
  import opened Basics
  import opened CountedMemory
  import opened CowHandles

  /**
   The counted objects together with the handles that share them. `raw` and
   `freed` record who owns detached references and what has been deleted; the
   program itself keeps no such record.
   */
  class Heap<V> {
    var count: map<nat, nat>
    var val: map<nat, V>
    var ptr: map<nat, Option<nat>>
    var next: nat
    ghost var raw: multiset<nat>
    ghost var freed: multiset<nat>

    ghost function Model(): Memory<V>
      reads this
    {
      Memory(count, val, ptr, raw, freed, next)
    }

    /** All counts are exact, nothing dangles, and every deletion happened once. */
    ghost predicate Valid()
      reads this
    {
      Sound(Model())
    }

    lemma Shows(m: Memory<V>)
      requires Sound(m) && Model() == m
      ensures Valid()
    {
    }

    constructor ()
      ensures Valid() && Model() == Memory(map[], map[], map[], multiset{}, multiset{}, 0)
    {
      count, val, ptr, next := map[], map[], map[], 0;
      raw, freed := multiset{}, multiset{};
    }

    // -- ref_counted ----------------------------------------------------------

    /** A new object starts with one reference, owned by the caller. */
    method New(v: V) returns (a: nat)
      requires Valid()
      modifies this
      ensures Valid() && a == old(next) && Model() == Alloc(old(Model()), v)
    {
      ghost var m := Model();
      a, next := next, next + 1;
      count, val := count[a := 1], val[a := v];
      raw := raw + multiset{a};
      AllocSound(m, v);
      Shows(Alloc(m, v));
    }

    method Ref(a: nat)
      requires a in count
      modifies `count, `raw
      ensures Model() == AddRef(old(Model()), a)
    {
      count := count[a := count[a] + 1];
      raw := raw + multiset{a};
    }

    method Deref(a: nat)
      requires a in count && count[a] > 0
      modifies `count, `val, `raw, `freed
      ensures Model() == Release(old(Model()), a)
    {
      var unique := count[a] == 1;
      if unique {
        count, val := count - {a}, val - {a};
        freed := freed + multiset{a};
      } else {
        count := count[a := count[a] - 1];
      }
      raw := raw - multiset{a};
    }

    // -- intrusive_ptr --------------------------------------------------------

    /** Overwrites `ptr_`; what it held before becomes a raw reference of the caller's. */
    method SetPtr(h: nat, p: Option<nat>, addRef: bool)
      requires h in ptr && (p.Some? && addRef ==> p.value in count)
      modifies `ptr, `count, `raw
      ensures var m := old(Model());
        Model() == Adopt(Detach(if p.Some? && addRef then AddRef(m, p.value) else m, h), h, p)
    {
      ghost var m, was := Model(), ptr[h];
      assert ptr[h := None][h := p] == ptr[h := p] && (was.None? ==> ptr[h := None] == ptr);
      ptr := ptr[h := p];
      if p.Some? && addRef {
        Ref(p.value);
        m := AddRef(m, p.value);
      }
      assert Model() == m.(ptr := m.ptr[h := p]);
      raw := if was.Some? then raw + multiset{was.value} else raw;
      raw := if p.Some? then raw - multiset{p.value} else raw;
    }

    method ResetTo(h: nat, p: Option<nat>, addRef: bool)
      requires Valid() && Holds(Model(), h)
      requires p.Some? ==> if addRef then p.value in count else p.value in raw
      modifies this
      ensures Valid() && Model() == Reset(old(Model()), h, p, addRef)
    {
      ghost var m := Model();
      var was := ptr[h];
      SetPtr(h, p, addRef);
      if was.Some? {
        Deref(was.value);
      }
      ResetSound(m, h, p, addRef);
      Shows(Reset(m, h, p, addRef));
    }

    method Detached(h: nat) returns (result: Option<nat>)
      requires Valid() && h in ptr
      modifies `ptr, `raw
      ensures Valid() && result == old(ptr[h]) && Model() == Detach(old(Model()), h)
    {
      ghost var m := Model();
      result := ptr[h];
      if result.Some? {
        ptr := ptr[h := None];
        raw := raw + multiset{result.value};
      }
      DetachSound(m, h);
      Shows(Detach(m, h));
    }

    method SwapPtrs(h: nat, g: nat)
      requires Valid() && h in ptr && g in ptr
      modifies `ptr
      ensures Valid() && Model() == Swap(old(Model()), h, g)
    {
      ghost var m := Model();
      ptr := ptr[h := ptr[g]][g := ptr[h]];
      SwapSound(m, h, g);
      Shows(Swap(m, h, g));
    }

    method EmplaceIn(h: nat, v: V)
      requires Valid() && Holds(Model(), h)
      modifies this
      ensures Valid() && Model() == Emplace(old(Model()), h, v)
    {
      var a := New(v);
      ResetTo(h, Some(a), false);
    }

    method CopyAssign(h: nat, g: nat)
      requires Valid() && Holds(Model(), h) && Holds(Model(), g)
      modifies this
      ensures Valid() && Model() == Reset(old(Model()), h, old(ptr[g]), true)
    {
      ResetTo(h, ptr[g], true);
    }

    method MoveAssign(h: nat, g: nat)
      requires Valid() && h in ptr && g in ptr
      modifies `ptr
      ensures Valid() && Model() == Swap(old(Model()), h, g)
    {
      SwapPtrs(h, g);
    }

    /** The new handle `h` steals the pointer of `g`. */
    method MoveConstruct(h: nat, g: nat)
      requires Valid() && h !in ptr && g in ptr
      modifies `ptr, `raw
      ensures Valid() && Model() == Adopt(Detach(old(Model()), g), h, old(ptr[g]))
    {
      ghost var m := Model();
      var p := Detached(g);
      ptr := ptr[h := p];
      raw := if p.Some? then raw - multiset{p.value} else raw;
      AdoptSound(Detach(m, g), h, p);
      Shows(Adopt(Detach(m, g), h, p));
    }

    method Destruct(h: nat)
      requires Valid() && Holds(Model(), h)
      modifies this
      ensures Valid() && Model() == Destroy(old(Model()), h)
    {
      ghost var m := Model();
      Drop(h);
      DestroySound(m, h);
      Shows(Destroy(m, h));
    }

    method Drop(h: nat)
      requires Holds(Model(), h)
      modifies this
      ensures Model() == Destroy(old(Model()), h)
    {
      var was := ptr[h];
      assert ptr[h := None][h := None] - {h} == ptr - {h};
      if was.Some? {
        raw := raw + multiset{was.value};
        Deref(was.value);
      }
      ptr := ptr - {h};
    }

    // -- intrusive_cow_ptr ----------------------------------------------------

    /** Copies the object unless the handle is its only owner. */
    method UnsharedPtr(h: nat) returns (a: nat)
      requires Valid() && Holds(Model(), h) && ptr[h].Some?
      modifies this
      ensures Valid() && Model() == Unshare(old(Model()), h) && ptr[h] == Some(a)
    {
      ghost var m := Model();
      a := ptr[h].value;
      if count[a] != 1 {
        var copy := New(val[a]);
        ReleaseThenAssign(h, copy);
        a := copy;
      }
      UnshareSound(m, h);
      Shows(Unshare(m, h));
    }

    /** Gives up the object of a non-empty handle and lets it adopt `p`. */
    method ReleaseThenAssign(h: nat, p: nat)
      requires Holds(Model(), h) && ptr[h].Some?
      modifies this
      ensures Model() == Replace(old(Model()), h, Some(p)) && ptr[h] == Some(p)
    {
      raw := raw + multiset{ptr[h].value} - multiset{p};
      assert ptr[h := None][h := Some(p)] == ptr[h := Some(p)];
      Deref(ptr[h].value);
      ptr := ptr[h := Some(p)];
    }

    method Unshared(h: nat)
      requires Valid() && Holds(Model(), h)
      modifies this
      ensures Valid() && Model() == Unshare(old(Model()), h)
    {
      if ptr[h].Some? {
        var _ := UnsharedPtr(h);
      }
    }

    method Assign(h: nat, v: V)
      requires Valid() && Holds(Model(), h) && ptr[h].Some?
      modifies this
      ensures Valid() && Model() == Write(old(Model()), h, v)
    {
      ghost var m := Model();
      var a := UnsharedPtr(h);
      val := val[a := v];
      WriteSound(m, h, v);
      Shows(Write(m, h, v));
    }
  }
}
