/** The memory operations as the kernel performs them: counts and resident
    pages changed in place, `put` re-entering itself through `pframe_free`. */
module MemImpl {
  import opened Basics
  import opened Memory
  import opened PageIn
  import opened VmSteps

  /** What the assertions of `put` ask: every object down the chain is in use
      by more than its own pages. */
  ghost predicate PutOk(m: Mem, o: nat) {
    WellFormed(m) && o in m.objs && forall x <- Chain(m, o) :: x in m.objs && m.objs[x].refs > m.objs[x].nres
  }

  lemma {:induction false} ChainUses(m: Mem, held: multiset<nat>, o: nat, x: nat)
    requires Inv(m, held) && o in m.objs && m.objs[o].refs > m.objs[o].nres && x in Chain(m, o)
    ensures x in m.objs && m.objs[x].refs > m.objs[x].nres
    decreases o
  {
    if x != o {
      InvObjOk(m, held, o);
      var b := m.objs[o].kind.under;
      OverIsCounted(m, o, b, m.next);
      ChainUses(m, held, b, x);
    }
  }

  /** An outside holder may always drop its reference. */
  lemma HolderMayPut(m: Mem, held: multiset<nat>, o: nat)
    requires Inv(m, held + multiset{o})
    ensures PutOk(m, o)
  {
    forall x <- Chain(m, o) ensures x in m.objs && m.objs[x].refs > m.objs[x].nres {
      ChainUses(m, held + multiset{o}, o, x);
    }
  }

  // Release below `o` does not meet `o`.
  lemma {:induction false} ReleaseBelowErase(m: Mem, o: nat, b: nat)
    requires b < o
    ensures Release(Erase(m, o), b) == Erase(Release(m, b), o)
    decreases b
  {
    if b in m.objs {
      var x := m.objs[b];
      if !Dies(x) {
        assert SetObj(Erase(m, o), b, x.(refs := x.refs - 1)).objs ==
          Erase(SetObj(m, b, x.(refs := x.refs - 1)), o).objs;
      } else {
        assert Erase(Erase(m, o), b).objs == Erase(Erase(m, b), o).objs;
        if x.kind.Shadow? && x.kind.under < b { ReleaseBelowErase(Erase(m, b), o, x.kind.under); }
      }
    }
  }

  lemma EraseSet(m: Mem, o: nat, x: Obj)
    ensures Erase(SetObj(m, o, x), o) == Erase(m, o)
  {
    assert Erase(SetObj(m, o, x), o).objs == Erase(m, o).objs;
  }

  /** A put below `o` does not touch `o`. */
  lemma {:induction false} ReleaseKeepsAbove(m: Mem, b: nat, o: nat)
    requires b < o
    ensures o in Release(m, b).objs <==> o in m.objs
    ensures o in m.objs ==> Release(m, b).objs[o] == m.objs[o]
    decreases b
  {
    if b in m.objs && Dies(m.objs[b]) && m.objs[b].kind.Shadow? && m.objs[b].kind.under < b {
      ReleaseKeepsAbove(Erase(m, b), m.objs[b].kind.under, o);
    }
  }

  /** The objects one put frees, in the order they are freed: the bottom first. */
  function Freed(m: Mem, o: nat): seq<nat>
    decreases o
  {
    if o !in m.objs || !Dies(m.objs[o]) then []
    else if m.objs[o].kind.Shadow? && m.objs[o].kind.under < o then Freed(Erase(m, o), m.objs[o].kind.under) + [o]
    else [o]
  }

  /** Each object a put frees is freed once, and they are exactly those that are gone
      afterwards. */
  lemma {:induction false} FreedOnce(m: Mem, o: nat)
    ensures NoDup(Freed(m, o)) && forall x: nat :: x in Freed(m, o) <==> x in m.objs && x !in Release(m, o).objs
    ensures forall x <- Freed(m, o) :: x <= o
    decreases o
  {
    if o in m.objs && Dies(m.objs[o]) && m.objs[o].kind.Shadow? && m.objs[o].kind.under < o {
      var u := m.objs[o].kind.under;
      FreedOnce(Erase(m, o), u);
      ReleaseKeepsAbove(Erase(m, o), u, o);
    }
  }

  /** Freed does not see counts and pages of objects above, nor those of `o`. */
  lemma FreedShadow(m: Mem, o: nat)
    requires o in m.objs && Dies(m.objs[o]) && m.objs[o].kind.Shadow? && m.objs[o].kind.under < o
    ensures Freed(m, o) == Freed(m, m.objs[o].kind.under) + [o]
  {
    FreedAbove(m, o, m.objs[o], m.objs[o].kind.under);
  }

  lemma {:induction false} FreedAbove(m: Mem, o: nat, x: Obj, b: nat)
    requires b < o && o in m.objs
    ensures Freed(SetObj(m, o, x), b) == Freed(m, b) && Freed(Erase(m, o), b) == Freed(m, b)
    decreases b
  {
    if b in m.objs && Dies(m.objs[b]) && m.objs[b].kind.Shadow? && m.objs[b].kind.under < b {
      var u := m.objs[b].kind.under;
      assert Erase(SetObj(m, o, x), b).objs == SetObj(Erase(m, b), o, x).objs;
      assert Erase(Erase(m, o), b).objs == Erase(Erase(m, b), o).objs;
      FreedAbove(Erase(m, b), o, x, u);
    }
  }

  lemma FreedDying(m: Mem, o: nat, y: Obj)
    requires o in m.objs && Dies(m.objs[o]) && Dies(y) && y.kind == m.objs[o].kind
    ensures Freed(SetObj(m, o, y), o) == Freed(m, o)
  {
    EraseSet(m, o, y);
  }

  /** The last step of a dying object: put below first, free afterwards. */
  lemma DyingOrder(m: Mem, o: nat)
    requires o in m.objs && Dies(m.objs[o]) && m.objs[o].kind.Shadow? && m.objs[o].kind.under < o
    ensures Erase(Release(SetObj(m, o, m.objs[o].(refs := 0)), m.objs[o].kind.under), o) == Release(m, o)
  {
    var m0 := SetObj(m, o, m.objs[o].(refs := 0));
    ReleaseBelowErase(m0, o, m.objs[o].kind.under);
    EraseSet(m, o, m.objs[o].(refs := 0));
  }

  /** One page fewer and one reference fewer: the same death. */
  lemma DyingPage(m: Mem, o: nat, y: Obj)
    requires o in m.objs && Dies(m.objs[o]) && Dies(y) && y.kind == m.objs[o].kind
    ensures Release(SetObj(m, o, y), o) == Release(m, o)
  {
    EraseSet(m, o, y);
  }

  lemma {:induction false} SetChain(m: Mem, o: nat, x: Obj, y: nat)
    requires o in m.objs && x.kind == m.objs[o].kind
    ensures Chain(SetObj(m, o, x), y) == Chain(m, y)
    decreases y
  {
    if y in m.objs && m.objs[y].kind.Shadow? && m.objs[y].kind.under < y { SetChain(m, o, x, m.objs[y].kind.under); }
  }

  lemma {:induction false} ChainIsBelow(m: Mem, o: nat, y: nat)
    requires y in Chain(m, o)
    ensures y <= o
    decreases o
  {
    if y != o { ChainIsBelow(m, m.objs[o].kind.under, y); }
  }

  /** Changing counts and pages of `o` but not its being in use. */
  lemma SetPutOk(m: Mem, o: nat, x: Obj)
    requires PutOk(m, o) && x.kind == m.objs[o].kind && Local(x) && x.refs > x.nres
    ensures PutOk(SetObj(m, o, x), o)
  {
    SetObjWellFormed(m, o, x);
    SetChain(m, o, x, o);
  }

  lemma BelowPutOk(m: Mem, o: nat, x: Obj)
    requires PutOk(m, o) && m.objs[o].kind.Shadow? && x.kind == m.objs[o].kind && Local(x)
    ensures PutOk(SetObj(m, o, x), m.objs[o].kind.under)
  {
    assert ObjOk(m, o);
    var u := m.objs[o].kind.under;
    SetObjWellFormed(m, o, x);
    SetChain(m, o, x, u);
    assert Chain(m, o) == {o} + Chain(m, u);
    forall y <- Chain(m, u) ensures y != o { ChainIsBelow(m, u, y); }
  }

  lemma SetTwice(m: Mem, o: nat, x: Obj, y: Obj)
    ensures SetObj(SetObj(m, o, x), o, y) == SetObj(m, o, y)
  {
    assert m.objs[o := x][o := y] == m.objs[o := y];
  }

  /** The page of a dying object that is freed next. */
  lemma PagePutOk(m: Mem, o: nat, p: nat, f: Frame)
    requires PutOk(m, o) && !m.objs[o].kind.File? && Dies(m.objs[o]) && p in m.objs[o].frames
    ensures var x := m.objs[o];
            var m1 := SetObj(m, o, x.(refs := x.refs - 1, frames := x.frames[p := f]));
            && PutOk(DropFrame(m1, o, p), o) && Release(DropFrame(m1, o, p), o) == Release(m, o)
            && Freed(DropFrame(m1, o, p), o) == Freed(m, o)
  {
    assert Local(m.objs[o]) by { assert ObjOk(m, o); }
    hide PutOk, Release, Freed;
    var x := m.objs[o];
    var x1 := x.(refs := x.refs - 1, frames := x.frames[p := f]);
    var y := x1.(nres := x.nres - 1, frames := x1.frames - {p});
    SetTwice(m, o, x1, y);
    LocalAfterDrop(x, p);
    assert x1.frames - {p} == x.frames - {p};
    SetPutOk(m, o, y);
    DyingPage(m, o, y);
    FreedDying(m, o, y);
  }

  /** A vnode being reclaimed, with the pages `fs` still resident. */
  function Reclaimed(m: Mem, o: nat, fs: map<nat, Frame>): Mem
    requires o in m.objs
  {
    SetObj(m, o, m.objs[o].(refs := |fs| + 1, nres := |fs|, frames := fs))
  }

  lemma AllReclaimed(m: Mem, o: nat)
    requires o in m.objs
    ensures var m' := Reclaimed(m, o, map[]);
            o in m'.objs && m'.objs[o].refs == 1 && m'.objs[o].nres == 0 && Erase(m', o) == Erase(m, o)
  {
    EraseSet(m, o, Reclaimed(m, o, map[]).objs[o]);
  }

  /** Freeing a page re-enters vput, which only drops a count: the artificial
      reference keeps the nested call from reclaiming. */
  lemma ReclaimPage(m: Mem, o: nat, fs: map<nat, Frame>, p: nat)
    requires PutOk(m, o) && m.objs[o].kind.File? && p in fs && Local(Reclaimed(m, o, fs).objs[o])
    ensures PutOk(DropFrame(Reclaimed(m, o, fs), o, p), o)
    ensures Release(DropFrame(Reclaimed(m, o, fs), o, p), o) == Reclaimed(m, o, fs - {p})
    ensures Freed(DropFrame(Reclaimed(m, o, fs), o, p), o) == []
    ensures Local(Reclaimed(m, o, fs - {p}).objs[o])
    ensures |fs - {p}| == |fs| - 1
  {
    var x := Reclaimed(m, o, fs).objs[o];
    LocalAfterDrop(x, p);
    var y := x.(nres := x.nres - 1, frames := fs - {p});
    SetTwice(m, o, x, y);
    SetPutOk(m, o, y);
    SetTwice(m, o, y, y.(refs := y.refs - 1));
  }

  /** What vput comes to, in the terms of its two branches. */
  lemma FileRelease(m: Mem, o: nat)
    requires PutOk(m, o) && m.objs[o].kind.File?
    ensures o in m.objs
    ensures var x := m.objs[o];
            && x.nres == |x.frames| && x.refs > x.nres >= 0
            && (Dies(x) ==> Release(m, o) == Erase(m, o) && Freed(m, o) == [o])
            && (!Dies(x) ==> Release(m, o) == SetObj(m, o, x.(refs := x.refs - 1)) && Freed(m, o) == [])
  {
    assert ObjOk(m, o);
    assert o in Chain(m, o);
  }

  class MemStore {
    var objs: map<nat, Obj>
    var next: nat
    ghost var freed: seq<nat>  // the objects handed back to the allocator so far

    ghost function M(): Mem
      reads this
    {
      Mem(objs, next)
    }

    constructor ()
      ensures M() == Mem(map[], 0) && freed == []
    {
      objs := map[];
      next, freed := 0, [];
    }

    /** slab_obj_free of an object: it is there, and nothing refers to it. */
    method SlabFree(o: nat)
      requires o in objs && objs[o].refs == 0 && objs[o].nres == 0
      modifies this
      ensures objs == old(objs) - {o} && next == old(next) && freed == old(freed) + [o]
    {
      objs := objs - {o};
      freed := freed + [o];
    }

    /** anon_ref, shadow_ref, vo_vref */
    method Ref(o: nat)
      requires o in objs
      modifies `objs, `next
      ensures M() == AddRef(old(M()), o)
    {
      objs := objs[o := objs[o].(refs := objs[o].refs + 1)];
    }

    /** anon_create */
    method AnonCreate() returns (o: nat)
      modifies `objs, `next
      ensures o == old(next) && M() == AddObj(old(M()), Anon)
    {
      o := next;
      objs := objs[o := Obj(Anon, 1, 0, map[])];
      next := next + 1;
    }

    /** shadow_create, with the links its callers set at once */
    method ShadowCreate(under: nat) returns (o: nat)
      requires under in objs
      modifies `objs, `next
      ensures o == old(next) && M() == AddShadow(old(M()), under)
    {
      o := next;
      var bottom := if objs[under].kind.Shadow? then objs[under].kind.bottom else under;
      objs := objs[o := Obj(Shadow(under, bottom), 1, 0, map[])];
      next := next + 1;
    }

    /** pframe_unpin until the page is not pinned */
    method UnpinFully(o: nat, p: nat)
      requires o in objs && p in objs[o].frames
      modifies `objs, `next
      ensures next == old(next)
      ensures objs == old(objs)[o :=
                                old(objs[o]).(frames := old(objs[o].frames)[p := old(objs[o].frames[p]).(pins := 0)])]
    {
      ghost var objs0, x0 := objs, objs[o];
      var f := objs[o].frames[p];
      assert x0.frames[p := f] == x0.frames;
      assert objs0[o := x0.(frames := x0.frames[p := f])] == objs0;
      while f.pins > 0
        invariant next == old(next) && f == x0.frames[p].(pins := f.pins)
        invariant objs == objs0[o := x0.(frames := x0.frames[p := f])]
      {
        f := f.(pins := f.pins - 1);
        assert x0.frames[p := f.(pins := f.pins + 1)][p := f] == x0.frames[p := f];
        objs := objs[o := objs[o].(frames := objs[o].frames[p := f])];
      }
    }

    /** pframe_free: the page goes, then its reference on the object is put. */
    method PframeFree(o: nat, p: nat)
      requires o in objs && p in objs[o].frames && objs[o].frames[p].pins == 0
      requires PutOk(DropFrame(M(), o, p), o)
      modifies this
      ensures M() == Release(DropFrame(old(M()), o, p), o)
      ensures freed == old(freed) + Freed(DropFrame(old(M()), o, p), o)
      decreases o, |objs[o].frames|, 0
    {
      assert |(objs[o].frames - {p}).Keys| < |objs[o].frames.Keys| by {
        assert (objs[o].frames - {p}).Keys == objs[o].frames.Keys - {p};
      }
      objs := objs[o := objs[o].(nres := objs[o].nres - 1, frames := objs[o].frames - {p})];
      Put(o);
    }

    /** The put operation of the object's kind. */
    method Put(o: nat)
      requires PutOk(M(), o)
      modifies this
      ensures M() == Release(old(M()), o) && freed == old(freed) + Freed(old(M()), o)
      decreases o, |objs[o].frames|, 3
    {
      if objs[o].kind.File? { VnodePut(o); } else { ObjPut(o); }
    }

    /** One page of a dying object: unpinned, then freed, which puts again. */
    method FreeLastPage(o: nat, ghost m: Mem)
      requires PutOk(m, o) && o in m.objs && !m.objs[o].kind.File? && Dies(m.objs[o]) && m.objs[o].frames != map[]
      requires o in objs && M() == SetObj(m, o, m.objs[o].(refs := m.objs[o].refs - 1))
      modifies this
      ensures M() == Release(m, o) && freed == old(freed) + Freed(m, o)
      decreases o, |objs[o].frames|, 1
    {
      hide PutOk, Release, DropFrame, Freed;
      var p :| p in objs[o].frames;
      UnpinFully(o, p);
      PagePutOk(m, o, p, m.objs[o].frames[p].(pins := 0));
      assert objs == SetObj(m, o,
                            m.objs[o].(refs := m.objs[o].refs - 1,
                                       frames := m.objs[o].frames[p := m.objs[o].frames[p].(pins := 0)])).objs;
      PframeFree(o, p);
    }

    /** anon_put and shadow_put */
    method ObjPut(o: nat)
      requires PutOk(M(), o) && !objs[o].kind.File?
      modifies this
      ensures M() == Release(old(M()), o) && freed == old(freed) + Freed(old(M()), o)
      decreases o, |objs[o].frames|, 2
    {
      ghost var m := M();
      assert ObjOk(m, o);
      objs := objs[o := objs[o].(refs := objs[o].refs - 1)];
      var refcount, nrespages := objs[o].refs, objs[o].nres;
      if refcount == nrespages {
        // the source's page loop: with a page left the count is not 0, so it
        // returns after one page, the nested put having done the rest
        if objs[o].frames != map[] {
          FreeLastPage(o, m);
          return;
        }
        if refcount == 0 && nrespages == 0 {
          if objs[o].kind.Shadow? {
            PutBelow(o, m);
          }
          // the source reports both counts once more before it frees the object
          var mmo_refcount, mmo_nrespages := objs[o].refs, objs[o].nres;
          assert mmo_refcount == 0 && mmo_nrespages == 0;
          SlabFree(o);
        }
      }
    }

    /** The put of a dying shadow on the object below it; the shadow itself is still
        there afterwards. */
    method PutBelow(o: nat, ghost m: Mem)
      requires PutOk(m, o) && Dies(m.objs[o]) && m.objs[o].kind.Shadow? && m.objs[o].nres == 0
      requires M() == SetObj(m, o, m.objs[o].(refs := 0))
      modifies this
      ensures o in objs && objs[o] == m.objs[o].(refs := 0)
      ensures Erase(M(), o) == Release(m, o) && freed + [o] == old(freed) + Freed(m, o)
      decreases o, 0, 0
    {
      assert ObjOk(m, o);
      hide Release, PutOk, Freed, Local;
      var u := objs[o].kind.under;
      assert Local(m.objs[o].(refs := 0));
      DyingOrder(m, o);
      FreedShadow(m, o);
      BelowPutOk(m, o, m.objs[o].(refs := 0));
      ReleaseKeepsAbove(M(), u, o);
      FreedAbove(m, o, m.objs[o].(refs := 0), u);
      Put(u);
      assert old(freed) + Freed(m, u) + [o] == old(freed) + (Freed(m, u) + [o]);
    }

    /** vput */
    method VnodePut(o: nat)
      requires PutOk(M(), o) && objs[o].kind.File?
      modifies this
      ensures M() == Release(old(M()), o) && freed == old(freed) + Freed(old(M()), o)
      decreases o, |objs[o].frames|, 2
    {
      hide PutOk, Release, Freed, Reclaimed;
      ghost var m := M();
      FileRelease(m, o);
      if objs[o].nres == objs[o].refs - 1 && !objs[o].kind.linked {
        ReclaimPages(o);
        AllReclaimed(m, o);
      }
      DropLast(o);
    }

    /** The end of vput: one reference fewer, and with the last one the vnode goes. */
    method DropLast(o: nat)
      requires o in objs && objs[o].refs > 0 && (objs[o].refs == 1 ==> objs[o].nres == 0)
      modifies this
      ensures M() == if old(objs[o].refs) == 1 then Erase(old(M()), o)
                     else SetObj(old(M()), o, old(objs[o]).(refs := old(objs[o].refs) - 1))
      ensures freed == if old(objs[o].refs) == 1 then old(freed) + [o] else old(freed)
    {
      objs := objs[o := objs[o].(refs := objs[o].refs - 1)];
      if 0 < objs[o].refs { return; }
      SlabFree(o);
    }

    /** The reclaim loop of vput: afterwards only the caller's reference is left. */
    method ReclaimPages(o: nat)
      requires PutOk(M(), o) && objs[o].kind.File? && objs[o].nres == objs[o].refs - 1
      modifies this
      ensures o in old(objs) && M() == Reclaimed(old(M()), o, map[]) && freed == old(freed)
      decreases o, |objs[o].frames|, 1
    {
      ghost var m := M();
      assert ObjOk(m, o);
      assert Reclaimed(m, o, objs[o].frames).objs == objs;
      hide PutOk, Release, Freed;
      while objs[o].frames != map[]
        invariant o in objs && M() == Reclaimed(m, o, objs[o].frames) && freed == old(freed)
        invariant Local(objs[o]) && |objs[o].frames| <= |m.objs[o].frames|
        decreases |objs[o].frames|
      {
        var p :| p in objs[o].frames;
        ReclaimPage(m, o, objs[o].frames, p);
        PframeFree(o, p);
      }
    }

    /** pframe_alloc: a new frame with whatever the page allocator left in it */
    method PframeAlloc(o: nat, p: nat, junk: Page)
      requires o in objs && p !in objs[o].frames
      modifies `objs, `next
      ensures M() == AddFrame(old(M()), o, p, Frame(junk, 0))
    {
      objs := objs[o := objs[o].(refs := objs[o].refs + 1)];
      objs := objs[o := objs[o].(nres := objs[o].nres + 1, frames := objs[o].frames[p := Frame(junk, 0)])];
      assert objs == AddFrame(old(M()), o, p, Frame(junk, 0)).objs;
    }

    /** Lookup in an anonymous object or a vnode: pframe_get, after the length
        check of vlookuppage. */
    method LookupBase(o: nat, p: nat, junk: Page) returns (r: Option<nat>)
      requires o in objs && !objs[o].kind.Shadow?
      modifies `objs, `next
      ensures LookBase(old(M()), o, p) == if r.Some? then Found(M(), r.value) else Fault(M())
    {
      if objs[o].kind.File? && |objs[o].kind.disk| <= p { return None; }
      if p !in objs[o].frames {
        ghost var m := M();
        PframeAlloc(o, p, junk);
        var f := if objs[o].kind.File? then Frame(objs[o].kind.disk[p], 0) else Frame(ZeroPage(), 1);
        objs := objs[o := objs[o].(frames := objs[o].frames[p := f])];
        assert m.objs[o].frames[p := Frame(junk, 0)][p := f] == m.objs[o].frames[p := f];
        assert objs == AddFrame(m, o, p, f).objs;
      }
      return Some(o);
    }

    /** shadow_lookuppage for reading, and the lookups of the other kinds */
    method LookupForRead(o: nat, p: nat, junk: Page) returns (r: Option<nat>)
      requires WellFormed(M()) && o in objs
      modifies `objs, `next
      ensures LookRead(old(M()), o, p) == if r.Some? then Found(M(), r.value) else Fault(M())
    {
      ghost var m := M();
      if !objs[o].kind.Shadow? {
        r := LookupBase(o, p, junk);
        return;
      }
      var x: Option<nat> := Some(o);
      while x.Some?
        invariant x.Some? ==> x.value in objs && FirstResident(m, o, p) == FirstResident(m, x.value, p)
        invariant x.None? ==> FirstResident(m, o, p) == None
        invariant M() == m
        decreases if x.Some? then x.value + 1 else 0
      {
        assert ObjOk(m, x.value);
        if p in objs[x.value].frames { return x; }
        x := if objs[x.value].kind.Shadow? then Some(objs[x.value].kind.under) else None;
      }
      ResidentIsView(m, o, p);
      assert ObjOk(m, o);
      r := LookupBase(objs[o].kind.bottom, p, junk);
    }

    /** shadow_lookuppage for writing: pframe_get with shadow_fillpage */
    method LookupForWrite(o: nat, p: nat, junk: Page) returns (r: Option<nat>)
      requires WellFormed(M()) && o in objs && objs[o].kind.Shadow?
      modifies `objs, `next
      ensures LookWrite(old(M()), o, p, junk) == if r.Some? then Found(M(), r.value) else Fault(M())
    {
      ghost var m := M();
      if p in objs[o].frames { return Some(o); }
      assert ObjOk(m, o);
      PframeAlloc(o, p, junk);
      AllocWellFormed(m, o, p, junk);
      ReadLands(M(), objs[o].kind.under, p);
      ReadSteady(M(), objs[o].kind.under, p);
      var src := LookupForRead(objs[o].kind.under, p, junk);
      if src.None? { return None; }
      objs := objs[o := objs[o].(frames := objs[o].frames[p := Frame(objs[src.value].frames[p].data, 1)])];
      return Some(o);
    }
  }

  lemma AllocWellFormed(m: Mem, o: nat, p: nat, junk: Page)
    requires WellFormed(m) && o in m.objs && m.objs[o].kind.Shadow? && p !in m.objs[o].frames
    ensures WellFormed(AddFrame(m, o, p, Frame(junk, 0)))
  {
    var x := m.objs[o];
    assert ObjOk(m, o);
    LocalAfterAdd(x, p, Frame(junk, 0));
    SetObjWellFormed(m, o, x.(refs := x.refs + 1, nres := x.nres + 1, frames := x.frames[p := Frame(junk, 0)]));
  }

  lemma ReadLands(m: Mem, o: nat, p: nat)
    requires WellFormed(m) && o in m.objs
    ensures LookRead(m, o, p).Found? ==> Landed(LookRead(m, o, p), p)
  {
    ResidentIsView(m, o, p);
    assert ObjOk(m, o);
  }
}
