/** Faults, stores and evictions, flattened. */
module FlatStores {
  import opened Basics
  import opened Memory
  import opened PageIn
  import opened Unmap
  import opened VmSteps
  import opened Flatten

  // ---------------------------------------------------------------------
  // Reads, and writes through shared areas, leave the chains alone
  // ---------------------------------------------------------------------

  lemma KinSame(m: Mem)
    ensures Kin(m, m)
  {
  }

  lemma LookBaseKin(m: Mem, o: nat, p: nat)
    ensures Kin(m, LookBase(m, o, p).mem)
  {
    KinSame(m);
  }

  lemma ReadKin(m: Mem, o: nat, p: nat)
    ensures Kin(m, LookRead(m, o, p).mem)
  {
    KinSame(m);
    LookBaseKin(m, o, p);
    if o in m.objs && m.objs[o].kind.Shadow? { LookBaseKin(m, m.objs[o].kind.bottom, p); }
    hide LookBase, Kin;
  }

  /** A store through the end of a chain: that page of that object shows the data, if
      there is such a page, and no other object without a chain below changes. */
  lemma BaseWrite(m: Mem, o: nat, p: nat, junk: Page, data: Page)
    requires o in m.objs && !m.objs[o].kind.Shadow? && Local(m.objs[o])
    ensures var m' := WritePage(m, o, p, junk, data);
            && Kin(m, m') && m'.objs.Keys == m.objs.Keys
            && (forall y <- m.objs :: m'.objs[y].kind == m.objs[y].kind && (y != o ==> m'.objs[y] == m.objs[y]))
            && forall q :: View(m', o, q) == if q == p && View(m, o, p).Some? then Some(data) else View(m, o, q)
  {
  }

  // ---------------------------------------------------------------------
  // Writes through private areas
  // ---------------------------------------------------------------------

  /** Only the pages of `o` differ among the shadows. */
  predicate OnlyTop(m: Mem, m': Mem, o: nat) {
    && m'.next == m.next && m'.objs.Keys == m.objs.Keys
    && forall y <- m.objs ::
         && m'.objs[y].kind == m.objs[y].kind
         && (y != o && m.objs[y].kind.Shadow? ==> m'.objs[y].frames == m.objs[y].frames)
  }

  lemma {:induction false} OnlyTopFlat(m: Mem, m': Mem, o: nat, y: nat)
    requires OnlyTop(m, m', o) && WellFormed(m) && Unshadowed(m, o) && y in m.objs
    ensures Bottom(m', y) == Bottom(m, y) && (y != o ==> CopiesOf(m', y) == CopiesOf(m, y))
    decreases y
  {
    assert ObjOk(m, y);
    if m.objs[y].kind.Shadow? {
      OnlyTopFlat(m, m', o, m.objs[y].kind.under);
      assert m.objs[y].kind.under != o;
    }
  }

  /** Pins of the page after a write: a page copied in is pinned, junk is not. */
  function PinsAfter(m: Mem, o: nat, p: nat): nat
    requires o in m.objs
  {
    if p in m.objs[o].frames then m.objs[o].frames[p].pins else if View(m, o, p).Some? then 1 else 0
  }

  lemma AllOld(m: Mem, held: multiset<nat>)
    requires Inv(m, held)
    ensures forall y <- m.objs :: y < m.next
  {
    forall y <- m.objs ensures y < m.next { InvObjOk(m, held, y); }
  }

  lemma TopWriteForm(m: Mem, held: multiset<nat>, o: nat, p: nat, junk: Page, data: Page)
    requires Inv(m, held) && Sole(m, o) && o in held
    ensures var m' := WritePage(m, o, p, junk, data);
            && OnlyTop(m, m', o)
            && m'.objs[o].frames == m.objs[o].frames[p := Frame(Stored(m, o, p, junk, data), PinsAfter(m, o, p))]
  {
    hide Inv, LookRead;
    AllOld(m, held);
    var x := m.objs[o];
    if p !in x.frames {
      var r := LookRead(m, x.kind.under, p);
      CopyUp(m, o, p, junk, held);
      ReadKin(m, x.kind.under, p);
      ReadSteady(m, x.kind.under, p);
      if r.Found? {
        TopFilled(m, r.mem, o, p, r.mem.objs[r.owner].frames[p].data, data);
      }
    }
  }

  lemma TopFilled(m: Mem, m1: Mem, o: nat, p: nat, copy: Page, data: Page)
    requires Kin(m, m1) && Steady(m, m1) && o in m.objs && m1.objs[o] == m.objs[o] && p !in m.objs[o].frames
    requires forall y <- m.objs :: y < m.next
    ensures var m2 := Store(AddFrame(m1, o, p, Frame(copy, 1)), o, p, data);
            OnlyTop(m, m2, o) && m2.objs[o].frames == m.objs[o].frames[p := Frame(data, 1)]
  {
    var f: map<nat, Frame> := m.objs[o].frames;
    assert f[p := Frame(copy, 1)][p := Frame(data, 1)] == f[p := Frame(data, 1)];
  }

  lemma CopiesStep(m: Mem, o: nat)
    requires o in m.objs && m.objs[o].kind.Shadow? && m.objs[o].kind.under < o
    ensures CopiesOf(m, o) == CopiesOf(m, m.objs[o].kind.under) + OwnCopies(m.objs[o], o)
  {
  }

  lemma UnderOk(m: Mem, o: nat)
    requires WellFormed(m) && o in m.objs && m.objs[o].kind.Shadow?
    ensures m.objs[o].kind.under < o && m.objs[o].kind.under in m.objs
  {
    assert ObjOk(m, o);
  }

  lemma UnionPut(c: map<nat, Copy>, own: map<nat, Copy>, p: nat, x: Copy)
    ensures c + own[p := x] == (c + own)[p := x]
  {
  }

  lemma OwnPut(x: Obj, x': Obj, o: nat, p: nat, f: Frame)
    requires x'.frames == x.frames[p := f]
    ensures OwnCopies(x', o) == OwnCopies(x, o)[p := Copy(o, f.data)]
  {
  }

  /** A write through a private area, flattened: one copy is made or replaced. */
  lemma TopWriteFlat(m: Mem, m': Mem, o: nat, p: nat, f: Frame)
    requires OnlyTop(m, m', o) && WellFormed(m) && Unshadowed(m, o) && o in m.objs && m.objs[o].kind.Shadow?
    requires m'.objs[o].frames == m.objs[o].frames[p := f]
    ensures CopiesOf(m', o) == CopiesOf(m, o)[p := Copy(o, f.data)]
  {
    hide WellFormed, CopiesOf, OwnCopies;
    UnderOk(m, o);
    var u := m.objs[o].kind.under;
    OnlyTopFlat(m, m', o, u);
    CopiesStep(m, o);
    CopiesStep(m', o);
    OwnPut(m.objs[o], m'.objs[o], o, p, f);
    UnionPut(CopiesOf(m, u), OwnCopies(m.objs[o], o), p, Copy(o, f.data));
  }

  // ---------------------------------------------------------------------
  // Evictions
  // ---------------------------------------------------------------------

  /** A page of a shadow that is not pinned is the only copy in its chain: it is the
      junk of a failed fill. */
  predicate LooseOk(m: Mem) {
    forall o <- m.objs :: m.objs[o].kind.Shadow? ==> LooseAt(m, o)
  }

  predicate LooseAt(m: Mem, o: nat)
    requires o in m.objs && m.objs[o].kind.Shadow?
  {
    forall p <- m.objs[o].frames :: m.objs[o].frames[p].pins == 0 ==> p !in CopiesOf(m, m.objs[o].kind.under)
  }

  function Lost(c: map<nat, Copy>, o: nat, p: nat): map<nat, Copy> {
    if p in c && c[p].owner == o then c - {p} else c
  }

  lemma LostSelf(c: map<nat, Copy>, own: map<nat, Copy>, o: nat, p: nat)
    requires p !in c && p in own && own[p].owner == o
    ensures c + (own - {p}) == Lost(c + own, o, p)
  {
  }

  lemma LostBelow(c: map<nat, Copy>, own: map<nat, Copy>, o: nat, p: nat)
    requires forall q <- own :: own[q].owner != o
    ensures Lost(c, o, p) + own == Lost(c + own, o, p)
  {
  }

  lemma OwnDrop(x: Obj, o: nat, p: nat)
    ensures OwnCopies(WithoutPage(x, p), o) == OwnCopies(x, o) - {p}
    ensures forall q <- OwnCopies(x, o) :: OwnCopies(x, o)[q].owner == o
    ensures p in x.frames ==> p in OwnCopies(x, o)
  {
  }

  /** Evicting a page of a shadow, flattened: its copies are gone, wherever they were. */
  lemma {:induction false} EvictFlat(m: Mem, o: nat, p: nat, y: nat)
    requires WellFormed(m) && o in m.objs && m.objs[o].kind.Shadow? && p in m.objs[o].frames && y in m.objs
    requires p !in CopiesOf(m, m.objs[o].kind.under)
    ensures var m' := SetObj(m, o, WithoutPage(m.objs[o], p));
            CopiesOf(m', y) == Lost(CopiesOf(m, y), o, p) && Bottom(m', y) == Bottom(m, y)
    decreases y
  {
    var m' := SetObj(m, o, WithoutPage(m.objs[o], p));
    if m.objs[y].kind.Shadow? {
      hide WellFormed, OwnCopies, Lost;
      UnderOk(m, y);
      var u := m.objs[y].kind.under;
      EvictFlat(m, o, p, u);
      CopiesStep(m, y);
      CopiesStep(m', y);
      OwnDrop(m.objs[y], y, p);
      if y == o {
        LostNot(CopiesOf(m, u), o, p);
        LostSelf(CopiesOf(m, u), OwnCopies(m.objs[o], o), o, p);
      } else {
        LostBelow(CopiesOf(m, u), OwnCopies(m.objs[y], y), o, p);
      }
    }
  }

  lemma LostNot(c: map<nat, Copy>, o: nat, p: nat)
    requires p !in c
    ensures Lost(c, o, p) == c
  {
  }

  lemma LooseEvict(m: Mem, o: nat, p: nat)
    requires WellFormed(m) && LooseOk(m) && o in m.objs && m.objs[o].kind.Shadow? && p in m.objs[o].frames
    requires p !in CopiesOf(m, m.objs[o].kind.under)
    ensures LooseOk(SetObj(m, o, WithoutPage(m.objs[o], p)))
  {
    var m' := SetObj(m, o, WithoutPage(m.objs[o], p));
    forall y <- m'.objs | m'.objs[y].kind.Shadow? ensures LooseAt(m', y) {
      assert LooseAt(m, y) && ObjOk(m, y);
      EvictFlat(m, o, p, m.objs[y].kind.under);
    }
  }

  lemma LooseKin(m: Mem, m': Mem)
    requires WellFormed(m) && WellFormed(m') && LooseOk(m) && Kin(m, m')
    requires forall y <- m'.objs :: y >= m.next ==> m'.objs[y].frames == map[]
    ensures LooseOk(m')
  {
    forall y <- m'.objs | m'.objs[y].kind.Shadow? ensures LooseAt(m', y) {
      if y < m.next {
        assert LooseAt(m, y) && ObjOk(m', y) && ObjOk(m, y);
        KinFlat(m, m', m.objs[y].kind.under);
      }
    }
  }

  lemma LooseWrite(m: Mem, m': Mem, o: nat, p: nat, f: Frame)
    requires OnlyTop(m, m', o) && WellFormed(m) && Unshadowed(m, o) && o in m.objs && m.objs[o].kind.Shadow?
             && LooseOk(m)
    requires m'.objs[o].frames == m.objs[o].frames[p := f]
    requires f.pins == 0 ==>
               (p in m.objs[o].frames && m.objs[o].frames[p].pins == 0) || p !in CopiesOf(m, m.objs[o].kind.under)
    ensures LooseOk(m')
  {
    forall y <- m'.objs | m'.objs[y].kind.Shadow? ensures LooseAt(m', y) {
      assert LooseAt(m, y) && ObjOk(m, y);
      assert m.objs[y].kind.under != o by { assert !IsOver(m, y, o); }
      OnlyTopFlat(m, m', o, m.objs[y].kind.under);
    }
  }
}
