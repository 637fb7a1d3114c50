/** Shadow chains flattened: each area keeps all its private copies itself, over the
    object at the end of the chain. */
module Flatten {
  import opened Basics
  import opened Memory
  import opened PageIn
  import opened AddressSpace
  import opened Unmap
  import opened Fork

  /** A private copy of a page, and the object it was made for. */
  datatype Copy = Copy(owner: nat, data: Page)

  function OwnCopies(x: Obj, o: nat): map<nat, Copy> {
    map p <- x.frames :: Copy(o, x.frames[p].data)
  }

  /** All copies down the chain from `o`, the nearest first. */
  function CopiesOf(m: Mem, o: nat): map<nat, Copy>
    decreases o
  {
    if o in m.objs && m.objs[o].kind.Shadow? then
      (if m.objs[o].kind.under < o then CopiesOf(m, m.objs[o].kind.under) else map[]) + OwnCopies(m.objs[o], o)
    else map[]
  }

  /** A view is the nearest copy, else what the end of the chain provides. */
  lemma {:induction false} ViewIsFlat(m: Mem, o: nat, p: nat)
    requires WellFormed(m) && o in m.objs
    ensures View(m, o, p) == if p in CopiesOf(m, o) then Some(CopiesOf(m, o)[p].data) else View(m, Bottom(m, o), p)
    decreases o
  {
    assert ObjOk(m, o);
    if m.objs[o].kind.Shadow? { ViewIsFlat(m, m.objs[o].kind.under, p); }
  }

  datatype FlatArea = FlatArea(start: nat, end: nat, off: nat, prot: set<Perm>, priv: bool, base: nat,
                               copies: map<nat, Copy>)

  function Flat(m: Mem, a: Area): FlatArea {
    FlatArea(a.start, a.end, a.off, a.prot, a.priv, Bottom(m, a.obj), CopiesOf(m, a.obj))
  }

  function FlatAll(m: Mem, l: seq<Area>): (r: seq<FlatArea>)
    ensures |r| == |l|
  {
    if l == [] then [] else [Flat(m, l[0])] + FlatAll(m, l[1..])
  }

  lemma {:induction false} FlatAllAt(m: Mem, l: seq<Area>, k: nat)
    requires k < |l|
    ensures FlatAll(m, l)[k] == Flat(m, l[k])
  {
    if k > 0 { FlatAllAt(m, l[1..], k - 1); }
  }

  lemma {:induction false} FlatAllAppend(m: Mem, l: seq<Area>, l': seq<Area>)
    ensures FlatAll(m, l + l') == FlatAll(m, l) + FlatAll(m, l')
  {
    if l == [] {
      assert l + l' == l';
    } else {
      assert (l + l')[1..] == l[1..] + l';
      FlatAllAppend(m, l[1..], l');
    }
  }

  // ---------------------------------------------------------------------
  // Memories with the same chains
  // ---------------------------------------------------------------------

  /** The old shadows that are still there are as they were. */
  predicate Kin(m: Mem, m': Mem) {
    && m.next <= m'.next
    && forall y <- m'.objs :: y < m.next ==>
         && y in m.objs && (m'.objs[y].kind.Shadow? <==> m.objs[y].kind.Shadow?)
         && (m'.objs[y].kind.Shadow? ==> m'.objs[y].kind == m.objs[y].kind && m'.objs[y].frames == m.objs[y].frames)
  }

  /** ... and the other old objects too. */
  predicate Still(m: Mem, m': Mem) {
    && m.next <= m'.next
    && forall y <- m'.objs :: y < m.next ==>
         y in m.objs && m'.objs[y].kind == m.objs[y].kind && m'.objs[y].frames == m.objs[y].frames
  }

  lemma StillKin(m: Mem, m': Mem)
    requires Still(m, m')
    ensures Kin(m, m')
  {
  }

  lemma StillTrans(m: Mem, m1: Mem, m2: Mem)
    requires Still(m, m1) && Still(m1, m2)
    ensures Still(m, m2)
  {
  }

  lemma {:induction false} KinFlat(m: Mem, m': Mem, o: nat)
    requires Kin(m, m') && WellFormed(m) && WellFormed(m') && o in m'.objs && o < m.next
    ensures CopiesOf(m', o) == CopiesOf(m, o) && Bottom(m', o) == Bottom(m, o)
    decreases o
  {
    assert ObjOk(m', o) && ObjOk(m, o);
    if m.objs[o].kind.Shadow? { KinFlat(m, m', m.objs[o].kind.under); }
  }

  /** All objects of a list are there, and old. */
  predicate Present(m: Mem, n: nat, l: seq<Area>) {
    forall a <- l :: a.obj in m.objs && a.obj < n
  }

  lemma {:induction false} KinFlatAll(m: Mem, m': Mem, l: seq<Area>)
    requires Kin(m, m') && WellFormed(m) && WellFormed(m') && Present(m', m.next, l)
    ensures FlatAll(m', l) == FlatAll(m, l)
  {
    if l != [] {
      KinFlat(m, m', l[0].obj);
      KinFlatAll(m, m', l[1..]);
    }
  }

  lemma AddShadowStill(m: Mem, u: nat)
    requires WellFormed(m) && u in m.objs
    ensures WellFormed(AddShadow(m, u)) && Still(m, AddShadow(m, u))
  {
    CachedBottomIsBottom(m, u);
    AddObjWellFormed(m, Shadow(u, CachedBottom(m, u)));
    forall y <- m.objs ensures y < m.next { LiveIsOld(m, y); }
    hide WellFormed;
  }

  lemma LiveIsOld(m: Mem, o: nat)
    requires WellFormed(m) && o in m.objs
    ensures o < m.next
  {
    assert ObjOk(m, o);
  }

  /** A new shadow has the copies and the end of the object below. */
  lemma NewShadowFlat(m: Mem, u: nat)
    requires WellFormed(m) && u in m.objs
    ensures CopiesOf(AddShadow(m, u), m.next) == CopiesOf(m, u) && Bottom(AddShadow(m, u), m.next) == Bottom(m, u)
  {
    hide WellFormed, Still, Kin, CopiesOf, Bottom;
    var m' := AddShadow(m, u);
    LiveIsOld(m, u);
    AddShadowStill(m, u);
    StillKin(m, m');
    KinFlat(m, m', u);
    NewShadowOver(m, u);
  }

  lemma NewShadowOver(m: Mem, u: nat)
    requires u in m.objs && u < m.next
    ensures var m' := AddShadow(m, u);
            CopiesOf(m', m.next) == CopiesOf(m', u) && Bottom(m', m.next) == Bottom(m', u)
  {
    var m' := AddShadow(m, u);
    assert OwnCopies(m'.objs[m.next], m.next) == map[];
    assert CopiesOf(m', m.next) == CopiesOf(m', u) + map[];
  }

  /** ... also when it has been used meanwhile. */
  lemma ShadowOver(m: Mem, m1: Mem, u: nat)
    requires WellFormed(m) && WellFormed(m1) && Still(m, m1) && u in m1.objs && u < m.next
    ensures CopiesOf(AddShadow(m1, u), m1.next) == CopiesOf(m, u) && Bottom(AddShadow(m1, u), m1.next) == Bottom(m, u)
    ensures WellFormed(AddShadow(m1, u)) && Still(m1, AddShadow(m1, u)) && Still(m, AddShadow(m1, u))
  {
    hide WellFormed, Still;
    StillKin(m, m1);
    KinFlat(m, m1, u);
    NewShadowFlat(m1, u);
    AddShadowStill(m1, u);
    StillTrans(m, m1, AddShadow(m1, u));
  }

  lemma AddRefStill(m: Mem, o: nat)
    requires WellFormed(m) && o in m.objs
    ensures Still(m, AddRef(m, o)) && WellFormed(AddRef(m, o))
  {
    SetRefsWellFormed(m, o, m.objs[o].refs + 1);
  }

  lemma ReleaseStill(m: Mem, o: nat)
    ensures Still(m, Release(m, o))
  {
    ReleaseTrims(m, o);
  }

  // ---------------------------------------------------------------------
  // Unmapping
  // ---------------------------------------------------------------------

  /** What is left of a flat area after [lo, hi) is unmapped. */
  function FlatCut(a: FlatArea, lo: nat, hi: nat): seq<FlatArea>
    requires lo <= hi
  {
    if lo > a.start && hi < a.end then [a.(end := lo), a.(start := hi, off := a.off + (hi - a.start))]
    else if lo > a.start && lo < a.end then [a.(end := lo)]
    else if lo <= a.start && a.start < hi < a.end then [a.(start := hi, off := a.off + (hi - a.start))]
    else if lo <= a.start && hi >= a.end then []
    else [a]
  }

  function FlatCutAll(l: seq<FlatArea>, lo: nat, hi: nat): seq<FlatArea>
    requires lo <= hi
  {
    if l == [] then [] else FlatCut(l[0], lo, hi) + FlatCutAll(l[1..], lo, hi)
  }

  lemma SplitFlat(m: Mem, t: nat)
    requires WellFormed(m) && t in m.objs
    ensures var m' := SplitTop(m, t);
            && CopiesOf(m', m.next) == CopiesOf(m, t) && Bottom(m', m.next) == Bottom(m, t)
            && CopiesOf(m', m.next + 1) == CopiesOf(m, t) && Bottom(m', m.next + 1) == Bottom(m, t)
            && Still(m, m')
  {
    hide WellFormed, Still, CopiesOf, Bottom;
    AddRefStill(m, t);
    LiveIsOld(m, t);
    var m1 := AddRef(m, t);
    ShadowOver(m, m1, t);
    var m2 := AddShadow(m1, t);
    ShadowOver(m, m2, t);
    StillKin(m2, AddShadow(m2, t));
    KinFlat(m2, AddShadow(m2, t), m.next);
  }

  lemma CutOneStill(m: Mem, a: Area, lo: nat, hi: nat)
    requires WellFormed(m) && a.obj in m.objs && lo <= hi
    ensures Still(m, CutOne(m, a, lo, hi).mem)
  {
    AddRefStill(m, a.obj);
    SplitFlat(m, a.obj);
    ReleaseStill(m, a.obj);
    hide SplitTop, Release, WellFormed;
  }

  /** Unmapping part of one area, flattened. */
  lemma CutOneFlat(m: Mem, a: Area, lo: nat, hi: nat)
    requires WellFormed(m) && a.obj in m.objs && lo <= hi
    requires WellFormed(CutOne(m, a, lo, hi).mem)
    ensures var c := CutOne(m, a, lo, hi); FlatAll(c.mem, c.areas) == FlatCut(Flat(m, a), lo, hi)
  {
    hide WellFormed, SplitTop, Release;
    var c := CutOne(m, a, lo, hi);
    LiveIsOld(m, a.obj);
    if lo > a.start && hi < a.end {
      if a.priv {
        SplitFlat(m, a.obj);
        FlatTwo(c.mem, c.areas);
      } else {
        AddRefStill(m, a.obj);
        StillKin(m, c.mem);
        KinFlat(m, c.mem, a.obj);
        FlatTwo(c.mem, c.areas);
      }
    } else if |c.areas| == 1 {
      FlatOne(c.mem, c.areas);
    }
  }

  lemma FlatOne(m: Mem, l: seq<Area>)
    requires |l| == 1
    ensures FlatAll(m, l) == [Flat(m, l[0])]
  {
    assert l[1..] == [];
  }

  lemma FlatTwo(m: Mem, l: seq<Area>)
    requires |l| == 2
    ensures FlatAll(m, l) == [Flat(m, l[0]), Flat(m, l[1])]
  {
    assert l[1..] == [l[1]];
    FlatOne(m, l[1..]);
  }

  lemma ObjsPresent(m: Mem, h: multiset<nat>, l: seq<Area>)
    requires Inv(m, h) && ObjsOf(l) <= h
    ensures WellFormed(m) && Present(m, m.next, l)
  {
    forall a <- l ensures a.obj in m.objs && a.obj < m.next {
      ObjsOfMember(l, a);
      InvHolds(m, h, a.obj);
      LiveIsOld(m, a.obj);
    }
  }

  lemma BackedPresent(m: Mem, held: multiset<nat>, l: seq<Area>)
    requires Backed(m, held, l)
    ensures WellFormed(m) && Present(m, m.next, l)
  {
    hide Inv;
    ObjsPresent(m, held + ObjsOf(l), l);
  }

  /** Objects another party holds are there too. */
  lemma OthersPresent(m: Mem, held: multiset<nat>, l: seq<Area>, l': seq<Area>)
    requires Backed(m, held + ObjsOf(l'), l)
    ensures Present(m, m.next, l')
  {
    hide Inv;
    ObjsPresent(m, held + ObjsOf(l') + ObjsOf(l), l');
  }

  lemma PresentEarlier(m: Mem, m': Mem, l: seq<Area>)
    requires Present(m, m.next, l) && Present(m', m'.next, l)
    ensures Present(m', m.next, l)
  {
  }

  /** Unmapping a range, flattened. */
  lemma {:induction false} CutAllFlat(m: Mem, held: multiset<nat>, l: seq<Area>, lo: nat, hi: nat)
    requires lo <= hi && Backed(m, held, l)
    ensures var c := CutAll(m, l, lo, hi);
            FlatAll(c.mem, c.areas) == FlatCutAll(FlatAll(m, l), lo, hi) && Still(m, c.mem)
    decreases |l|
  {
    hide Backed, CutOne, Still, WellFormed, Inv, Flat, FlatCut, Carries, Sole, Present, Kin, ObjsOf;
    if l != [] {
      CutHead(m, held, l, lo, hi);
      var c := CutOne(m, l[0], lo, hi);
      var r := CutAll(c.mem, l[1..], lo, hi);
      var h := held + ObjsOf(c.areas);
      CutAllFlat(c.mem, h, l[1..], lo, hi);
      CutAllBacked(c.mem, h, l[1..], lo, hi);
      BackedPresent(m, held, l);
      BackedPresent(c.mem, h, l[1..]);
      BackedPresent(r.mem, h, r.areas);
      CutOneStill(m, l[0], lo, hi);
      CutOneFlat(m, l[0], lo, hi);
      StillTrans(m, c.mem, r.mem);
      TailFlat(m, c.mem, l);
      OthersPresent(c.mem, held, l[1..], c.areas);
      OthersPresent(r.mem, held, r.areas, c.areas);
      PresentEarlier(c.mem, r.mem, c.areas);
      StillKin(c.mem, r.mem);
      KinFlatAll(c.mem, r.mem, c.areas);
      FlatAllAppend(r.mem, c.areas, r.areas);
    } else {
      StillSame(m);
    }
  }

  lemma StillSame(m: Mem)
    ensures Still(m, m)
  {
  }

  lemma TailFlat(m: Mem, m': Mem, l: seq<Area>)
    requires l != [] && WellFormed(m) && WellFormed(m') && Still(m, m') && Present(m, m.next, l)
             && Present(m', m'.next, l[1..])
    ensures FlatAll(m', l[1..]) == FlatAll(m, l[1..])
  {
    hide WellFormed, Still;
    StillKin(m, m');
    KinFlatAll(m, m', l[1..]);
  }

  // ---------------------------------------------------------------------
  // Mapping
  // ---------------------------------------------------------------------

  /** The place of a new area in a flat list. */
  function FlatInsert(l: seq<FlatArea>, a: FlatArea): seq<FlatArea> {
    if l == [] then [a]
    else if l[0].start > a.start && l[0].end > a.end then [a] + l
    else [l[0]] + FlatInsert(l[1..], a)
  }

  lemma {:induction false} InsertFlat(m: Mem, l: seq<Area>, a: Area)
    ensures FlatAll(m, Insert(l, a)) == FlatInsert(FlatAll(m, l), Flat(m, a))
  {
    hide CopiesOf, Bottom;
    if l == [] {
      FlatOne(m, [a]);
    } else if l[0].start > a.start && l[0].end > a.end {
      assert ([a] + l)[1..] == l;
    } else {
      var t := Insert(l[1..], a);
      assert ([l[0]] + t)[1..] == t;
      InsertFlat(m, l[1..], a);
    }
  }

  /** The object behind a new mapping, flattened: no copies, over the file or a new
      anonymous object. */
  lemma BackWithFlat(m: Mem, held: multiset<nat>, file: Option<nat>, priv: bool)
    requires Inv(m, held) && (file.Some? ==> IsFile(m, file.value))
    ensures var (m', o) := BackWith(m, file, priv); var base := if file.Some? then file.value else m.next;
            && Still(m, m') && WellFormed(m') && CopiesOf(m', o) == map[] && Bottom(m', o) == base && o in m'.objs
            && base in m'.objs && !m'.objs[base].kind.Shadow?
            && (file.None? ==> m'.objs[base] == Obj(Anon, 1, 0, map[]))
            && (!priv ==> o == base)
  {
    var base := if file.Some? then file.value else m.next;
    var (m1, _) := BackWith(m, file, false);
    if file.Some? {
      AddRefStill(m, file.value);
    } else {
      AddObjWellFormed(m, Anon);
      forall y <- m.objs ensures y < m.next { LiveIsOld(m, y); }
    }
    hide Inv, WellFormed;
    assert Still(m, m1);
    if priv {
      AddShadowStill(m1, base);
      StillTrans(m, m1, AddShadow(m1, base));
      NewShadowFlat(m1, base);
    }
  }

  // ---------------------------------------------------------------------
  // Fork
  // ---------------------------------------------------------------------

  /** `c` is `l` over again: nothing old is gone or changed, and the areas have the
      same copies and ends. */
  predicate FlatCopy(m: Mem, l: seq<Area>, c: Cut) {
    && Still(m, c.mem) && WellFormed(c.mem) && m.objs.Keys <= c.mem.objs.Keys && Live(c.mem, c.areas)
    && FlatAll(c.mem, c.areas) == FlatAll(m, l)
  }

  lemma ChildOneFlat(m: Mem, a: Area)
    requires WellFormed(m) && a.obj in m.objs
    ensures FlatCopy(m, [a], ChildOne(m, a)) && |ChildOne(m, a).areas| == 1
  {
    hide WellFormed;
    LiveIsOld(m, a.obj);
    AddRefStill(m, a.obj);
    var m1 := AddRef(m, a.obj);
    var c := ChildOne(m, a);
    if a.priv {
      ShadowOver(m, m1, a.obj);
    } else {
      StillKin(m, m1);
      KinFlat(m, m1, a.obj);
    }
    FlatOne(m, [a]);
    FlatOne(c.mem, c.areas);
    hide CopiesOf, Bottom;
  }

  lemma ParentOneFlat(m: Mem, a: Area)
    requires WellFormed(m) && a.obj in m.objs
    ensures FlatCopy(m, [a], ParentOne(m, a)) && |ParentOne(m, a).areas| == 1
  {
    hide WellFormed;
    var c := ParentOne(m, a);
    if a.priv {
      NewShadowFlat(m, a.obj);
      AddShadowStill(m, a.obj);
    }
    FlatOne(m, [a]);
    FlatOne(c.mem, c.areas);
    hide CopiesOf, Bottom;
  }

  /** One area and then the rest. */
  lemma FlatCopyCons(m: Mem, l: seq<Area>, c: Cut, r: Cut)
    requires WellFormed(m) && l != [] && Live(m, l) && FlatCopy(m, [l[0]], c) && |c.areas| == 1
             && FlatCopy(c.mem, l[1..], r)
    ensures FlatCopy(m, l, Cut(r.mem, c.areas + r.areas))
  {
    hide WellFormed, Flat;
    StillTrans(m, c.mem, r.mem);
    forall a <- l ensures a.obj < m.next { LiveIsOld(m, a.obj); }
    forall a <- c.areas ensures a.obj < c.mem.next { LiveIsOld(c.mem, a.obj); }
    StillKin(m, c.mem);
    StillKin(c.mem, r.mem);
    hide Still, Kin;
    KinFlatAll(m, c.mem, l[1..]);
    KinFlatAll(c.mem, r.mem, c.areas);
    FlatAllAppend(r.mem, c.areas, r.areas);
    FlatOne(m, [l[0]]);
  }

  lemma {:induction false} ChildAllFlat(m: Mem, l: seq<Area>)
    requires WellFormed(m) && Live(m, l)
    ensures FlatCopy(m, l, ChildAll(m, l))
    decreases |l|
  {
    hide WellFormed, ChildOne;
    if l != [] {
      ChildOneFlat(m, l[0]);
      var c := ChildOne(m, l[0]);
      ChildAllFlat(c.mem, l[1..]);
      FlatCopyCons(m, l, c, ChildAll(c.mem, l[1..]));
    }
  }

  lemma {:induction false} ParentAllFlat(m: Mem, l: seq<Area>)
    requires WellFormed(m) && Live(m, l)
    ensures FlatCopy(m, l, ParentAll(m, l))
    decreases |l|
  {
    hide WellFormed, ParentOne;
    if l != [] {
      ParentOneFlat(m, l[0]);
      var c := ParentOne(m, l[0]);
      ParentAllFlat(c.mem, l[1..]);
      FlatCopyCons(m, l, c, ParentAll(c.mem, l[1..]));
    }
  }

  /** Fork copies the flat list: parent and child both have it afterwards. */
  lemma ForkFlat(m: Mem, l: seq<Area>)
    requires WellFormed(m) && Live(m, l)
    ensures var child := ChildAll(m, l); var parent := ParentAll(child.mem, l);
            && Still(m, parent.mem) && WellFormed(parent.mem) && m.objs.Keys <= parent.mem.objs.Keys
            && FlatAll(parent.mem, child.areas) == FlatAll(m, l) && FlatAll(parent.mem, parent.areas) == FlatAll(m, l)
  {
    hide WellFormed, ChildAll, ParentAll;
    var child := ChildAll(m, l);
    ChildAllFlat(m, l);
    ParentAllFlat(child.mem, l);
    var m' := ParentAll(child.mem, l).mem;
    StillTrans(m, child.mem, m');
    forall a <- l ensures a.obj < m.next { LiveIsOld(m, a.obj); }
    forall a <- child.areas ensures a.obj < child.mem.next { LiveIsOld(child.mem, a.obj); }
    StillKin(m, child.mem);
    StillKin(child.mem, m');
    hide Still, Kin;
    KinFlatAll(m, child.mem, l);
    KinFlatAll(child.mem, m', child.areas);
  }
}
