/** Unmapping a page range (`vmmap_remove`) over the memory objects. */
module Unmap {
  import opened Basics
  import opened Memory
  import opened PageIn
  import opened AddressSpace

  /** The references a list of areas owns. */
  function ObjsOf(l: seq<Area>): multiset<nat> {
    if l == [] then multiset{} else multiset{l[0].obj} + ObjsOf(l[1..])
  }

  lemma {:induction false} ObjsOfAppend(l: seq<Area>, l': seq<Area>)
    ensures ObjsOf(l + l') == ObjsOf(l) + ObjsOf(l')
  {
    if l == [] {
      assert l + l' == l';
    } else {
      assert (l + l')[1..] == l[1..] + l';
      ObjsOfAppend(l[1..], l');
    }
  }

  lemma {:induction false} ObjsOfMember(l: seq<Area>, a: Area)
    requires a in l
    ensures a.obj in ObjsOf(l)
  {
    if a != l[0] { ObjsOfMember(l[1..], a); }
  }

  // ---------------------------------------------------------------------
  // The four cases
  // ---------------------------------------------------------------------

  datatype Cut = Cut(mem: Mem, areas: seq<Area>)

  /** What is left of area `a` after [lo, hi) is unmapped. A private area cut in
      two gets a shadow of its own for each half over the common old top. */
  function CutOne(m: Mem, a: Area, lo: nat, hi: nat): Cut
    requires a.obj in m.objs && lo <= hi
  {
    if lo > a.start && hi < a.end then
      if a.priv then
        Cut(SplitTop(m, a.obj),
            [a.(end := lo, obj := m.next), a.(start := hi, off := a.off + hi - a.start, obj := m.next + 1)])
      else
        Cut(AddRef(m, a.obj), [a.(end := lo), a.(start := hi, off := a.off + hi - a.start)])
    else if lo > a.start && lo < a.end && hi >= a.end then Cut(m, [a.(end := lo)])
    else if lo <= a.start && hi > a.start && hi < a.end then
      Cut(m, [a.(start := hi, off := a.off + (hi - a.start))])
    else if lo <= a.start && hi >= a.end then Cut(Release(m, a.obj), [])
    else Cut(m, [a])
  }

  /** Two shadows over `t`, which has one holder more. */
  function SplitTop(m: Mem, t: nat): Mem
    requires t in m.objs
  {
    AddShadow(AddShadow(AddRef(m, t), t), t)
  }

  /** `t` is a shadow with exactly one holder besides its own pages. */
  predicate Sole(m: Mem, t: nat) {
    t in m.objs && m.objs[t].kind.Shadow? && m.objs[t].refs == m.objs[t].nres + 1
  }

  lemma SoleIsHeldOnce(m: Mem, held: multiset<nat>, t: nat)
    requires Inv(m, held) && Sole(m, t) && t in held
    ensures held[t] == 1 && Over(m, t) == 0 && Unshadowed(m, t)
  {
    forall s <- m.objs ensures s < m.next { assert ObjOk(m, s); }
    UncountedIsUnshadowed(m, t);
  }

  // ---------------------------------------------------------------------
  // Splitting a private area
  // ---------------------------------------------------------------------

  lemma SplitTopInv(m: Mem, t: nat, held: multiset<nat>)
    requires Inv(m, held + multiset{t})
    ensures Inv(SplitTop(m, t), held + multiset{m.next} + multiset{m.next + 1})
  {
    hide Inv;
    assert t in m.objs by { InvHolds(m, held + multiset{t}, t); }
    AddRefInv(m, held + multiset{t}, t);
    var m1 := AddRef(m, t);
    AddShadowInv(m1, t, held + multiset{t});
    var m2 := AddShadow(m1, t);
    assert held + multiset{t} + multiset{m.next} == held + multiset{m.next} + multiset{t};
    AddShadowInv(m2, t, held + multiset{m.next});
  }

  lemma AddRefSameViews(m: Mem, t: nat, x: nat, p: nat)
    requires t in m.objs
    ensures View(AddRef(m, t), x, p) == View(m, x, p)
  {
    var y := m.objs[t].(refs := m.objs[t].refs + 1);
    if m.objs[t].kind.Shadow? && m.objs[t].kind.under < t { BelowView(m, t, y, m.objs[t].kind.under, p); }
    SameAtSameAbove(m, t, y, x, p);
  }

  lemma SplitTopViews(m: Mem, t: nat, p: nat)
    requires WellFormed(m) && t in m.objs
    ensures forall x :: x in m.objs ==> View(SplitTop(m, t), x, p) == View(m, x, p)
    ensures View(SplitTop(m, t), m.next, p) == View(m, t, p)
    ensures View(SplitTop(m, t), m.next + 1, p) == View(m, t, p)
  {
    var m1 := AddRef(m, t);
    SetRefsWellFormed(m, t, m.objs[t].refs + 1);
    forall x ensures View(m1, x, p) == View(m, x, p) { AddRefSameViews(m, t, x, p); }
    AddShadowViews(m1, t);
    CachedBottomIsBottom(m1, t);
    var m2 := AddShadow(m1, t);
    AddObjWellFormed(m1, Shadow(t, CachedBottom(m1, t)));
    AddShadowViews(m2, t);
  }

  // ---------------------------------------------------------------------
  // One area
  // ---------------------------------------------------------------------

  lemma ObjsOfOne(a: Area)
    ensures ObjsOf([a]) == multiset{a.obj}
  {
    assert [a][1..] == [];
  }

  lemma ObjsOfTwo(a: Area, b: Area)
    ensures ObjsOf([a, b]) == multiset{a.obj} + multiset{b.obj}
  {
    assert [a, b][1..] == [b];
    ObjsOfOne(b);
  }

  lemma FindOne(a: Area, v: nat)
    ensures Find([a], v) == if Covers(a, v) then Some(a) else None
  {
    assert [a][1..] == [];
  }

  lemma FindTwo(a: Area, b: Area, v: nat)
    ensures Find([a, b], v) == if Covers(a, v) then Some(a) else if Covers(b, v) then Some(b) else None
  {
    assert [a, b][1..] == [b];
    FindOne(b, v);
  }

  /** Unmapping part of one area keeps the accounting exact. */
  lemma CutOneInv(m: Mem, a: Area, lo: nat, hi: nat, held: multiset<nat>)
    requires a.obj in m.objs && lo <= hi && Inv(m, held + multiset{a.obj})
    ensures Inv(CutOne(m, a, lo, hi).mem, held + ObjsOf(CutOne(m, a, lo, hi).areas))
  {
    hide Inv, Release, SplitTop;
    var c := CutOne(m, a, lo, hi);
    if lo > a.start && hi < a.end {
      ObjsOfTwo(c.areas[0], c.areas[1]);
      if a.priv {
        SplitTopInv(m, a.obj, held);
        assert held + ObjsOf(c.areas) == held + multiset{m.next} + multiset{m.next + 1};
      } else {
        AddRefInv(m, held + multiset{a.obj}, a.obj);
        assert held + ObjsOf(c.areas) == held + multiset{a.obj} + multiset{a.obj};
      }
    } else if lo <= a.start && hi >= a.end {
      ReleaseInv(m, held, a.obj);
      assert held + ObjsOf([]) == held;
    } else {
      ObjsOfOne(c.areas[0]);
    }
  }

  /** No object anyone else holds changes its view. */
  lemma CutOneViews(m: Mem, a: Area, lo: nat, hi: nat, held: multiset<nat>)
    requires a.obj in m.objs && lo <= hi && Inv(m, held + multiset{a.obj})
    ensures forall x, p :: x in held ==> View(CutOne(m, a, lo, hi).mem, x, p) == View(m, x, p)
  {
    var c := CutOne(m, a, lo, hi);
    CutOneInv(m, a, lo, hi, held);
    assert forall x <- held :: x in m.objs && x in c.mem.objs by {
      forall x <- held ensures x in m.objs && x in c.mem.objs {
        InvHolds(m, held + multiset{a.obj}, x);
        InvHolds(c.mem, held + ObjsOf(c.areas), x);
      }
    }
    assert WellFormed(m);
    hide *;
    forall x, p | x in held ensures View(CutOne(m, a, lo, hi).mem, x, p) == View(m, x, p) {
      CutOneView(m, a, lo, hi, held, x, p);
    }
  }

  lemma CutOneView(m: Mem, a: Area, lo: nat, hi: nat, held: multiset<nat>, x: nat, p: nat)
    requires a.obj in m.objs && lo <= hi && Inv(m, held + multiset{a.obj})
    requires x in m.objs && x in CutOne(m, a, lo, hi).mem.objs
    ensures View(CutOne(m, a, lo, hi).mem, x, p) == View(m, x, p)
  {
    assert WellFormed(m);
    hide Inv, WellFormed, View, Release, SplitTop, AddRef;
    if lo > a.start && hi < a.end {
      if a.priv { SplitTopViews(m, a.obj, p); } else { AddRefSameViews(m, a.obj, x, p); }
    } else if lo <= a.start && hi >= a.end {
      ReleaseKeepsViews(m, held, a.obj);
    }
  }

  /** Page `v` means the same through `b` as through `a`, up to the object. */
  predicate Kept(a: Area, b: Area, v: nat) {
    Covers(a, v) && Covers(b, v) && b.prot == a.prot && b.priv == a.priv && PageOf(b, v) == PageOf(a, v)
  }

  /** The object page behind page `v`. */
  function PageOf(a: Area, v: nat): nat
    requires Covers(a, v)
  {
    a.off + (v - a.start)
  }

  /** What is left of an area covers exactly its pages outside the range. */
  lemma CutOneFind(m: Mem, a: Area, lo: nat, hi: nat, v: nat)
    requires a.obj in m.objs && lo <= hi && a.start < a.end
    ensures var r := Find(CutOne(m, a, lo, hi).areas, v);
            && (r.Some? <==> Covers(a, v) && !(lo <= v < hi))
            && (r.Some? ==> Kept(a, r.value, v) && r.value in CutOne(m, a, lo, hi).areas)
  {
    hide Release, SplitTop, AddRef;
    var c := CutOne(m, a, lo, hi);
    if lo > a.start && hi < a.end {
      FindTwo(c.areas[0], c.areas[1], v);
    } else if !(lo <= a.start && hi >= a.end) {
      FindOne(c.areas[0], v);
    }
  }

  /** ... and each piece shows what the whole area showed. */
  lemma CutOneShows(m: Mem, a: Area, lo: nat, hi: nat, b: Area, p: nat)
    requires a.obj in m.objs && lo <= hi && WellFormed(m) && b in CutOne(m, a, lo, hi).areas
    ensures View(CutOne(m, a, lo, hi).mem, b.obj, p) == View(m, a.obj, p)
  {
    hide WellFormed, View, Release, SplitTop, AddRef;
    if lo > a.start && hi < a.end {
      if a.priv { SplitTopViews(m, a.obj, p); } else { AddRefSameViews(m, a.obj, a.obj, p); }
    }
  }

  lemma AddRefSole(m: Mem, o: nat, t: nat)
    requires o in m.objs && Sole(m, t) && t != o
    ensures Sole(AddRef(m, o), t)
  {
  }

  lemma AddShadowSole(m: Mem, u: nat, t: nat)
    requires u in m.objs && ((Sole(m, t) && t < m.next) || t == m.next)
    ensures Sole(AddShadow(m, u), t)
  {
  }

  lemma SplitTopSole(m: Mem, o: nat, t: nat)
    requires o in m.objs && o < m.next && ((Sole(m, t) && t != o && t < m.next) || t == m.next || t == m.next + 1)
    ensures Sole(SplitTop(m, o), t)
  {
    if t < m.next {
      AddRefSole(m, o, t);
      AddShadowSole(AddRef(m, o), o, t);
    }
    AddShadowSole(AddShadow(AddRef(m, o), o), o, t);
  }

  lemma ReleaseSole(m: Mem, o: nat, held: multiset<nat>, t: nat)
    requires Inv(m, held + multiset{o}) && Sole(m, t) && t in held
    ensures Sole(Release(m, o), t)
  {
    ReleaseInv(m, held, o);
    ReleaseTrims(m, o);
  }

  /** Other private tops stay private, and every private piece gets one. */
  lemma CutOneSole(m: Mem, a: Area, lo: nat, hi: nat, held: multiset<nat>, t: nat)
    requires a.obj in m.objs && lo <= hi && Inv(m, held + multiset{a.obj}) && Sole(m, t) && t in held
    ensures Sole(CutOne(m, a, lo, hi).mem, t)
  {
    SoleIsHeldOnce(m, held + multiset{a.obj}, t);
    assert ObjOk(m, t) && ObjOk(m, a.obj);
    hide Inv, Release, SplitTop, AddRef;
    if lo > a.start && hi < a.end {
      if a.priv { SplitTopSole(m, a.obj, t); } else { AddRefSole(m, a.obj, t); }
    } else if lo <= a.start && hi >= a.end {
      ReleaseSole(m, a.obj, held, t);
    }
  }

  lemma CutOneNewSole(m: Mem, a: Area, lo: nat, hi: nat, b: Area)
    requires a.obj in m.objs && lo <= hi && WellFormed(m) && a.priv && Sole(m, a.obj)
    requires b in CutOne(m, a, lo, hi).areas
    ensures Sole(CutOne(m, a, lo, hi).mem, b.obj) && b.priv
  {
    assert ObjOk(m, a.obj);
    hide Release, SplitTop, AddRef;
    if lo > a.start && hi < a.end { SplitTopSole(m, a.obj, b.obj); }
  }

  // ---------------------------------------------------------------------
  // The whole list
  // ---------------------------------------------------------------------

  function CutAll(m: Mem, l: seq<Area>, lo: nat, hi: nat): Cut
    requires lo <= hi
    decreases |l|
  {
    if l == [] || l[0].obj !in m.objs then Cut(m, l)
    else
      var c := CutOne(m, l[0], lo, hi);
      var r := CutAll(c.mem, l[1..], lo, hi);
      Cut(r.mem, c.areas + r.areas)
  }

  /** Everything an area list of one address space must keep besides its order. */
  ghost predicate Backed(m: Mem, held: multiset<nat>, l: seq<Area>) {
    && Inv(m, held + ObjsOf(l))
    && (forall a <- l :: a.priv ==> Sole(m, a.obj))
  }

  /** `m'` shows the same as `m` through every held object; private tops stay
      private and files stay files. */
  ghost predicate Carries(m: Mem, m': Mem, held: multiset<nat>) {
    && (forall x, p :: x in held ==> View(m', x, p) == View(m, x, p))
    && KeepsHeld(m, m', held)
  }

  ghost predicate KeepsHeld(m: Mem, m': Mem, held: multiset<nat>) {
    && (forall t :: t in held && Sole(m, t) ==> Sole(m', t))
    && (forall t :: t in held && IsFile(m, t) ==> IsFile(m', t))
  }

  predicate IsFile(m: Mem, o: nat) {
    o in m.objs && m.objs[o].kind.File?
  }

  lemma Shuffle(a: multiset<nat>, b: multiset<nat>, c: multiset<nat>)
    ensures a + b + c == a + c + b
    ensures a + (b + c) == a + c + b
    ensures a + (b + c) == a + b + c
  {
  }

  lemma BackedHead(m: Mem, held: multiset<nat>, l: seq<Area>)
    requires l != [] && Backed(m, held, l)
    ensures l[0].obj in m.objs && WellFormed(m)
    ensures Inv(m, held + ObjsOf(l[1..]) + multiset{l[0].obj})
  {
    Shuffle(held, multiset{l[0].obj}, ObjsOf(l[1..]));
    InvHolds(m, held + ObjsOf(l), l[0].obj);
  }

  /** One cut in front of the rest of the list. */
  lemma CutHead(m: Mem, held: multiset<nat>, l: seq<Area>, lo: nat, hi: nat)
    requires lo <= hi && l != [] && Backed(m, held, l)
    ensures l[0].obj in m.objs && WellFormed(m)
    ensures var c := CutOne(m, l[0], lo, hi);
            && Backed(c.mem, held + ObjsOf(c.areas), l[1..])
            && (forall b <- c.areas :: b.priv ==> Sole(c.mem, b.obj))
            && Carries(m, c.mem, held + ObjsOf(l[1..]))
  {
    hide Inv, WellFormed, View, CutOne, ObjsOf;
    BackedHead(m, held, l);
    var a, t := l[0], l[1..];
    var c := CutOne(m, a, lo, hi);
    CutOneInv(m, a, lo, hi, held + ObjsOf(t));
    Shuffle(held, ObjsOf(t), ObjsOf(c.areas));
    CutOneViews(m, a, lo, hi, held + ObjsOf(t));
    forall x | x in held + ObjsOf(t) && Sole(m, x) ensures Sole(c.mem, x) {
      CutOneSole(m, a, lo, hi, held + ObjsOf(t), x);
    }
    forall x | x in held + ObjsOf(t) && IsFile(m, x) ensures IsFile(c.mem, x) {
      CutOneFile(m, a, lo, hi, held + ObjsOf(t), x);
    }
    forall b <- t | b.priv ensures Sole(c.mem, b.obj) {
      ObjsOfMember(t, b);
    }
    forall b <- c.areas | b.priv ensures Sole(c.mem, b.obj) {
      CutPriv(m, a, lo, hi, b);
      CutOneNewSole(m, a, lo, hi, b);
    }
  }

  lemma CutOneFile(m: Mem, a: Area, lo: nat, hi: nat, held: multiset<nat>, x: nat)
    requires a.obj in m.objs && lo <= hi && Inv(m, held + multiset{a.obj}) && x in held && IsFile(m, x)
    ensures IsFile(CutOne(m, a, lo, hi).mem, x)
  {
    CutOneInv(m, a, lo, hi, held);
    InvHolds(CutOne(m, a, lo, hi).mem, held + ObjsOf(CutOne(m, a, lo, hi).areas), x);
    ReleaseTrims(m, a.obj);
    InvObjOk(m, held + multiset{a.obj}, x);
    hide Inv, Release;
  }

  lemma CutPriv(m: Mem, a: Area, lo: nat, hi: nat, b: Area)
    requires a.obj in m.objs && lo <= hi && b in CutOne(m, a, lo, hi).areas
    ensures b.priv == a.priv
  {
  }

  lemma CarriesTrans(m: Mem, m1: Mem, m2: Mem, h1: multiset<nat>, h2: multiset<nat>, held: multiset<nat>)
    requires Carries(m, m1, h1) && Carries(m1, m2, h2) && held <= h1 && held <= h2
    ensures Carries(m, m2, held)
  {
    forall x, p | x in held ensures View(m2, x, p) == View(m, x, p) {
      assert x in h1 && x in h2;
    }
  }

  /** Unmapping keeps the accounting, the private tops, and everyone else's view. */
  lemma {:induction false} CutAllBacked(m: Mem, held: multiset<nat>, l: seq<Area>, lo: nat, hi: nat)
    requires lo <= hi && Backed(m, held, l)
    ensures Backed(CutAll(m, l, lo, hi).mem, held, CutAll(m, l, lo, hi).areas)
    ensures Carries(m, CutAll(m, l, lo, hi).mem, held)
    decreases |l|
  {
    if l != [] {
      hide Inv, CutOne, ObjsOf, View, WellFormed, Sole;
      CutHead(m, held, l, lo, hi);
      var c := CutOne(m, l[0], lo, hi);
      var r := CutAll(c.mem, l[1..], lo, hi);
      CutAllBacked(c.mem, held + ObjsOf(c.areas), l[1..], lo, hi);
      ObjsOfAppend(c.areas, r.areas);
      Shuffle(held, ObjsOf(c.areas), ObjsOf(r.areas));
      CarriedSole(c.mem, r.mem, held, c.areas);
      CarriesTrans(m, c.mem, r.mem, held + ObjsOf(l[1..]), held + ObjsOf(c.areas), held);
    }
  }

  lemma CarriedSole(m: Mem, m': Mem, held: multiset<nat>, l: seq<Area>)
    requires Carries(m, m', held + ObjsOf(l))
    requires forall b <- l :: b.priv ==> Sole(m, b.obj)
    ensures forall b <- l :: b.priv ==> Sole(m', b.obj)
  {
    forall b <- l | b.priv ensures Sole(m', b.obj) {
      ObjsOfMember(l, b);
    }
  }

  // ---------------------------------------------------------------------
  // Unmapping is restriction
  // ---------------------------------------------------------------------

  /** What a process sees at a page: protection, sharing, content (None past
      the end of a file). */
  datatype Cell = Cell(prot: set<Perm>, priv: bool, content: Option<Page>)

  function CellOf(m: Mem, a: Area, v: nat): Cell
    requires Covers(a, v)
  {
    Cell(a.prot, a.priv, View(m, a.obj, PageOf(a, v)))
  }

  function At(m: Mem, l: seq<Area>, v: nat): Option<Cell> {
    FindMember(l, v);
    match Find(l, v)
    case None => None
    case Some(a) => Some(CellOf(m, a, v))
  }

  predicate Proper(l: seq<Area>) {
    forall a <- l :: a.start < a.end
  }

  /** A list shows the same through two memories that agree on its objects. */
  lemma AtCarried(m: Mem, m': Mem, held: multiset<nat>, l: seq<Area>, v: nat)
    requires Carries(m, m', held + ObjsOf(l))
    ensures At(m', l, v) == At(m, l, v)
  {
    FindMember(l, v);
    if Find(l, v).Some? { ObjsOfMember(l, Find(l, v).value); }
  }

  lemma AtAppend(m: Mem, l: seq<Area>, l': seq<Area>, v: nat)
    ensures At(m, l + l', v) == if At(m, l, v).Some? then At(m, l, v) else At(m, l', v)
  {
    FindAppend(l, l', v);
    FindMember(l + l', v);
    FindMember(l, v);
    FindMember(l', v);
  }

  lemma AtCutOne(m: Mem, a: Area, lo: nat, hi: nat, v: nat)
    requires a.obj in m.objs && lo <= hi && WellFormed(m) && a.start < a.end
    ensures var c := CutOne(m, a, lo, hi);
            At(c.mem, c.areas, v) == if lo <= v < hi || !Covers(a, v) then None else Some(CellOf(m, a, v))
  {
    var c := CutOne(m, a, lo, hi);
    hide WellFormed, View, CutOne;
    CutOneFind(m, a, lo, hi, v);
    FindMember(c.areas, v);
    var r := Find(c.areas, v);
    if r.Some? { CutOneShows(m, a, lo, hi, r.value, PageOf(a, v)); }
  }

  /** Unmapping means exactly restriction: inside [lo, hi) nothing is mapped any
      more, and every other page keeps its protection and its content. */
  lemma {:induction false} CutAllAt(m: Mem, held: multiset<nat>, l: seq<Area>, lo: nat, hi: nat, v: nat)
    requires lo <= hi && Backed(m, held, l) && Proper(l)
    ensures var c := CutAll(m, l, lo, hi);
            At(c.mem, c.areas, v) == if lo <= v < hi then None else At(m, l, v)
    decreases |l|
  {
    if l != [] {
      hide Inv, CutOne, ObjsOf, View, WellFormed, Sole;
      CutHead(m, held, l, lo, hi);
      var c := CutOne(m, l[0], lo, hi);
      var r := CutAll(c.mem, l[1..], lo, hi);
      CutAllBacked(c.mem, held + ObjsOf(c.areas), l[1..], lo, hi);
      CutAllAt(c.mem, held + ObjsOf(c.areas), l[1..], lo, hi, v);
      AtAppend(r.mem, c.areas, r.areas, v);
      AtCarried(c.mem, r.mem, held, c.areas, v);
      AtCutOne(m, l[0], lo, hi, v);
      AtCarried(m, c.mem, held, l[1..], v);
      AtHead(m, l, v);
    }
  }

  lemma AtHead(m: Mem, l: seq<Area>, v: nat)
    requires l != []
    ensures At(m, l, v) == if Covers(l[0], v) then Some(CellOf(m, l[0], v)) else At(m, l[1..], v)
  {
    FindMember(l, v);
    FindMember(l[1..], v);
  }

  /** The pieces stay inside the area. */
  lemma CutOneInside(m: Mem, a: Area, lo: nat, hi: nat, u: Layout)
    requires a.obj in m.objs && lo <= hi && InUser(a, u)
    ensures Ordered(CutOne(m, a, lo, hi).areas, u)
    ensures forall b <- CutOne(m, a, lo, hi).areas :: a.start <= b.start < b.end <= a.end
  {
    hide Release, SplitTop, AddRef;
  }

  lemma OrderedAppend(l: seq<Area>, l': seq<Area>, u: Layout, mid: nat)
    requires Ordered(l, u) && Ordered(l', u)
    requires forall a <- l :: a.end <= mid
    requires forall a <- l' :: mid <= a.start
    ensures Ordered(l + l', u)
  {
    forall i, j | 0 <= i < j < |l + l'| ensures (l + l')[i].end <= (l + l')[j].start {
      if i < |l| && j >= |l| { assert l[i] in l && l'[j - |l|] in l'; }
    }
  }

  /** The list stays sorted, disjoint and without empty areas. */
  lemma {:induction false} CutAllOrdered(m: Mem, l: seq<Area>, lo: nat, hi: nat, u: Layout, low: nat)
    requires lo <= hi && Ordered(l, u) && forall a <- l :: low <= a.start
    ensures Ordered(CutAll(m, l, lo, hi).areas, u)
    ensures forall a <- CutAll(m, l, lo, hi).areas :: low <= a.start
    decreases |l|
  {
    if l != [] && l[0].obj in m.objs {
      var c := CutOne(m, l[0], lo, hi);
      hide CutOne;
      OrderedTail(l, u);
      forall a <- l[1..] ensures l[0].end <= a.start {}
      CutAllOrdered(c.mem, l[1..], lo, hi, u, l[0].end);
      CutOneInside(m, l[0], lo, hi, u);
      OrderedAppend(c.areas, CutAll(c.mem, l[1..], lo, hi).areas, u, l[0].end);
    }
  }
}
