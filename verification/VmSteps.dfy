/** The steps of the virtual memory system, each with what it does to what the
    processes see. */
module VmSteps {
  import opened Basics
  import opened Memory
  import opened PageIn
  import opened AddressSpace
  import opened Unmap
  import opened Fork
  import opened VmSystem

  // ---------------------------------------------------------------------
  // Unmap, map, exit
  // ---------------------------------------------------------------------

  function UnmapStep(s: Sys, i: nat, lo: nat, hi: nat): Sys
    requires i < |s.spaces| && lo <= hi
  {
    var c := CutAll(s.mem, s.spaces[i], lo, hi);
    Replaced(s, i, c.mem, c.areas)
  }

  lemma CutReplaceable(s: Sys, u: Layout, i: nat, lo: nat, hi: nat)
    requires SysInv(s, u) && i < |s.spaces| && lo <= hi
    ensures var c := CutAll(s.mem, s.spaces[i], lo, hi);
            && Replaceable(s, i, c.mem, c.areas, u)
            && forall v: nat :: At(c.mem, c.areas, v) == if lo <= v < hi then None else At(s.mem, s.spaces[i], v)
  {
    SpaceBacked(s, u, i);
    hide SysInv, Backed, CutAll, At, Carries;
    CutAllBacked(s.mem, Others(s, i), s.spaces[i], lo, hi);
    CutAllOrdered(s.mem, s.spaces[i], lo, hi, u, 0);
    forall v: nat ensures var c := CutAll(s.mem, s.spaces[i], lo, hi);
        At(c.mem, c.areas, v) == if lo <= v < hi then None else At(s.mem, s.spaces[i], v) {
      CutAllAt(s.mem, Others(s, i), s.spaces[i], lo, hi, v);
    }
  }

  /** Unmapping restricts one space and touches no other. */
  lemma UnmapMeaning(s: Sys, u: Layout, i: nat, lo: nat, hi: nat)
    requires SysInv(s, u) && i < |s.spaces| && lo <= hi
    ensures SysInv(UnmapStep(s, i, lo, hi), u)
    ensures forall j: nat, v: nat :: SysAt(UnmapStep(s, i, lo, hi), j, v) ==
                           if j == i && lo <= v < hi then None else SysAt(s, j, v)
  {
    CutReplaceable(s, u, i, lo, hi);
    var c := CutAll(s.mem, s.spaces[i], lo, hi);
    hide SysInv, Backed, CutAll, At, Carries, Others;
    ReplaceInv(s, i, c.mem, c.areas, u);
    forall j: nat, v: nat ensures SysAt(UnmapStep(s, i, lo, hi), j, v) == if j == i && lo <= v < hi then None
      else SysAt(s, j, v) {
      ReplaceAt(s, i, c.mem, c.areas, j, v);
    }
  }

  lemma ExtendsCarries(m: Mem, m': Mem, held: multiset<nat>)
    requires Inv(m, held) && Extends(m, m') && KeepsSole(m, m', [])
    ensures Carries(m, m', held)
  {
    forall x <- held ensures x in m.objs { InvHolds(m, held, x); }
    hide Inv;
  }

  lemma ObjsOfCons(a: Area, l: seq<Area>)
    ensures ObjsOf([a] + l) == multiset{a.obj} + ObjsOf(l)
  {
    assert ([a] + l)[1..] == l;
  }

  lemma {:induction false} ObjsOfInsert(l: seq<Area>, a: Area)
    ensures ObjsOf(Insert(l, a)) == ObjsOf(l) + multiset{a.obj}
  {
    if l == [] {
      ObjsOfOne(a);
    } else {
      ObjsOfCons(a, l);
      ObjsOfCons(l[0], Insert(l[1..], a));
      ObjsOfInsert(l[1..], a);
    }
  }

  /** Where nothing is shown, nothing is mapped. */
  lemma VacantFromAt(m: Mem, l: seq<Area>, lo: nat, hi: nat)
    requires Proper(l) && lo < hi && forall v: nat :: lo <= v < hi ==> At(m, l, v).None?
    ensures Vacant(l, lo, hi)
  {
    forall i | 0 <= i < |l| ensures Apart(l[i], lo, hi) {
      var v := if lo < l[i].start then l[i].start else lo;
      assert l[i] in l;
      FindMember(l, v);
      assert v < hi ==> At(m, l, v).None?;
    }
  }

  lemma OrderedProper(l: seq<Area>, u: Layout)
    requires Ordered(l, u)
    ensures Proper(l)
  {
  }

  /** Adding one backed area to a list. */
  lemma AddAreaOk(m: Mem, held: multiset<nat>, l: seq<Area>, u: Layout, file: Option<nat>, a: Area)
    requires Backed(m, held, l) && Ordered(l, u) && Vacant(l, a.start, a.end) && InUser(a, u)
    requires file.Some? ==> IsFile(m, file.value)
    requires a.obj == BackWith(m, file, a.priv).1
    ensures var m' := BackWith(m, file, a.priv).0;
            && Backed(m', held, Insert(l, a)) && Ordered(Insert(l, a), u) && Carries(m, m', held)
            && forall v: nat :: At(m', Insert(l, a), v) ==
                  if Covers(a, v) then Some(Cell(a.prot, a.priv, SourcePage(m, file, PageOf(a, v)))) else At(m, l, v)
  {
    var m' := BackWith(m, file, a.priv).0;
    hide Inv, Sole, View, BackWith, Ordered, Vacant, Insert, SourcePage, Carries, At;
    BackWithOk(m, file, a.priv, held + ObjsOf(l));
    ExtendsCarries(m, m', held + ObjsOf(l));
    CarriesLess(m, m', held + ObjsOf(l), held);
    ObjsOfInsert(l, a);
    Shuffle(held, ObjsOf(l), multiset{a.obj});
    InsertOrdered(l, a, u);
    InsertMembers(l, a);
    CarriedSole(m, m', held, l);
    AddAreaAt(m, m', held, l, file, a);
  }

  lemma AddAreaAt(m: Mem, m': Mem, held: multiset<nat>, l: seq<Area>, file: Option<nat>, a: Area)
    requires Vacant(l, a.start, a.end) && Carries(m, m', held + ObjsOf(l))
    requires forall p :: View(m', a.obj, p) == SourcePage(m, file, p)
    ensures forall v: nat :: At(m', Insert(l, a), v) ==
              if Covers(a, v) then Some(Cell(a.prot, a.priv, SourcePage(m, file, PageOf(a, v)))) else At(m, l, v)
  {
    hide Vacant, Insert, SourcePage, Carries, View;
    forall v: nat ensures At(m', Insert(l, a), v) ==
        if Covers(a, v) then Some(Cell(a.prot, a.priv, SourcePage(m, file, PageOf(a, v)))) else At(m, l, v) {
      AtInsert(m', l, a, v);
      AtCarried(m, m', held, l, v);
    }
  }

  lemma AtInsert(m: Mem, l: seq<Area>, a: Area, v: nat)
    requires Vacant(l, a.start, a.end)
    ensures At(m, Insert(l, a), v) == if Covers(a, v) then Some(CellOf(m, a, v)) else At(m, l, v)
  {
    hide Vacant, Insert, View;
    InsertFind(l, a, v);
    FindMember(l, v);
    FindMember(Insert(l, a), v);
  }

  lemma ExtIsFile(s: Sys, u: Layout, i: nat, o: nat)
    requires SysInv(s, u) && i < |s.spaces| && o in s.ext
    ensures o in Others(s, i) && IsFile(s.mem, o)
  {
  }

  /** `vmmap_map` at a known start: cut the range free, then add one area. */
  function MapStep(s: Sys, i: nat, start: nat, n: nat, prot: set<Perm>, priv: bool, file: Option<nat>, off: nat): Sys
    requires i < |s.spaces|
  {
    var c := CutAll(s.mem, s.spaces[i], start, start + n);
    if file.Some? && file.value !in c.mem.objs then s
    else
      var (m, o) := BackWith(c.mem, file, priv);
      Replaced(s, i, m, Insert(c.areas, Area(start, start + n, off, prot, priv, o)))
  }

  predicate MayMap(s: Sys, u: Layout, i: nat, start: nat, n: nat, file: Option<nat>) {
    i < |s.spaces| && 0 < n && u.low <= start && start + n <= u.high && (file.Some? ==> file.value in s.ext)
  }

  ghost function NewCell(s: Sys, start: nat, prot: set<Perm>, priv: bool, file: Option<nat>, off: nat, v: nat): Cell
    requires start <= v
  {
    Cell(prot, priv, SourcePage(s.mem, file, off + (v - start)))
  }

  /** Mapping means exactly override: the new range shows zeroes or the file,
      every other page of every space what it showed before. */
  lemma MapMeaning(s: Sys, u: Layout, i: nat, start: nat, n: nat, prot: set<Perm>, priv: bool, file: Option<nat>,
                   off: nat)
    requires SysInv(s, u) && MayMap(s, u, i, start, n, file)
    ensures SysInv(MapStep(s, i, start, n, prot, priv, file, off), u)
    ensures forall j: nat, v: nat :: SysAt(MapStep(s, i, start, n, prot, priv, file, off), j, v) ==
              if j == i && start <= v < start + n then Some(NewCell(s, start, prot, priv, file, off, v))
              else SysAt(s, j, v)
  {
    hide SysInv, Backed, CutAll, At, Insert, BackWith, Others, Sole, View, Ordered, Vacant;
    CutReplaceable(s, u, i, start, start + n);
    var c := CutAll(s.mem, s.spaces[i], start, start + n);
    if file.Some? { ExtIsFile(s, u, i, file.value); }
    var a := Area(start, start + n, off, prot, priv, BackWith(c.mem, file, priv).1);
    var m := BackWith(c.mem, file, priv).0;
    OrderedProper(c.areas, u);
    VacantFromAt(c.mem, c.areas, start, start + n);
    AddAreaOk(c.mem, Others(s, i), c.areas, u, file, a);
    CarriesTrans(s.mem, c.mem, m, Others(s, i), Others(s, i), Others(s, i));
    ReplaceInv(s, i, m, Insert(c.areas, a), u);
    forall j: nat, v: nat ensures SysAt(MapStep(s, i, start, n, prot, priv, file, off), j, v) ==
        if j == i && start <= v < start + n then Some(NewCell(s, start, prot, priv, file, off, v)) else SysAt(s, j, v) {
      ReplaceAt(s, i, m, Insert(c.areas, a), j, v);
    }
  }

  /** Mapping is cutting the range free and adding one area. */
  lemma MapIsAdd(s: Sys, u: Layout, i: nat, file: Option<nat>, start: nat, n: nat, prot: set<Perm>, priv: bool,
                 off: nat)
    requires SysInv(s, u) && i < |s.spaces| && (file.Some? ==> file.value in s.ext)
    ensures var t := UnmapStep(s, i, start, start + n);
            && i < |t.spaces| && (file.Some? ==> file.value in t.mem.objs)
            && var (m, o) := BackWith(t.mem, file, priv);
               Replaced(t, i, m, Insert(t.spaces[i], Area(start, start + n, off, prot, priv, o)))
               == MapStep(s, i, start, n, prot, priv, file, off)
  {
    hide CutAll, BackWith, Insert, SysInv;
    UnmapMeaning(s, u, i, start, start + n);
    var t := UnmapStep(s, i, start, start + n);
    if file.Some? { ExtIsFile(t, u, i, file.value); }
    var (m, o) := BackWith(t.mem, file, priv);
    var l := Insert(t.spaces[i], Area(start, start + n, off, prot, priv, o));
    assert t.spaces[i := l] == s.spaces[i := l];
  }

  /** `vmmap_destroy`: the whole user range goes. */
  function DestroyStep(s: Sys, u: Layout, i: nat): Sys
    requires i < |s.spaces| && u.low <= u.high
  {
    UnmapStep(s, i, u.low, u.high)
  }

  lemma DestroyMeaning(s: Sys, u: Layout, i: nat)
    requires SysInv(s, u) && i < |s.spaces| && u.low < u.high
    ensures SysInv(DestroyStep(s, u, i), u)
    ensures DestroyStep(s, u, i).spaces == s.spaces[i := []]
    ensures forall j: nat, v: nat :: SysAt(DestroyStep(s, u, i), j, v) == if j == i then None else SysAt(s, j, v)
  {
    hide SysInv, CutAll, At, Carries;
    UnmapMeaning(s, u, i, u.low, u.high);
    CutReplaceable(s, u, i, u.low, u.high);
    var c := CutAll(s.mem, s.spaces[i], u.low, u.high);
    OrderedProper(c.areas, u);
    VacantFromAt(c.mem, c.areas, u.low, u.high);
    if c.areas != [] { NonEmptyNotVacant(c.areas, u); }
    forall v: nat ensures At(c.mem, [], v).None? { AtEmpty(c.mem, v); }
    forall j: nat, v: nat ensures SysAt(DestroyStep(s, u, i), j, v) == if j == i then None else SysAt(s, j, v) {
      ReplaceAt(s, i, c.mem, c.areas, j, v);
    }
  }

  lemma NonEmptyNotVacant(l: seq<Area>, u: Layout)
    requires Ordered(l, u) && l != []
    ensures !Vacant(l, u.low, u.high)
  {
    assert InUser(l[0], u);
  }

  lemma AtEmpty(m: Mem, v: nat)
    ensures At(m, [], v).None?
  {
  }

  // ---------------------------------------------------------------------
  // Moving the end of an area up, as do_brk does
  // ---------------------------------------------------------------------

  function Extended(l: seq<Area>, j: nat, end: nat): seq<Area>
    requires j < |l|
  {
    l[j := l[j].(end := end)]
  }

  function ExtendStep(s: Sys, i: nat, j: nat, end: nat): Sys
    requires i < |s.spaces| && j < |s.spaces[i]|
  {
    s.(spaces := s.spaces[i := Extended(s.spaces[i], j, end)])
  }

  /** There is room up to `end`. */
  predicate MayExtend(l: seq<Area>, u: Layout, j: nat, end: nat) {
    j < |l| && l[j].end <= end <= u.high && (j + 1 < |l| ==> end <= l[j + 1].start)
  }

  lemma ExtendOrdered(l: seq<Area>, u: Layout, j: nat, end: nat)
    requires Ordered(l, u) && MayExtend(l, u, j, end)
    ensures Ordered(Extended(l, j, end), u)
  {
    var l' := Extended(l, j, end);
    assert InUser(l[j], u);
    forall x | 0 <= x < |l'| ensures InUser(l'[x], u) { assert InUser(l[x], u); }
    forall x, y | 0 <= x < y < |l'| ensures l'[x].end <= l'[y].start {
      if x == j && y > j + 1 { assert l[j + 1].end <= l[y].start && InUser(l[j + 1], u); }
    }
  }

  lemma {:induction false} ExtendObjs(l: seq<Area>, j: nat, end: nat)
    requires j < |l|
    ensures ObjsOf(Extended(l, j, end)) == ObjsOf(l)
    decreases |l|
  {
    if j > 0 {
      assert Extended(l, j, end)[1..] == Extended(l[1..], j - 1, end);
      ExtendObjs(l[1..], j - 1, end);
    } else {
      assert Extended(l, j, end)[1..] == l[1..];
    }
  }

  /** The new pages show the area's object; every other page is as it was. */
  lemma {:induction false} ExtendAt(m: Mem, l: seq<Area>, u: Layout, j: nat, end: nat, v: nat)
    requires Ordered(l, u) && MayExtend(l, u, j, end)
    ensures At(m, Extended(l, j, end), v) ==
            if l[j].end <= v < end then Some(CellOf(m, l[j].(end := end), v)) else At(m, l, v)
    decreases |l|
  {
    hide View;
    var l' := Extended(l, j, end);
    AtHead(m, l, v);
    AtHead(m, l', v);
    assert InUser(l[j], u);
    if j > 0 {
      assert l'[1..] == Extended(l[1..], j - 1, end);
      assert l[0].end <= l[j].start;
      OrderedTail(l, u);
      assert MayExtend(l[1..], u, j - 1, end);
      ExtendAt(m, l[1..], u, j - 1, end, v);
    } else {
      assert l'[1..] == l[1..];
    }
  }

  lemma ExtendBacked(m: Mem, held: multiset<nat>, l: seq<Area>, j: nat, end: nat)
    requires Backed(m, held, l) && j < |l|
    ensures Backed(m, held, Extended(l, j, end))
  {
    hide Inv, Sole, ObjsOf;
    ExtendObjs(l, j, end);
    var l' := Extended(l, j, end);
    forall a <- l' | a.priv ensures Sole(m, a.obj) {
      assert l[j] in l;
      assert a in l || a == l'[j];
    }
  }

  lemma CarriesSame(m: Mem, held: multiset<nat>)
    ensures Carries(m, m, held)
  {
  }

  /** Extending one area in place: its new pages show what its object holds there,
      and nothing else changes. */
  lemma ExtendMeaning(s: Sys, u: Layout, i: nat, j: nat, end: nat)
    requires SysInv(s, u) && i < |s.spaces| && MayExtend(s.spaces[i], u, j, end)
    ensures SysInv(ExtendStep(s, i, j, end), u)
    ensures var a := s.spaces[i][j];
            forall x: nat, v: nat :: SysAt(ExtendStep(s, i, j, end), x, v) ==
              if x == i && a.end <= v && Covers(a.(end := end), v) then Some(CellOf(s.mem, a.(end := end), v))
              else SysAt(s, x, v)
  {
    hide SysInv, Backed, Carries, ObjsOf, At, Others, View;
    var l := s.spaces[i];
    var l' := Extended(l, j, end);
    SpaceBacked(s, u, i);
    assert InUser(l[j], u);
    ExtendOrdered(l, u, j, end);
    ExtendBacked(s.mem, Others(s, i), l, j, end);
    CarriesSame(s.mem, Others(s, i));
    ReplaceInv(s, i, s.mem, l', u);
    forall x: nat, v: nat
      ensures SysAt(ExtendStep(s, i, j, end), x, v) ==
              if x == i && l[j].end <= v && Covers(l[j].(end := end), v)
                then Some(CellOf(s.mem, l[j].(end := end), v)) else SysAt(s, x, v) {
      if x == i { ExtendAt(s.mem, l, u, j, end, v); }
    }
  }

  // ---------------------------------------------------------------------
  // Fork
  // ---------------------------------------------------------------------

  /** `do_fork`: the child's list first, then the parent moves. */
  function ForkStep(s: Sys, i: nat): Sys
    requires i < |s.spaces|
  {
    var child := ChildAll(s.mem, s.spaces[i]);
    var parent := ParentAll(child.mem, s.spaces[i]);
    s.(mem := parent.mem, spaces := s.spaces[i := parent.areas] + [child.areas])
  }

  /** Both loops together. */
  ghost predicate Forked(m: Mem, held: multiset<nat>, l: seq<Area>, child: Cut, parent: Cut) {
    && Inv(parent.mem, held + ObjsOf(child.areas) + ObjsOf(parent.areas))
    && CopiesAll(m, parent.mem, l, parent.areas)
    && CopiesAll(m, parent.mem, l, child.areas)
    && Extends(m, parent.mem) && KeepsSole(m, parent.mem, l)
  }

  lemma BackedLive(m: Mem, held: multiset<nat>, l: seq<Area>)
    requires Backed(m, held, l)
    ensures Live(m, l)
  {
    hide Inv;
    forall a <- l ensures a.obj in m.objs {
      ObjsOfMember(l, a);
      InvHolds(m, held + ObjsOf(l), a.obj);
    }
  }

  lemma CopiesAllLater(m: Mem, m1: Mem, m2: Mem, l: seq<Area>, l': seq<Area>)
    requires CopiesAll(m, m1, l, l') && Extends(m1, m2) && KeepsSole(m1, m2, [])
    ensures CopiesAll(m, m2, l, l')
  {
    hide Copies, Extends, KeepsSole;
    forall i | 0 <= i < |l| ensures Copies(m, m2, l[i], l'[i]) { CopiesLater(m, m1, m2, l[i], l'[i], []); }
  }

  lemma CopiesAllEarlier(m: Mem, m1: Mem, m2: Mem, l: seq<Area>, l': seq<Area>)
    requires CopiesAll(m1, m2, l, l') && Extends(m, m1) && Live(m, l)
    ensures CopiesAll(m, m2, l, l')
  {
    hide Copies, Extends;
    forall i | 0 <= i < |l| ensures Copies(m, m2, l[i], l'[i]) {
      assert l[i] in l;
      CopiesEarlier(m, m1, m2, l[i], l'[i]);
    }
  }

  lemma BothLoops(m: Mem, held: multiset<nat>, l: seq<Area>)
    requires Backed(m, held, l)
    ensures Forked(m, held, l, ChildAll(m, l), ParentAll(ChildAll(m, l).mem, l))
  {
    hide Inv, CopiesAll, ChildAll, ParentAll, ObjsOf;
    var child := ChildAll(m, l);
    var parent := ParentAll(child.mem, l);
    BackedLive(m, held, l);
    ChildAllOk(m, l, held + ObjsOf(l));
    Shuffle(held, ObjsOf(l), ObjsOf(child.areas));
    assert Live(child.mem, l);
    ParentAllOk(child.mem, l, held + ObjsOf(child.areas));
    ExtendsTrans(m, child.mem, parent.mem);
    CopiesAllLater(m, child.mem, parent.mem, l, child.areas);
    CopiesAllEarlier(m, child.mem, parent.mem, l, parent.areas);
    forall t <- m.objs | Sole(m, t) && (forall a <- l :: a.obj != t) ensures Sole(parent.mem, t) {
      assert Sole(child.mem, t);
    }
  }

  /** A private top held by somebody else is none of this list's objects. */
  lemma SoleElsewhere(m: Mem, held: multiset<nat>, l: seq<Area>, t: nat, a: Area)
    requires Backed(m, held, l) && Sole(m, t) && t in held && a in l
    ensures a.obj != t
  {
    SoleIsHeldOnce(m, held + ObjsOf(l), t);
    ObjsOfMember(l, a);
    hide Inv;
  }

  lemma ForkCarries(m: Mem, held: multiset<nat>, l: seq<Area>, m': Mem)
    requires Backed(m, held, l) && Extends(m, m') && KeepsSole(m, m', l)
    ensures Carries(m, m', held)
  {
    hide Inv, View;
    forall x <- held ensures x in m.objs { InvHolds(m, held + ObjsOf(l), x); }
    forall t | t in held && Sole(m, t) ensures Sole(m', t) {
      forall a <- l ensures a.obj != t { SoleElsewhere(m, held, l, t, a); }
    }
  }

  lemma CopiesSole(m: Mem, m': Mem, l: seq<Area>, l': seq<Area>)
    requires CopiesAll(m, m', l, l')
    ensures forall b <- l' :: b.priv ==> Sole(m', b.obj)
  {
    hide Sole, View;
    forall b <- l' | b.priv ensures Sole(m', b.obj) {
      var k :| 0 <= k < |l'| && l'[k] == b;
      assert Copies(m, m', l[k], l'[k]);
    }
  }

  lemma ForkHolders(s: Sys, i: nat)
    requires i < |s.spaces|
    ensures var child := ChildAll(s.mem, s.spaces[i]);
            var parent := ParentAll(child.mem, s.spaces[i]);
            Holders(ForkStep(s, i)) == Others(s, i) + ObjsOf(child.areas) + ObjsOf(parent.areas)
  {
    hide ChildAll, ParentAll, ObjsOf;
    var child := ChildAll(s.mem, s.spaces[i]);
    var parent := ParentAll(child.mem, s.spaces[i]);
    HeldByUpdate(s.spaces, i, parent.areas);
    HeldByAppend(s.spaces[i := parent.areas], child.areas);
  }

  lemma ForkTops(s: Sys, i: nat, m': Mem, child: seq<Area>, parent: seq<Area>)
    requires i < |s.spaces| && PrivateTops(s.mem, s.spaces) && Carries(s.mem, m', Others(s, i))
    requires forall b <- child :: b.priv ==> Sole(m', b.obj)
    requires forall b <- parent :: b.priv ==> Sole(m', b.obj)
    ensures PrivateTops(m', s.spaces[i := parent] + [child])
  {
    hide Sole, View, IsFile, Others;
    var ss := s.spaces[i := parent] + [child];
    forall j, a: Area | 0 <= j < |ss| && a in ss[j] && a.priv ensures Sole(m', a.obj) {
      if j < |s.spaces| && j != i { OtherIsHeld(s, i, j, a); }
    }
  }

  /** Right after a fork, parent and child see what the parent saw, and nobody
      else sees anything; the accounting and the private tops are restored. */
  lemma ForkMeaning(s: Sys, u: Layout, i: nat)
    requires SysInv(s, u) && i < |s.spaces|
    ensures SysInv(ForkStep(s, i), u)
    ensures forall j: nat, v: nat :: SysAt(ForkStep(s, i), j, v) == if j == |s.spaces| then SysAt(s, i, v)
            else SysAt(s, j, v)
  {
    var l := s.spaces[i];
    var child := ChildAll(s.mem, l);
    var parent := ParentAll(child.mem, l);
    hide ChildAll, ParentAll, Others, ObjsOf, Inv, Backed, CopiesAll, Sole, View, Holders, At, Extends, KeepsSole;
    SpaceBacked(s, u, i);
    BothLoops(s.mem, Others(s, i), l);
    ForkCarries(s.mem, Others(s, i), l, parent.mem);
    CopiesSole(s.mem, parent.mem, l, child.areas);
    CopiesSole(s.mem, parent.mem, l, parent.areas);
    CopiesOrdered(s.mem, parent.mem, l, child.areas, u);
    CopiesOrdered(s.mem, parent.mem, l, parent.areas, u);
    ForkTops(s, i, parent.mem, child.areas, parent.areas);
    ForkHolders(s, i);
    ForkInv(s, u, i);
    forall j: nat, v: nat ensures SysAt(ForkStep(s, i), j, v) == if j == |s.spaces| then SysAt(s, i, v)
      else SysAt(s, j, v) {
      CopiesAt(s.mem, parent.mem, l, child.areas, v);
      CopiesAt(s.mem, parent.mem, l, parent.areas, v);
      ReplaceAt(s, i, parent.mem, parent.areas, j, v);
    }
  }

  lemma ForkInv(s: Sys, u: Layout, i: nat)
    requires SysInv(s, u) && i < |s.spaces|
    requires var f := ForkStep(s, i); var n := |s.spaces|;
             && |f.spaces| == n + 1
             && Inv(f.mem, Holders(f)) && PrivateTops(f.mem, f.spaces)
             && Ordered(f.spaces[i], u) && Ordered(f.spaces[n], u)
             && Carries(s.mem, f.mem, Others(s, i))
    ensures SysInv(ForkStep(s, i), u)
  {
    hide ChildAll, ParentAll, Inv, Sole, View, Holders, Ordered, PrivateTops, IsFile;
    forall o <- s.ext ensures IsFile(ForkStep(s, i).mem, o) { assert o in Others(s, i); }
  }

  // ---------------------------------------------------------------------
  // Steps that leave the lists alone
  // ---------------------------------------------------------------------

  lemma MemStepInv(s: Sys, u: Layout, m: Mem, ext: multiset<nat>)
    requires SysInv(s, u) && Inv(m, ext + HeldBy(s.spaces)) && KeepsHeld(s.mem, m, HeldBy(s.spaces))
    requires forall o <- ext :: IsFile(m, o)
    ensures SysInv(s.(mem := m, ext := ext), u)
  {
    hide Inv, Sole, View, Ordered;
    forall i, a: Area | 0 <= i < |s.spaces| && a in s.spaces[i] && a.priv ensures Sole(m, a.obj) {
      HeldByMember(s.spaces, i, a);
    }
  }

  lemma MemStepAt(s: Sys, m: Mem, ext: multiset<nat>, j: nat, v: nat)
    requires Carries(s.mem, m, HeldBy(s.spaces))
    ensures SysAt(s.(mem := m, ext := ext), j, v) == SysAt(s, j, v)
  {
    if j < |s.spaces| {
      hide View, Sole, IsFile;
      HeldBySpace(s.spaces, j);
      CarriesLess(s.mem, m, HeldBy(s.spaces), multiset{} + ObjsOf(s.spaces[j]));
      AtCarried(s.mem, m, multiset{}, s.spaces[j], v);
    }
  }

  /** No object goes, changes kind, or gains or loses an outside holder. */
  predicate Steady(m: Mem, m': Mem) {
    && m'.next == m.next && m'.objs.Keys == m.objs.Keys
    && forall x <- m.objs ::
         && m'.objs[x].kind == m.objs[x].kind
         && m'.objs[x].refs - m'.objs[x].nres == m.objs[x].refs - m.objs[x].nres
  }

  lemma ReadSteady(m: Mem, o: nat, p: nat)
    ensures Steady(m, LookRead(m, o, p).mem)
  {
    BaseSteady(m, o, p);
    if o in m.objs && m.objs[o].kind.Shadow? { BaseSteady(m, m.objs[o].kind.bottom, p); }
    hide LookBase;
  }

  lemma BaseSteady(m: Mem, o: nat, p: nat)
    ensures Steady(m, LookBase(m, o, p).mem)
  {
  }

  lemma WriteSteady(m: Mem, o: nat, p: nat, junk: Page)
    ensures Steady(m, LookWrite(m, o, p, junk).mem)
  {
    if o !in m.objs || !m.objs[o].kind.Shadow? {
      BaseSteady(m, o, p);
    } else if p !in m.objs[o].frames {
      ReadSteady(AddFrame(m, o, p, Frame(junk, 0)), m.objs[o].kind.under, p);
      hide LookRead;
    }
  }

  lemma SteadyCarries(m: Mem, m': Mem, held: multiset<nat>)
    requires Steady(m, m') && SameViews(m, m')
    ensures Carries(m, m', held)
  {
  }

  /** A read fault: page-in at any depth of the chain. */
  function ReadFaultStep(s: Sys, a: Area, v: nat): Sys
    requires Covers(a, v)
  {
    s.(mem := LookRead(s.mem, a.obj, PageOf(a, v)).mem)
  }

  lemma FilesStay(s: Sys, u: Layout, m: Mem)
    requires SysInv(s, u) && Steady(s.mem, m)
    ensures forall o <- s.ext :: IsFile(m, o)
  {
  }

  lemma AreaObjLives(s: Sys, u: Layout, i: nat, a: Area)
    requires SysInv(s, u) && i < |s.spaces| && a in s.spaces[i]
    ensures a.obj in Holders(s) && a.obj in s.mem.objs
  {
    HeldByMember(s.spaces, i, a);
    InvHolds(s.mem, Holders(s), a.obj);
  }

  /** A read fault is invisible to every process. */
  lemma ReadFaultMeaning(s: Sys, u: Layout, i: nat, a: Area, v: nat)
    requires SysInv(s, u) && i < |s.spaces| && a in s.spaces[i] && Covers(a, v)
    ensures SysInv(ReadFaultStep(s, a, v), u)
    ensures forall j: nat, w: nat :: SysAt(ReadFaultStep(s, a, v), j, w) == SysAt(s, j, w)
  {
    var m := LookRead(s.mem, a.obj, PageOf(a, v)).mem;
    AreaObjLives(s, u, i, a);
    assert Inv(s.mem, Holders(s));
    hide Inv, SysInv, LookRead, SameViews, Steady, KeepsHeld, View;
    ReadIsInvisible(s.mem, a.obj, PageOf(a, v), Holders(s));
    ReadSteady(s.mem, a.obj, PageOf(a, v));
    SteadyCarries(s.mem, m, HeldBy(s.spaces));
    FilesStay(s, u, m);
    MemStepInv(s, u, m, s.ext);
    forall j: nat, w: nat ensures SysAt(ReadFaultStep(s, a, v), j, w) == SysAt(s, j, w) {
      MemStepAt(s, m, s.ext, j, w);
    }
  }

  // ---------------------------------------------------------------------
  // Write faults and stores
  // ---------------------------------------------------------------------

  /** A write fault followed by the store that caused it: the page of object `o`
      becomes `data`. When the fill fails the faulting process is killed before
      it can store. */
  function WritePage(m: Mem, o: nat, p: nat, junk: Page, data: Page): Mem {
    var r := LookWrite(m, o, p, junk);
    if Landed(r, p) then Store(r.mem, r.owner, p, data) else r.mem
  }

  function WriteFaultStep(s: Sys, a: Area, v: nat, junk: Page, data: Page): Sys
    requires Covers(a, v)
  {
    s.(mem := WritePage(s.mem, a.obj, PageOf(a, v), junk, data))
  }

  lemma StoreInv(m: Mem, held: multiset<nat>, o: nat, p: nat, data: Page)
    requires Inv(m, held) && o in m.objs && p in m.objs[o].frames
    ensures Inv(Store(m, o, p, data), held)
  {
    hide Inv;
    InvObjOk(m, held, o);
    SetFrameInv(m, o, p, m.objs[o].frames[p].(data := data), held);
  }

  lemma StoreSteady(m: Mem, m1: Mem, o: nat, p: nat, data: Page)
    requires Steady(m, m1) && o in m1.objs && p in m1.objs[o].frames
    ensures Steady(m, Store(m1, o, p, data))
  {
  }

  lemma WriteInv(m: Mem, held: multiset<nat>, o: nat, p: nat, junk: Page, data: Page)
    requires Inv(m, held) && o in m.objs
    ensures Inv(WritePage(m, o, p, junk, data), held) && Steady(m, WritePage(m, o, p, junk, data))
  {
    hide Inv, LookWrite, View, Steady, Store;
    WriteDelivers(m, o, p, junk, held);
    WriteSteady(m, o, p, junk);
    var r := LookWrite(m, o, p, junk);
    if Landed(r, p) {
      StoreInv(r.mem, held, r.owner, p, data);
      StoreSteady(m, r.mem, r.owner, p, data);
    }
  }

  /** What a store leaves in the page: the data, or junk if the fill failed. */
  function Stored(m: Mem, o: nat, p: nat, junk: Page, data: Page): Page {
    if View(m, o, p).Some? then data else junk
  }

  lemma SteadyUnshadowed(m: Mem, m': Mem, held: multiset<nat>, o: nat)
    requires Inv(m', held) && Steady(m, m') && Sole(m, o) && o in held
    ensures Unshadowed(m', o)
  {
    SoleIsHeldOnce(m', held, o);
  }

  lemma FoundIsPrivate(m: Mem, held: multiset<nat>, o: nat, p: nat, junk: Page, data: Page, y: nat, q: nat)
    requires Inv(m, held) && Sole(m, o) && o in held && View(m, o, p).Some?
    ensures View(WritePage(m, o, p, junk, data), y, q) == if y == o && q == p then Some(data) else View(m, y, q)
  {
    hide Inv, LookWrite, Steady, Unshadowed;
    var r := LookWrite(m, o, p, junk);
    WriteDelivers(m, o, p, junk, held);
    WriteSteady(m, o, p, junk);
    WriteSameViews(m, o, p, junk, held);
    SteadyUnshadowed(m, r.mem, held, o);
    var x := r.mem.objs[o];
    var f := x.frames[p].(data := data);
    PutIsPrivate(r.mem, o, x.(frames := x.frames[p := f]), p, f, y, q);
  }

  lemma FailedIsPrivate(m: Mem, held: multiset<nat>, o: nat, p: nat, junk: Page, data: Page, y: nat, q: nat)
    requires Inv(m, held) && Sole(m, o) && o in held && View(m, o, p).None?
    ensures View(WritePage(m, o, p, junk, data), y, q) == if y == o && q == p then Some(junk) else View(m, y, q)
  {
    hide Inv, LookWrite, LookRead, Unshadowed;
    CopyUp(m, o, p, junk, held);
    SoleIsHeldOnce(m, held, o);
    var x := m.objs[o];
    PutIsPrivate(m, o, x.(refs := x.refs + 1, nres := x.nres + 1, frames := x.frames[p := Frame(junk, 0)]), p,
                 Frame(junk, 0), y, q);
  }

  /** A write through an object with one holder changes one page of one object. */
  lemma WriteIsPrivate(m: Mem, held: multiset<nat>, o: nat, p: nat, junk: Page, data: Page, y: nat, q: nat)
    requires Inv(m, held) && Sole(m, o) && o in held
    ensures View(WritePage(m, o, p, junk, data), y, q) ==
            if y == o && q == p then Some(Stored(m, o, p, junk, data)) else View(m, y, q)
  {
    hide Inv, WritePage, Sole;
    if View(m, o, p).Some? {
      FoundIsPrivate(m, held, o, p, junk, data, y, q);
    } else {
      FailedIsPrivate(m, held, o, p, junk, data, y, q);
    }
  }

  lemma {:induction false} TwiceInList(l: seq<Area>, a: Area, b: Area)
    requires a in l && b in l && a != b && a.obj == b.obj
    ensures ObjsOf(l)[a.obj] >= 2
  {
    if l[0] == a { ObjsOfMember(l[1..], b); }
    else if l[0] == b { ObjsOfMember(l[1..], a); }
    else { TwiceInList(l[1..], a, b); }
  }

  lemma TwiceInSpaces(ss: seq<seq<Area>>, i: nat, a: Area, j: nat, b: Area)
    requires i < |ss| && j < |ss| && a in ss[i] && b in ss[j] && a.obj == b.obj && (i != j || a != b)
    ensures HeldBy(ss)[a.obj] >= 2
  {
    HeldBySplit(ss, i);
    if i == j {
      TwiceInList(ss[i], a, b);
    } else {
      ObjsOfMember(ss[i], a);
      HeldByMember(ss[i := []], j, b);
    }
  }

  /** No other area has a private area's object. */
  lemma PrivateObjIsOwn(s: Sys, u: Layout, i: nat, a: Area, j: nat, b: Area)
    requires SysInv(s, u) && i < |s.spaces| && j < |s.spaces| && a in s.spaces[i] && b in s.spaces[j]
    requires a.priv && a.obj == b.obj
    ensures i == j && a == b
  {
    AreaObjLives(s, u, i, a);
    assert Sole(s.mem, a.obj);
    SoleIsHeldOnce(s.mem, Holders(s), a.obj);
    hide Inv, SysInv;
    if i != j || a != b { TwiceInSpaces(s.spaces, i, a, j, b); }
  }

  lemma WriteFaultInv(s: Sys, u: Layout, i: nat, a: Area, v: nat, junk: Page, data: Page)
    requires SysInv(s, u) && i < |s.spaces| && a in s.spaces[i] && Covers(a, v)
    ensures SysInv(WriteFaultStep(s, a, v, junk, data), u)
  {
    var m := WritePage(s.mem, a.obj, PageOf(a, v), junk, data);
    AreaObjLives(s, u, i, a);
    WriteInv(s.mem, Holders(s), a.obj, PageOf(a, v), junk, data);
    FilesStay(s, u, m);
    SteadyInv(s, u, m);
  }

  lemma SteadyInv(s: Sys, u: Layout, m: Mem)
    requires SysInv(s, u) && Inv(m, Holders(s)) && Steady(s.mem, m) && forall o <- s.ext :: IsFile(m, o)
    ensures SysInv(s.(mem := m), u)
  {
    hide Inv;
  }

  /** Isolation: a store through a private area changes that one page for that
      one process, whatever chains and forks lie behind it. */
  lemma PrivateWriteMeaning(s: Sys, u: Layout, i: nat, a: Area, v: nat, junk: Page, data: Page)
    requires SysInv(s, u) && i < |s.spaces| && Find(s.spaces[i], v) == Some(a) && a in s.spaces[i] && Covers(a, v)
             && a.priv
    ensures SysInv(WriteFaultStep(s, a, v, junk, data), u)
    ensures forall j: nat, w: nat :: SysAt(WriteFaultStep(s, a, v, junk, data), j, w) ==
              if j == i && w == v then Some(Cell(a.prot, true, Some(Stored(s.mem, a.obj, PageOf(a, v), junk, data))))
              else SysAt(s, j, w)
  {
    hide SysInv, WritePage, Stored, Find;
    WriteFaultInv(s, u, i, a, v, junk, data);
    forall j: nat, w: nat ensures SysAt(WriteFaultStep(s, a, v, junk, data), j, w) ==
        if j == i && w == v then Some(Cell(a.prot, true, Some(Stored(s.mem, a.obj, PageOf(a, v), junk, data))))
        else SysAt(s, j, w) {
      PrivateWriteAt(s, u, i, a, v, junk, data, j, w);
    }
  }

  lemma PrivateWriteAt(s: Sys, u: Layout, i: nat, a: Area, v: nat, junk: Page, data: Page, j: nat, w: nat)
    requires SysInv(s, u) && i < |s.spaces| && Find(s.spaces[i], v) == Some(a) && a in s.spaces[i] && Covers(a, v)
             && a.priv
    ensures SysAt(WriteFaultStep(s, a, v, junk, data), j, w) ==
            if j == i && w == v then Some(Cell(a.prot, true, Some(Stored(s.mem, a.obj, PageOf(a, v), junk, data))))
            else SysAt(s, j, w)
  {
    if j < |s.spaces| {
      FindMember(s.spaces[j], w);
      var r := Find(s.spaces[j], w);
      if r.Some? {
        var b := r.value;
        AreaObjLives(s, u, i, a);
        assert Inv(s.mem, Holders(s)) && Sole(s.mem, a.obj);
        hide SysInv, Inv, Find, WritePage, Stored, Sole;
        WriteIsPrivate(s.mem, Holders(s), a.obj, PageOf(a, v), junk, data, b.obj, PageOf(b, w));
        if b.obj == a.obj { PrivateObjIsOwn(s, u, i, a, j, b); }
      }
    }
  }

  // ---------------------------------------------------------------------
  // Files from outside, and pageout
  // ---------------------------------------------------------------------

  /** A vnode comes into use, held by whoever asked for it. */
  function OpenStep(s: Sys, disk: seq<Page>, linked: bool): Sys {
    s.(mem := AddObj(s.mem, File(disk, linked)), ext := s.ext + multiset{s.mem.next})
  }

  /** `vref`: one more outside holder of a vnode. */
  function RefStep(s: Sys, o: nat): Sys
    requires o in s.mem.objs
  {
    s.(mem := AddRef(s.mem, o), ext := s.ext + multiset{o})
  }

  /** `vput` by an outside holder. */
  function CloseStep(s: Sys, o: nat): Sys {
    s.(mem := Release(s.mem, o), ext := s.ext - multiset{o})
  }

  /** A page stops being resident; its reference is still counted. */
  function DropFrame(m: Mem, o: nat, p: nat): Mem
    requires o in m.objs
  {
    SetObj(m, o, m.objs[o].(nres := m.objs[o].nres - 1, frames := m.objs[o].frames - {p}))
  }

  /** `pframe_free` of an unpinned page, as the pageout daemon calls it. */
  function EvictStep(s: Sys, o: nat, p: nat): Sys
    requires o in s.mem.objs
  {
    s.(mem := Release(DropFrame(s.mem, o, p), o))
  }

  lemma ReleaseCarries(m: Mem, held: multiset<nat>, o: nat)
    requires Inv(m, held + multiset{o})
    ensures Carries(m, Release(m, o), held) && Inv(Release(m, o), held)
  {
    ReleaseInv(m, held, o);
    ReleaseTrims(m, o);
    ReleaseKeepsViews(m, held, o);
    forall x <- held ensures x in Release(m, o).objs { InvHolds(Release(m, o), held, x); }
    forall t | t in held && Sole(m, t) ensures Sole(Release(m, o), t) { ReleaseSole(m, o, held, t); }
    hide Inv, Release;
  }

  /** Common to all steps by outside holders. */
  lemma OutsideMeaning(s: Sys, u: Layout, m: Mem, ext: multiset<nat>)
    requires SysInv(s, u) && Inv(m, ext + HeldBy(s.spaces)) && Carries(s.mem, m, HeldBy(s.spaces))
    requires forall o <- ext :: IsFile(m, o)
    ensures SysInv(s.(mem := m, ext := ext), u)
    ensures forall j: nat, v: nat :: SysAt(s.(mem := m, ext := ext), j, v) == SysAt(s, j, v)
  {
    hide SysInv, Inv, KeepsHeld;
    MemStepInv(s, u, m, ext);
    forall j: nat, v: nat ensures SysAt(s.(mem := m, ext := ext), j, v) == SysAt(s, j, v) {
      MemStepAt(s, m, ext, j, v);
    }
  }

  lemma HoldersCarry(s: Sys, u: Layout, m: Mem, h: multiset<nat>)
    requires SysInv(s, u) && Carries(s.mem, m, h) && s.ext <= h
    ensures forall o <- s.ext :: IsFile(m, o)
  {
    forall o <- s.ext ensures IsFile(m, o) { assert o in h && IsFile(s.mem, o); }
  }

  /** One more outside holder of a file. */
  lemma GrowMeaning(s: Sys, u: Layout, m: Mem, o: nat)
    requires SysInv(s, u) && Inv(m, Holders(s) + multiset{o}) && Carries(s.mem, m, Holders(s)) && IsFile(m, o)
    ensures SysInv(s.(mem := m, ext := s.ext + multiset{o}), u)
    ensures forall j: nat, v: nat :: SysAt(s.(mem := m, ext := s.ext + multiset{o}), j, v) == SysAt(s, j, v)
  {
    hide SysInv, Inv, Carries, IsFile, SysAt;
    HoldersCarry(s, u, m, Holders(s));
    CarriesLess(s.mem, m, Holders(s), HeldBy(s.spaces));
    Shuffle(s.ext, HeldBy(s.spaces), multiset{o});
    OutsideMeaning(s, u, m, s.ext + multiset{o});
  }

  lemma OpenMeaning(s: Sys, u: Layout, disk: seq<Page>, linked: bool)
    requires SysInv(s, u)
    ensures SysInv(OpenStep(s, disk, linked), u)
    ensures forall j: nat, v: nat :: SysAt(OpenStep(s, disk, linked), j, v) == SysAt(s, j, v)
  {
    var k := File(disk, linked);
    var m := AddObj(s.mem, k);
    assert IsFile(m, s.mem.next);
    assert Inv(s.mem, Holders(s)) && WellFormed(s.mem);
    hide Inv, WellFormed, AddObj, SysInv, IsFile, SysAt, Holders;
    assert Holders(s) + Below(Obj(k, 1, 0, map[])) == Holders(s);
    AddObjInv(s.mem, k, Holders(s));
    AddObjExtends(s.mem, k);
    NewKeepsSole(s.mem, Holders(s), k);
    ExtendsCarries(s.mem, m, Holders(s));
    GrowMeaning(s, u, m, s.mem.next);
  }

  lemma RefMeaning(s: Sys, u: Layout, o: nat)
    requires SysInv(s, u) && IsFile(s.mem, o)
    ensures SysInv(RefStep(s, o), u)
    ensures forall j: nat, v: nat :: SysAt(RefStep(s, o), j, v) == SysAt(s, j, v)
  {
    var m := AddRef(s.mem, o);
    assert KeepsSole(s.mem, m, []);
    assert Inv(s.mem, Holders(s));
    hide Inv, SysInv, SysAt, Holders;
    AddRefInv(s.mem, Holders(s), o);
    AddRefExtends(s.mem, o);
    ExtendsCarries(s.mem, m, Holders(s));
    GrowMeaning(s, u, m, o);
  }

  lemma CloseHolders(s: Sys, u: Layout, o: nat)
    requires SysInv(s, u) && o in s.ext
    ensures var h := s.ext - multiset{o} + HeldBy(s.spaces);
            && Inv(s.mem, h + multiset{o}) && HeldBy(s.spaces) <= h
            && forall x <- s.ext - multiset{o} :: x in h && IsFile(s.mem, x)
  {
    hide Inv;
    assert Holders(s) == s.ext - multiset{o} + HeldBy(s.spaces) + multiset{o};
  }

  /** Closing a file frees it if it was the last holder; no process sees it. */
  lemma CloseMeaning(s: Sys, u: Layout, o: nat)
    requires SysInv(s, u) && o in s.ext
    ensures SysInv(CloseStep(s, o), u)
    ensures forall j: nat, v: nat :: SysAt(CloseStep(s, o), j, v) == SysAt(s, j, v)
  {
    hide Inv, SysInv, SysAt, Release;
    var h := s.ext - multiset{o} + HeldBy(s.spaces);
    CloseHolders(s, u, o);
    ReleaseCarries(s.mem, h, o);
    CarriesLess(s.mem, Release(s.mem, o), h, HeldBy(s.spaces));
    OutsideMeaning(s, u, Release(s.mem, o), s.ext - multiset{o});
  }

  /** The last link of a file goes: from now on only its holders keep it. */
  function Unlinked(m: Mem, o: nat): Mem
    requires IsFile(m, o)
  {
    SetObj(m, o, m.objs[o].(kind := File(m.objs[o].kind.disk, false)))
  }

  function UnlinkFileStep(s: Sys, o: nat): Sys
    requires IsFile(s.mem, o)
  {
    s.(mem := Unlinked(s.mem, o))
  }

  lemma {:induction false} UnlinkedShape(m: Mem, o: nat, y: nat, p: nat)
    requires IsFile(m, o)
    ensures Bottom(Unlinked(m, o), y) == Bottom(m, y) && View(Unlinked(m, o), y, p) == View(m, y, p)
    decreases y
  {
    if y in m.objs && m.objs[y].kind.Shadow?
      && m.objs[y].kind.under < y { UnlinkedShape(m, o, m.objs[y].kind.under, p); }
  }

  lemma {:induction false} UnlinkedOver(m: Mem, o: nat, y: nat, n: nat)
    requires IsFile(m, o)
    ensures OverBelow(Unlinked(m, o), y, n) == OverBelow(m, y, n)
    decreases n
  {
    if n > 0 { UnlinkedOver(m, o, y, n - 1); }
  }

  lemma UnlinkedInv(m: Mem, held: multiset<nat>, o: nat)
    requires Inv(m, held) && IsFile(m, o)
    ensures Inv(Unlinked(m, o), held)
  {
    var m' := Unlinked(m, o);
    forall y <- m'.objs ensures ObjOk(m', y) {
      assert ObjOk(m, y);
      UnlinkedShape(m, o, y, 0);
    }
    forall y <- m'.objs ensures m'.objs[y].refs ==
      m'.objs[y].nres + Over(m', y) + held[y] { UnlinkedOver(m, o, y, m.next); }
  }

  /** Losing its last link changes nothing that is seen of a file in use. */
  lemma UnlinkFileMeaning(s: Sys, u: Layout, o: nat)
    requires SysInv(s, u) && IsFile(s.mem, o)
    ensures SysInv(UnlinkFileStep(s, o), u)
    ensures forall j: nat, v: nat :: SysAt(UnlinkFileStep(s, o), j, v) == SysAt(s, j, v)
  {
    hide Inv, SysInv, SysAt;
    SysInvMem(s, u);
    UnlinkedInv(s.mem, Holders(s), o);
    forall y, p ensures View(Unlinked(s.mem, o), y, p) == View(s.mem, y, p) { UnlinkedShape(s.mem, o, y, p); }
    assert Carries(s.mem, Unlinked(s.mem, o), Holders(s));
    hide Unlinked;
    HoldersCarry(s, u, Unlinked(s.mem, o), Holders(s));
    CarriesLess(s.mem, Unlinked(s.mem, o), Holders(s), HeldBy(s.spaces));
    OutsideMeaning(s, u, Unlinked(s.mem, o), s.ext);
  }

  lemma DropAccounted(m: Mem, o: nat, x: Obj, held: multiset<nat>)
    requires Accounted(m, held) && o in m.objs && x.kind == m.objs[o].kind
    requires x.refs - x.nres == m.objs[o].refs - m.objs[o].nres + 1
    ensures Accounted(SetObj(m, o, x), held + multiset{o})
  {
    var m' := SetObj(m, o, x);
    forall y <- m'.objs ensures m'.objs[y].refs == m'.objs[y].nres + Over(m', y) + (held + multiset{o})[y] {
      SameKindsOver(m, m', y, m.next);
    }
  }

  lemma LocalAfterDrop(x: Obj, p: nat)
    requires Local(x) && p in x.frames
    ensures Local(x.(nres := x.nres - 1, frames := x.frames - {p}))
  {
    assert (x.frames - {p}).Keys == x.frames.Keys - {p};
    assert |x.frames.Keys - {p}| == |x.frames.Keys| - 1;
  }

  lemma DropFrameInv(m: Mem, held: multiset<nat>, o: nat, p: nat)
    requires Inv(m, held) && IsFile(m, o) && p in m.objs[o].frames
    ensures Inv(DropFrame(m, o, p), held + multiset{o})
  {
    InvObjOk(m, held, o);
    LocalAfterDrop(m.objs[o], p);
    var x := m.objs[o].(nres := m.objs[o].nres - 1, frames := m.objs[o].frames - {p});
    hide WellFormed, Accounted, Local;
    SetObjWellFormed(m, o, x);
    DropAccounted(m, o, x, held);
  }

  /** Is the resident page the page on disk? */
  predicate Synced(x: Obj, p: nat) {
    x.kind.File? && p in x.frames && p < |x.kind.disk| && x.frames[p].data == x.kind.disk[p]
  }

  /** Dropping a file page is invisible exactly when its content is on disk. A
      store through a shared mapping never marks the page dirty, so a page that
      passes for clean need not be. */
  lemma DropIsInvisibleIff(m: Mem, held: multiset<nat>, o: nat, p: nat)
    requires Inv(m, held) && IsFile(m, o) && p in m.objs[o].frames
    ensures SameViews(m, DropFrame(m, o, p)) <==> Synced(m.objs[o], p)
  {
    InvObjOk(m, held, o);
    hide Inv;
    var x := m.objs[o].(nres := m.objs[o].nres - 1, frames := m.objs[o].frames - {p});
    var m' := DropFrame(m, o, p);
    assert View(m', o, p) == Some(m.objs[o].kind.disk[p]);
    assert View(m, o, p) == Some(m.objs[o].frames[p].data);
    if Synced(m.objs[o], p) {
      forall y, q ensures View(m', y, q) == View(m, y, q) { SameAtSameAbove(m, o, x, y, q); }
    }
  }

  lemma DropKeeps(m: Mem, o: nat, p: nat, held: multiset<nat>)
    requires IsFile(m, o)
    ensures KeepsHeld(m, DropFrame(m, o, p), held)
  {
  }

  lemma KeepsHeldTrans(m: Mem, m1: Mem, m2: Mem, held: multiset<nat>, h: multiset<nat>)
    requires KeepsHeld(m, m1, h) && KeepsHeld(m1, m2, h) && held <= h
    ensures KeepsHeld(m, m2, held)
  {
    assert forall x <- held :: x in h;
  }

  /** A page of an object in use goes, and its reference with it. */
  function WithoutPage(x: Obj, p: nat): Obj {
    x.(refs := x.refs - 1, nres := x.nres - 1, frames := x.frames - {p})
  }

  lemma EvictForm(m: Mem, o: nat, p: nat)
    requires o in m.objs && m.objs[o].refs > m.objs[o].nres
    ensures Release(DropFrame(m, o, p), o) == SetObj(m, o, WithoutPage(m.objs[o], p))
  {
  }

  /** Eviction keeps the accounting, whatever the page holds. */
  lemma EvictInv(s: Sys, u: Layout, o: nat, p: nat)
    requires SysInv(s, u) && o in s.mem.objs && p in s.mem.objs[o].frames
    ensures SysInv(EvictStep(s, o, p), u)
  {
    if IsFile(s.mem, o) { EvictFileInv(s, u, o, p); } else { EvictTopInv(s, u, o, p); }
  }

  lemma SysInvMem(s: Sys, u: Layout)
    requires SysInv(s, u)
    ensures Inv(s.mem, Holders(s)) && WellFormed(s.mem)
  {
  }

  lemma InUse(m: Mem, held: multiset<nat>, o: nat)
    requires Inv(m, held) && o in m.objs && !IsFile(m, o)
    ensures m.objs[o].refs > m.objs[o].nres
  {
  }

  lemma EvictTopInv(s: Sys, u: Layout, o: nat, p: nat)
    requires SysInv(s, u) && o in s.mem.objs && !IsFile(s.mem, o) && p in s.mem.objs[o].frames
    ensures SysInv(EvictStep(s, o, p), u)
  {
    hide Inv, SysInv, Release, Holders;
    var h, x := Holders(s), s.mem.objs[o];
    SysInvMem(s, u);
    InUse(s.mem, h, o);
    InvObjOk(s.mem, h, o);
    EvictForm(s.mem, o, p);
    LocalAfterDrop(x, p);
    var m := SetObj(s.mem, o, WithoutPage(x, p));
    SetObjInv(s.mem, o, WithoutPage(x, p), h);
    assert Steady(s.mem, m);
    FilesStay(s, u, m);
    SteadyInv(s, u, m);
  }

  lemma EvictFileInv(s: Sys, u: Layout, o: nat, p: nat)
    requires SysInv(s, u) && IsFile(s.mem, o) && p in s.mem.objs[o].frames
    ensures SysInv(EvictStep(s, o, p), u)
  {
    var m := DropFrame(s.mem, o, p);
    var h := Holders(s);
    assert Inv(s.mem, h);
    assert forall x <- s.ext :: x in h && IsFile(s.mem, x);
    hide Inv, SysInv, Release, Sole, View;
    DropFrameInv(s.mem, h, o, p);
    DropKeeps(s.mem, o, p, h);
    hide DropFrame;
    ReleaseCarries(m, h, o);
    KeepsHeldTrans(s.mem, m, Release(m, o), h, h);
    KeepsHeldTrans(s.mem, m, Release(m, o), HeldBy(s.spaces), h);
    MemStepInv(s, u, Release(m, o), s.ext);
  }

  /** ... and no process sees it if the page is on disk. */
  lemma EvictMeaning(s: Sys, u: Layout, o: nat, p: nat)
    requires SysInv(s, u) && IsFile(s.mem, o) && Synced(s.mem.objs[o], p)
    ensures forall j: nat, v: nat :: SysAt(EvictStep(s, o, p), j, v) == SysAt(s, j, v)
  {
    var m := DropFrame(s.mem, o, p);
    var h := Holders(s);
    assert Inv(s.mem, h);
    hide Inv, SysInv, Release, KeepsHeld;
    DropFrameInv(s.mem, h, o, p);
    DropIsInvisibleIff(s.mem, h, o, p);
    DropKeeps(s.mem, o, p, h);
    assert Carries(s.mem, m, h);
    hide DropFrame, View, Carries, SysAt;
    ReleaseCarries(m, h, o);
    CarriesTrans(s.mem, m, Release(m, o), h, h, h);
    CarriesLess(s.mem, Release(m, o), h, HeldBy(s.spaces));
    forall j: nat, v: nat ensures SysAt(EvictStep(s, o, p), j, v) == SysAt(s, j, v) {
      MemStepAt(s, Release(m, o), s.ext, j, v);
    }
  }
}
