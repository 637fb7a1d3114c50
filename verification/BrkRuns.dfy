/** The break of one process while every process maps, unmaps, forks and faults. */
module BrkRuns {
  import opened Basics
  import opened Memory
  import opened AddressSpace
  import opened Unmap
  import opened Fork
  import opened VmSystem
  import opened VmSteps
  import opened VmRuns
  import opened Flatten
  import opened Brk

  // ---------------------------------------------------------------------
  // The heap in a flat list
  // ---------------------------------------------------------------------

  predicate FlatData(a: FlatArea, first: nat) {
    a.start <= first && a.end == first + 1
  }

  predicate FlatHeap(a: FlatArea, first: nat, last: nat) {
    a.start == first + 1 && a.end == last + 1 && a.prot == {Read, Write} && a.priv
  }

  /** Data and heap, whether or not there is an area above. */
  predicate Base(l: seq<Area>, first: nat, last: nat) {
    && first <= last
    && (exists x :: 0 <= x < |l| && IsData(l[x], first))
    && (first < last ==> exists x :: 0 <= x < |l| && IsHeap(l[x], first, last))
  }

  predicate Roof(l: seq<Area>, last: nat) {
    exists x :: 0 <= x < |l| && last < l[x].start
  }

  lemma HeapParts(l: seq<Area>, first: nat, last: nat)
    ensures HeapIn(l, first, last) <==> Base(l, first, last) && Roof(l, last)
  {
  }

  predicate FlatBase(l: seq<FlatArea>, first: nat, last: nat) {
    && first <= last
    && (exists x :: 0 <= x < |l| && FlatData(l[x], first))
    && (first < last ==> exists x :: 0 <= x < |l| && FlatHeap(l[x], first, last))
  }

  predicate FlatRoof(l: seq<FlatArea>, last: nat) {
    exists x :: 0 <= x < |l| && last < l[x].start
  }

  lemma BaseFlat(m: Mem, l: seq<Area>, first: nat, last: nat)
    ensures Base(l, first, last) <==> FlatBase(FlatAll(m, l), first, last)
    ensures Roof(l, last) <==> FlatRoof(FlatAll(m, l), last)
  {
    hide FlatAll, CopiesOf, Bottom;
    var fl := FlatAll(m, l);
    forall x | 0 <= x < |l| ensures fl[x] == Flat(m, l[x]) { FlatAllAt(m, l, x); }
    assert forall x :: 0 <= x < |l| ==> (IsData(l[x], first) <==> FlatData(fl[x], first));
    assert forall x :: 0 <= x < |l| ==> (IsHeap(l[x], first, last) <==> FlatHeap(fl[x], first, last));
    assert forall x :: 0 <= x < |l| ==> l[x].start == fl[x].start;
  }

  lemma {:induction false} PieceStays(l: seq<FlatArea>, lo: nat, hi: nat, a: FlatArea, b: FlatArea)
    requires lo <= hi && a in l && b in FlatCut(a, lo, hi)
    ensures b in FlatCutAll(l, lo, hi)
  {
    hide FlatCut;
    if l[0] != a { PieceStays(l[1..], lo, hi, a, b); }
  }

  /** Does a range of pages stay off the pages from `first` to `last`? */
  predicate Off(lo: nat, hi: nat, first: nat, last: nat) {
    hi <= first || last < lo
  }

  /** Some area above `last` does not lie in the range altogether. */
  predicate Roofed(l: seq<Area>, last: nat, lo: nat, hi: nat) {
    exists x :: 0 <= x < |l| && last < l[x].start < l[x].end && (l[x].start < lo || hi < l[x].end)
  }

  predicate FlatRoofed(l: seq<FlatArea>, last: nat, lo: nat, hi: nat) {
    exists x :: 0 <= x < |l| && last < l[x].start < l[x].end && (l[x].start < lo || hi < l[x].end)
  }

  lemma RoofedFlat(m: Mem, l: seq<Area>, last: nat, lo: nat, hi: nat)
    requires Roofed(l, last, lo, hi)
    ensures FlatRoofed(FlatAll(m, l), last, lo, hi)
  {
    hide FlatAll, CopiesOf, Bottom;
    var x :| 0 <= x < |l| && last < l[x].start < l[x].end && (l[x].start < lo || hi < l[x].end);
    FlatAllAt(m, l, x);
    assert FlatAll(m, l)[x].start == l[x].start;
  }

  /** Cutting outside keeps data and heap ... */
  lemma CutKeepsBase(l: seq<FlatArea>, lo: nat, hi: nat, first: nat, last: nat)
    requires lo <= hi && FlatBase(l, first, last) && Off(lo, hi, first, last)
    ensures FlatBase(FlatCutAll(l, lo, hi), first, last)
  {
    hide FlatCutAll;
    var x :| 0 <= x < |l| && FlatData(l[x], first);
    var c := FlatCut(l[x], lo, hi);
    assert FlatData(c[|c| - 1], first);
    PieceStays(l, lo, hi, l[x], c[|c| - 1]);
    if first < last {
      var z :| 0 <= z < |l| && FlatHeap(l[z], first, last);
      assert FlatCut(l[z], lo, hi) == [l[z]];
      PieceStays(l, lo, hi, l[z], l[z]);
    }
  }

  /** ... and what lies above, if not all of it goes. */
  lemma CutKeepsRoof(l: seq<FlatArea>, lo: nat, hi: nat, last: nat)
    requires lo <= hi && FlatRoofed(l, last, lo, hi)
    ensures FlatRoof(FlatCutAll(l, lo, hi), last)
  {
    hide FlatCutAll;
    var x :| 0 <= x < |l| && last < l[x].start < l[x].end && (l[x].start < lo || hi < l[x].end);
    var c := FlatCut(l[x], lo, hi);
    PieceStays(l, lo, hi, l[x], c[0]);
  }

  // ---------------------------------------------------------------------
  // The operations of every process
  // ---------------------------------------------------------------------

  lemma CutList(s: Sys, u: Layout, i: nat, lo: nat, hi: nat, first: nat, last: nat)
    requires SysInv(s, u) && i < |s.spaces| && lo <= hi && HeapIn(s.spaces[i], first, last) && Off(lo, hi, first, last)
    ensures var l := CutAll(s.mem, s.spaces[i], lo, hi).areas;
            Base(l, first, last) && (Roofed(s.spaces[i], last, lo, hi) ==> HeapIn(l, first, last))
  {
    hide SysInv, CutAll, HeapIn, Base, Roof, FlatBase, FlatRoof, FlatAll, FlatCutAll, Still, Roofed, FlatRoofed;
    var l := s.spaces[i];
    var c := CutAll(s.mem, l, lo, hi);
    SpaceBacked(s, u, i);
    CutAllFlat(s.mem, Others(s, i), l, lo, hi);
    HeapParts(l, first, last);
    HeapParts(c.areas, first, last);
    BaseFlat(s.mem, l, first, last);
    BaseFlat(c.mem, c.areas, first, last);
    CutKeepsBase(FlatAll(s.mem, l), lo, hi, first, last);
    if Roofed(l, last, lo, hi) {
      RoofedFlat(s.mem, l, last, lo, hi);
      CutKeepsRoof(FlatAll(s.mem, l), lo, hi, last);
    }
  }

  lemma {:induction false} InsertHolds(l: seq<Area>, a: Area, b: Area)
    requires b in l || b == a
    ensures b in Insert(l, a)
  {
    if l != [] && !(l[0].start > a.start && l[0].end > a.end) && b != l[0] { InsertHolds(l[1..], a, b); }
  }

  lemma InsertKeeps(l: seq<Area>, a: Area, first: nat, last: nat)
    requires Base(l, first, last) && (HeapIn(l, first, last) || last < a.start)
    ensures HeapIn(Insert(l, a), first, last)
  {
    hide Insert;
    var x :| 0 <= x < |l| && IsData(l[x], first);
    InsertHolds(l, a, l[x]);
    if first < last {
      var z :| 0 <= z < |l| && IsHeap(l[z], first, last);
      InsertHolds(l, a, l[z]);
    }
    if last < a.start {
      InsertHolds(l, a, a);
    } else {
      var y :| 0 <= y < |l| && last < l[y].start;
      InsertHolds(l, a, l[y]);
    }
  }

  lemma BelowIsRoofed(l: seq<Area>, u: Layout, lo: nat, hi: nat, first: nat, last: nat)
    requires Ordered(l, u) && HeapIn(l, first, last) && hi <= first
    ensures Roofed(l, last, lo, hi)
  {
    var y :| 0 <= y < |l| && last < l[y].start;
    assert InUser(l[y], u);
  }

  lemma MapKeeps(s: Sys, u: Layout, i: nat, start: nat, n: nat, prot: set<Perm>, priv: bool, file: Option<nat>,
                 off: nat,
                 first: nat, last: nat)
    requires SysInv(s, u) && i < |s.spaces| && HeapIn(s.spaces[i], first, last) && Off(start, start + n, first, last)
    ensures HeapIn(MapStep(s, i, start, n, prot, priv, file, off).spaces[i], first, last)
  {
    hide SysInv, CutAll, HeapIn, Base, Insert, BackWith, Roofed, Ordered;
    var l := s.spaces[i];
    CutList(s, u, i, start, start + n, first, last);
    ListOrdered(s, u, i);
    if start + n <= first { BelowIsRoofed(l, u, start, start + n, first, last); }
    var c := CutAll(s.mem, l, start, start + n);
    if file.None? || file.value in c.mem.objs {
      InsertKeeps(c.areas, Area(start, start + n, off, prot, priv, BackWith(c.mem, file, priv).1), first, last);
    }
  }

  lemma ForkKeeps(s: Sys, u: Layout, i: nat, first: nat, last: nat)
    requires SysInv(s, u) && i < |s.spaces| && HeapIn(s.spaces[i], first, last)
    ensures HeapIn(ForkStep(s, i).spaces[i], first, last) && HeapIn(ForkStep(s, i).spaces[|s.spaces|], first, last)
  {
    hide SysInv, HeapIn, Base, Roof, FlatBase, FlatRoof, FlatAll, ChildAll, ParentAll, Still, WellFormed;
    var l := s.spaces[i];
    var child := ChildAll(s.mem, l);
    var parent := ParentAll(child.mem, l);
    SpaceBacked(s, u, i);
    BackedLive(s.mem, Others(s, i), l);
    SysInvMem(s, u);
    ForkFlat(s.mem, l);
    HeapParts(l, first, last);
    HeapParts(child.areas, first, last);
    HeapParts(parent.areas, first, last);
    BaseFlat(s.mem, l, first, last);
    BaseFlat(parent.mem, child.areas, first, last);
    BaseFlat(parent.mem, parent.areas, first, last);
  }

  /** Does an operation leave the heap of process `i` alone? It maps or unmaps nothing
      from page `first` to page `last`, and not all there is above; only the process's
      own end takes its space away, and only the break moves an area's end. */
  predicate LeavesHeap(s: Sys, op: Op, i: nat, first: nat, last: nat) {
    match op
    case MapOp(j, start, n, _, _, _, _) => j == i ==> Off(start, start + n, first, last)
    case UnmapOp(j, lo, n) => j == i && i < |s.spaces| ==>
      Off(lo, lo + n, first, last) && Roofed(s.spaces[i], last, lo, lo + n)
    case DestroyOp(j) => j != i
    case ExtendOp(j, _, _) => j != i
    case _ => true
  }

  lemma StepKeepsHeap(s: Sys, u: Layout, op: Op, i: nat, first: nat, last: nat)
    requires u.low < u.high && SysInv(s, u) && i < |s.spaces| && HeapIn(s.spaces[i], first, last)
    requires Enabled(s, u, op) && LeavesHeap(s, op, i, first, last)
    ensures i < |Step(s, u, op).spaces| && HeapIn(Step(s, u, op).spaces[i], first, last)
  {
    hide SysInv, HeapIn, CutAll, ChildAll, ParentAll, Insert, BackWith, Release, WritePage, Unlinked, Base, Roofed;
    match op
    case MapOp(j, start, n, prot, priv, file, off) =>
      if j == i { MapKeeps(s, u, i, start, n, prot, priv, file, off, first, last); }
    case UnmapOp(j, lo, n) => if j == i { CutList(s, u, i, lo, lo + n, first, last); }
    case ForkOp(j) => if j == i { ForkKeeps(s, u, i, first, last); }
    case _ =>
  }

  // ---------------------------------------------------------------------
  // All runs
  // ---------------------------------------------------------------------

  /** `brk` by process `i`, or an operation of any process that leaves its heap alone. */
  datatype Call = BrkCall(addr: nat) | Other(op: Op)

  datatype HeapSys = HeapSys(sys: Sys, brk: nat)

  ghost predicate HeapOk(h: HeapSys, u: Layout, i: nat, start: nat) {
    && 0 < start <= h.brk && SysInv(h.sys, u) && i < |h.sys.spaces|
    && HeapIn(h.sys.spaces[i], LastPage(start), LastPage(h.brk))
  }

  function CallStep(h: HeapSys, u: Layout, i: nat, start: nat, c: Call): HeapSys
    requires u.low < u.high && 0 < start <= h.brk && i < |h.sys.spaces|
  {
    match c
    case BrkCall(addr) =>
      if addr == 0 || addr < start || Ceiling(h.sys.spaces[i], LastPage(h.brk)) * PAGE_SIZE < addr then h
      else HeapSys(BrkStep(h.sys, i, LastPage(start), LastPage(h.brk), LastPage(addr)), addr)
    case Other(op) =>
      if Enabled(h.sys, u, op) && LeavesHeap(h.sys, op, i, LastPage(start), LastPage(h.brk))
      then HeapSys(Step(h.sys, u, op), h.brk) else h
  }

  lemma CallKeeps(h: HeapSys, u: Layout, i: nat, start: nat, c: Call)
    requires u.low < u.high && HeapOk(h, u, i, start)
    ensures HeapOk(CallStep(h, u, i, start, c), u, i, start)
  {
    hide SysInv, HeapIn, Step, Enabled, LeavesHeap, BrkStep, Rest, BrkShows;
    var first, last := LastPage(start), LastPage(h.brk);
    match c
    case BrkCall(addr) =>
      if start <= addr <= Ceiling(h.sys.spaces[i], last) * PAGE_SIZE {
        BrkMeaning(h.sys, u, i, first, last, LastPage(addr));
      }
    case Other(op) =>
      if Enabled(h.sys, u, op) && LeavesHeap(h.sys, op, i, first, last) {
        StepInv(h.sys, u, op);
        StepKeepsHeap(h.sys, u, op, i, first, last);
      }
  }

  ghost function CallRun(h: HeapSys, u: Layout, i: nat, start: nat, cs: seq<Call>): HeapSys
    requires u.low < u.high && HeapOk(h, u, i, start)
    decreases |cs|
  {
    if cs == [] then h
    else
      CallKeeps(h, u, i, start, cs[0]);
      CallRun(CallStep(h, u, i, start, cs[0]), u, i, start, cs[1..])
  }

  /** Whatever else all processes map, unmap, fork and store meanwhile: the break stays
      between its start and the next area, and one area holds every heap page. */
  lemma {:induction false} BrkWithMmap(h: HeapSys, u: Layout, i: nat, start: nat, cs: seq<Call>)
    requires u.low < u.high && HeapOk(h, u, i, start)
    ensures var t := CallRun(h, u, i, start, cs);
            && HeapOk(t, u, i, start)
            && start <= t.brk <= Ceiling(t.sys.spaces[i], LastPage(t.brk)) * PAGE_SIZE
            && OneHeap(t.sys.spaces[i], LastPage(start), LastPage(t.brk))
    decreases |cs|
  {
    hide SysInv, HeapIn, CallStep, OneHeap;
    if cs == [] {
      Lookups(h.sys, u, i, LastPage(start), LastPage(h.brk));
      HeapHere(h.sys, u, i, LastPage(start), LastPage(h.brk));
      HeapIsOne(h.sys.spaces[i], u, LastPage(start), LastPage(h.brk));
    } else {
      CallKeeps(h, u, i, start, cs[0]);
      BrkWithMmap(CallStep(h, u, i, start, cs[0]), u, i, start, cs[1..]);
    }
  }

  /** The pages after `first` up to `last` are those of one private, writable area. */
  predicate OneHeap(l: seq<Area>, first: nat, last: nat) {
    forall v, a :: first < v <= last && a in l && Covers(a, v) ==> IsHeap(a, first, last)
  }

  lemma HeapIsOne(l: seq<Area>, u: Layout, first: nat, last: nat)
    requires Ordered(l, u) && HeapIn(l, first, last)
    ensures OneHeap(l, first, last)
  {
    forall v, a | first < v <= last && a in l && Covers(a, v) ensures IsHeap(a, first, last) {
      hide Ordered;
      var x: nat :| x < |l| && l[x] == a;
      var z: nat :| z < |l| && IsHeap(l[z], first, last);
      if x != z { InOrder(l, u, x, z); }
    }
  }
}
