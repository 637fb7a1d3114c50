/** What becomes of a store: who sees it, how it is lost again, and when it lands on
    a page that was never read. */
module VmCases {
  import opened Basics
  import opened Memory
  import opened PageIn
  import opened AddressSpace
  import opened Unmap
  import opened Fork
  import opened VmSystem
  import opened VmSteps
  import opened VmRuns
  import opened Flatten
  import opened VmRefine

  // ---------------------------------------------------------------------
  // Who sees a shared page
  // ---------------------------------------------------------------------

  /** Does page `w` of space `j` show page `p` of object `o` itself, not a copy of it? */
  predicate Sees(s: Sys, j: nat, w: nat, o: nat, p: nat) {
    j < |s.spaces| && match Find(s.spaces[j], w)
    case None => false
    case Some(b) => Covers(b, w) && PageOf(b, w) == p && Bottom(s.mem, b.obj) == o && p !in CopiesOf(s.mem, b.obj)
  }

  predicate FlatSees(f: FlatSys, j: nat, w: nat, o: nat, p: nat) {
    j < |f.spaces| && match FlatFind(f.spaces[j], w)
    case None => false
    case Some(k) => var b := f.spaces[j][k]; FlatPage(b, w) == p && b.base == o && p !in b.copies
  }

  lemma SeesFlat(s: Sys, u: Layout, f: FlatSys, j: nat, w: nat, o: nat, p: nat)
    requires Refines(s, u, f)
    ensures Sees(s, j, w, o, p) <==> FlatSees(f, j, w, o, p)
  {
    hide Refines, FlatAll, FlatFind, Find, CopiesOf, Bottom;
    SpaceFlat(s, u, f);
    if j < |s.spaces| {
      var l := s.spaces[j];
      FindFlat(s.mem, l, w);
      FindMember(l, w);
      var r := FlatFind(FlatAll(s.mem, l), w);
      if r.Some? { FlatAllAt(s.mem, l, r.value); }
    }
  }

  /** A cell with other content. */
  function Showing(c: Option<Cell>, x: Option<Page>): Option<Cell> {
    if c.Some? then Some(c.value.(content := x)) else None
  }

  lemma StoredShows(f: FlatSys, o: nat, p: nat, x: Option<Page>, j: nat, w: nat)
    ensures FlatAt(f.(store := Stored1(f.store, o, p, x)), j, w) ==
            if FlatSees(f, j, w, o, p) then Showing(FlatAt(f, j, w), x) else FlatAt(f, j, w)
  {
    hide FlatFind;
  }

  lemma RunsRefine(u: Layout, ops: seq<Op>)
    requires u.low < u.high
    ensures Refines(Run(Boot, u, ops), u, FlatRun(FlatBoot(), Boot, u, ops))
  {
    BootHolds(u);
    RunRefines(Boot, u, FlatBoot(), ops);
  }

  /** The flat form of a store through a shared area. */
  lemma SharedStoreFlat(s: Sys, u: Layout, f: FlatSys, i: nat, v: nat, junk: Page, data: Page, a: Area)
    requires u.low < u.high && Hit(s, i, v, true) == Some(a) && !a.priv && Covers(a, v)
    requires Refines(s, u, f)
    ensures var o, p := a.obj, PageOf(a, v);
            Refines(Next(s, u, WriteFault(i, v, junk, data)), u, FlatStored(f, o, p, View(s.mem, o, p).Some?, data))
    ensures Sees(s, i, v, a.obj, PageOf(a, v)) && a.obj in s.mem.objs && !s.mem.objs[a.obj].kind.Shadow?
  {
    var op := WriteFault(i, v, junk, data);
    hide Refines, SysInv, WritePage, Hit, FlatFind, Find, Step, FlatStored, View;
    assert Enabled(s, u, op);
    RefinesParts(s, u, f);
    WriteHits(s, u, f, op);
    StepInv(s, u, op);
    WriteStepIs(s, u, op, a);
    SharedRefines(s, u, f, a.obj, PageOf(a, v), junk, data);
  }

  /** A store through a shared area changes exactly the pages, of whatever process, that
      show the same page of the same object and have no copy of their own. */
  lemma SharedWriteMeaning(u: Layout, ops: seq<Op>, i: nat, v: nat, junk: Page, data: Page, a: Area, j: nat, w: nat)
    requires u.low < u.high
    requires Hit(Run(Boot, u, ops), i, v, true) == Some(a) && !a.priv && Covers(a, v)
    ensures var s := Run(Boot, u, ops);
            SysAt(Next(s, u, WriteFault(i, v, junk, data)), j, w) ==
            if Sees(s, j, w, a.obj, PageOf(a, v)) && View(s.mem, a.obj, PageOf(a, v)).Some?
            then Showing(SysAt(s, j, w), Some(data)) else SysAt(s, j, w)
  {
    hide Refines, Run, FlatRun, Hit, View, SysAt, FlatAt, Next, Sees, FlatSees, Showing, Stored1;
    var s, f := Run(Boot, u, ops), FlatRun(FlatBoot(), Boot, u, ops);
    var o, p := a.obj, PageOf(a, v);
    RunsRefine(u, ops);
    SharedStoreFlat(s, u, f, i, v, junk, data, a);
    var f' := FlatStored(f, o, p, View(s.mem, o, p).Some?, data);
    RefinesShows(Next(s, u, WriteFault(i, v, junk, data)), u, f', j, w);
    RefinesShows(s, u, f, j, w);
    SeesFlat(s, u, f, j, w, o, p);
    StoredShows(f, o, p, Some(data), j, w);
  }

  // ---------------------------------------------------------------------
  // Across fork
  // ---------------------------------------------------------------------

  lemma FlatForkSees(f: FlatSys, i: nat, w: nat, o: nat, p: nat)
    requires i < |f.spaces|
    ensures var f' := f.(spaces := f.spaces + [f.spaces[i]]);
            && (FlatSees(f', i, w, o, p) <==> FlatSees(f, i, w, o, p))
            && (FlatSees(f', |f.spaces|, w, o, p) <==> FlatSees(f, i, w, o, p))
  {
    hide FlatFind;
  }

  /** After a fork, a page the parent shows without a copy of its own is one page for
      both: what one of them stores through a shared area, the other one sees. */
  lemma ForkShares(u: Layout, ops: seq<Op>, i: nat, v: nat, junk: Page, data: Page, a: Area, child: bool)
    requires u.low < u.high && i < |Run(Boot, u, ops).spaces|
    requires var s := ForkStep(Run(Boot, u, ops), i);
             Hit(s, if child then |s.spaces| - 1 else i, v, true) == Some(a) && !a.priv && Covers(a, v)
    ensures var s := ForkStep(Run(Boot, u, ops), i);
            var s' := Next(s, u, WriteFault(if child then |s.spaces| - 1 else i, v, junk, data));
            && SysAt(s', i, v) == SysAt(s', |s.spaces| - 1, v)
            && SysAt(s', i, v).Some?
            && SysAt(s', i, v).value.content == if View(s.mem, a.obj, PageOf(a, v)).Some? then Some(data) else None
  {
    hide Refines, SysInv, Run, FlatRun, Hit, View, SysAt, FlatAt, Next, Sees, FlatSees, Stored1, ForkStep, ChildAll,
         ParentAll;
    var s0, f0 := Run(Boot, u, ops), FlatRun(FlatBoot(), Boot, u, ops);
    RunsRefine(u, ops);
    SpaceFlat(s0, u, f0);
    ForkRefines(s0, u, f0, i);
    var s, f := ForkStep(s0, i), f0.(spaces := f0.spaces + [f0.spaces[i]]);
    SpaceFlat(s, u, f);
    var me := if child then |s.spaces| - 1 else i;
    var o, p := a.obj, PageOf(a, v);
    SharedStoreFlat(s, u, f, me, v, junk, data, a);
    var there := View(s.mem, o, p).Some?;
    var f' := FlatStored(f, o, p, there, data);
    RefinesShows(Next(s, u, WriteFault(me, v, junk, data)), u, f', i, v);
    RefinesShows(Next(s, u, WriteFault(me, v, junk, data)), u, f', |s.spaces| - 1, v);
    SeesFlat(s, u, f, me, v, o, p);
    FlatForkSees(f0, i, v, o, p);
    FlatForkAt(f, i, |s.spaces| - 1, v);
    StoreIs(s, u, f, o, p);
    SeenIs(f, i, v, o, p);
    StoredShows(f, o, p, Some(data), i, v);
    StoredShows(f, o, p, Some(data), |s.spaces| - 1, v);
  }

  lemma FlatForkAt(f: FlatSys, i: nat, c: nat, v: nat)
    requires i < |f.spaces| && c < |f.spaces| && f.spaces[i] == f.spaces[c]
    ensures FlatAt(f, i, v) == FlatAt(f, c, v)
  {
    hide FlatFind;
  }

  lemma SeenIs(f: FlatSys, j: nat, w: nat, o: nat, p: nat)
    requires FlatSees(f, j, w, o, p)
    ensures FlatAt(f, j, w).Some? && FlatAt(f, j, w).value.content == f.store(o, p)
  {
    hide FlatFind;
  }

  lemma StoreIs(s: Sys, u: Layout, f: FlatSys, o: nat, p: nat)
    requires Refines(s, u, f) && o in s.mem.objs && !s.mem.objs[o].kind.Shadow?
    ensures View(s.mem, o, p) == f.store(o, p)
    ensures o in f.disks <==> IsFile(s.mem, o)
    ensures IsFile(s.mem, o) ==> f.disks[o] == s.mem.objs[o].kind.disk
  {
    hide SysInv, View;
    assert StoreAt(s.mem, f, o);
  }

  // ---------------------------------------------------------------------
  // A shared store to a file is lost with the page
  // ---------------------------------------------------------------------

  lemma EvictFlat1(s: Sys, u: Layout, f: FlatSys, o: nat, p: nat)
    requires u.low < u.high && Enabled(s, u, EvictOp(o, p)) && IsFile(s.mem, o)
    requires Refines(s, u, f)
    ensures p < |s.mem.objs[o].kind.disk|
    ensures Refines(Next(s, u, EvictOp(o, p)), u, f.(store := Stored1(f.store, o, p, Some(s.mem.objs[o].kind.disk[p]))))
  {
    hide Refines, SysInv, EvictStep, View;
    RefinesParts(s, u, f);
    SysInvMem(s, u);
    assert ObjOk(s.mem, o);
    StoreIs(s, u, f, o, p);
    StepInv(s, u, EvictOp(o, p));
    EvictFileRefines(s, u, f, o, p);
  }

  lemma EvictShowsFlat(s: Sys, u: Layout, f: FlatSys, o: nat, p: nat, j: nat, w: nat)
    requires u.low < u.high && Enabled(s, u, EvictOp(o, p)) && IsFile(s.mem, o)
    requires Refines(s, u, f)
    ensures p < |s.mem.objs[o].kind.disk|
    ensures SysAt(Next(s, u, EvictOp(o, p)), j, w) ==
            if Sees(s, j, w, o, p) then Showing(SysAt(s, j, w), Some(s.mem.objs[o].kind.disk[p])) else SysAt(s, j, w)
  {
    hide Refines, SysAt, FlatAt, Next, Sees, FlatSees, Showing, Stored1;
    EvictFlat1(s, u, f, o, p);
    var x := Some(s.mem.objs[o].kind.disk[p]);
    RefinesShows(s, u, f, j, w);
    RefinesShows(Next(s, u, EvictOp(o, p)), u, f.(store := Stored1(f.store, o, p, x)), j, w);
    SeesFlat(s, u, f, j, w, o, p);
    StoredShows(f, o, p, x, j, w);
  }

  /** When the page daemon frees a file page, every process that sees the page itself
      is back at what is on disk, and nobody else notices. */
  lemma EvictShows(u: Layout, ops: seq<Op>, o: nat, p: nat, j: nat, w: nat)
    requires u.low < u.high && Enabled(Run(Boot, u, ops), u, EvictOp(o, p)) && IsFile(Run(Boot, u, ops).mem, o)
    ensures var s := Run(Boot, u, ops);
            && p < |s.mem.objs[o].kind.disk|
            && SysAt(Next(s, u, EvictOp(o, p)), j, w) ==
               if Sees(s, j, w, o, p) then Showing(SysAt(s, j, w), Some(s.mem.objs[o].kind.disk[p])) else SysAt(s, j, w)
  {
    hide Refines, Run, FlatRun, SysAt, Next, Sees, Showing;
    RunsRefine(u, ops);
    EvictShowsFlat(Run(Boot, u, ops), u, FlatRun(FlatBoot(), Boot, u, ops), o, p, j, w);
  }

  /** Whoever sees a file page after a store to it sees what was stored. */
  lemma SeenAfter(s: Sys, s1: Sys, u: Layout, f: FlatSys, i: nat, v: nat, junk: Page, data: Page, a: Area, j: nat,
                  w: nat)
    requires u.low < u.high && Hit(s, i, v, true) == Some(a) && !a.priv && Covers(a, v)
    requires s1 == Next(s, u, WriteFault(i, v, junk, data))
    requires IsFile(s1.mem, a.obj) && PageOf(a, v) in s1.mem.objs[a.obj].frames
    requires Refines(s, u, f)
    ensures Sees(s1, j, w, a.obj, PageOf(a, v)) ==> SysAt(s1, j, w).Some? && SysAt(s1, j, w).value.content == Some(data)
    ensures View(s.mem, a.obj, PageOf(a, v)).Some?
  {
    var o, p := a.obj, PageOf(a, v);
    hide Refines, SysInv, SysAt, FlatAt, Next, Sees, FlatSees, Hit, Find, IsFile;
    SharedStoreFlat(s, u, f, i, v, junk, data, a);
    var f1 := FlatStored(f, o, p, View(s.mem, o, p).Some?, data);
    FileStays(s, s1, u, f, f1, o, p);
    RefinesShows(s1, u, f1, j, w);
    SeesFlat(s1, u, f1, j, w, o, p);
    if FlatSees(f1, j, w, o, p) { SeenIs(f1, j, w, o, p); }
  }

  lemma FileStays(s: Sys, s1: Sys, u: Layout, f: FlatSys, f1: FlatSys, o: nat, p: nat)
    requires o in s.mem.objs && !s.mem.objs[o].kind.Shadow? && IsFile(s1.mem, o) && p in s1.mem.objs[o].frames
    requires f1.disks == f.disks && Refines(s, u, f) && Refines(s1, u, f1)
    ensures View(s.mem, o, p).Some?
  {
    hide Refines, SysInv;
    StoreIs(s, u, f, o, p);
    StoreIs(s1, u, f1, o, p);
    RefinesParts(s1, u, f1);
    SysInvMem(s1, u);
    assert ObjOk(s1.mem, o);
  }

  lemma HitShows(s: Sys, i: nat, v: nat, a: Area)
    requires Hit(s, i, v, true) == Some(a) && Covers(a, v)
    ensures SysAt(s, i, v) == Some(Cell(a.prot, a.priv, View(s.mem, a.obj, PageOf(a, v))))
  {
    HitCovers(s, i, v, true);
  }

  ghost predicate Invisible(s: Sys, s': Sys) {
    forall j: nat, w: nat :: SysAt(s', j, w) == SysAt(s, j, w)
  }

  /** What a freed page comes to, given who saw what before. */
  lemma LostIff(s: Sys, s': Sys, i: nat, v: nat, o: nat, p: nat, prot: set<Perm>, data: Page, disk: Page)
    requires Sees(s, i, v, o, p) && SysAt(s, i, v) == Some(Cell(prot, false, Some(data)))
    requires forall j: nat, w: nat ::
               SysAt(s', j, w) == if Sees(s, j, w, o, p) then Showing(SysAt(s, j, w), Some(disk)) else SysAt(s, j, w)
    requires forall j: nat, w: nat :: Sees(s, j, w, o, p) ==>
             SysAt(s, j, w).Some? && SysAt(s, j, w).value.content == Some(data)
    ensures Invisible(s, s') <==> data == disk
    ensures SysAt(s', i, v) == Some(Cell(prot, false, Some(disk)))
  {
    hide SysAt, Sees;
    assert SysAt(s', i, v) == Showing(SysAt(s, i, v), Some(disk));
  }

  lemma ResidentOne(s: Sys, u: Layout, o: nat, p: nat)
    requires Enabled(s, u, EvictOp(o, p))
    ensures o in s.mem.objs && p in s.mem.objs[o].frames
  {
  }

  lemma StoreThenEvict(s: Sys, s1: Sys, s2: Sys, u: Layout, f: FlatSys,
                       i: nat, v: nat, junk: Page, data: Page, a: Area, j: nat, w: nat)
    requires u.low < u.high && Hit(s, i, v, true) == Some(a) && !a.priv && Covers(a, v)
    requires s1 == Next(s, u, WriteFault(i, v, junk, data)) && s2 == Next(s1, u, EvictOp(a.obj, PageOf(a, v)))
    requires Enabled(s1, u, EvictOp(a.obj, PageOf(a, v))) && IsFile(s1.mem, a.obj)
    requires Refines(s, u, f)
    ensures PageOf(a, v) < |s1.mem.objs[a.obj].kind.disk|
    ensures var o, p := a.obj, PageOf(a, v);
            SysAt(s2, j, w) ==
            if Sees(s1, j, w, o, p) then Showing(SysAt(s1, j, w), Some(s1.mem.objs[o].kind.disk[p]))
            else SysAt(s1, j, w)
    ensures Sees(s1, j, w, a.obj, PageOf(a, v)) ==> SysAt(s1, j, w).Some? && SysAt(s1, j, w).value.content == Some(data)
    ensures View(s.mem, a.obj, PageOf(a, v)).Some?
  {
    hide Enabled, Hit, View, SysAt, Next, Sees, Refines, FlatStored, Showing;
    var o, p := a.obj, PageOf(a, v);
    ResidentOne(s1, u, o, p);
    SharedStoreFlat(s, u, f, i, v, junk, data, a);
    EvictShowsFlat(s1, u, FlatStored(f, o, p, View(s.mem, o, p).Some?, data), o, p, j, w);
    SeenAfter(s, s1, u, f, i, v, junk, data, a, j, w);
  }

  /** A page of an anonymous object stays pinned, so of the pages behind a shared area only
      those of files are ever freed. */
  lemma OnlyFilesGo(s: Sys, s1: Sys, u: Layout, f: FlatSys, i: nat, v: nat, junk: Page, data: Page, a: Area)
    requires u.low < u.high && Hit(s, i, v, true) == Some(a) && !a.priv && Covers(a, v)
    requires s1 == Next(s, u, WriteFault(i, v, junk, data)) && Enabled(s1, u, EvictOp(a.obj, PageOf(a, v)))
    requires Refines(s, u, f)
    ensures IsFile(s1.mem, a.obj)
  {
    var op, o, p := WriteFault(i, v, junk, data), a.obj, PageOf(a, v);
    hide Refines, SysInv, WritePage, Hit, Step, View, FlatStored;
    assert Enabled(s, u, op);
    SharedStoreFlat(s, u, f, i, v, junk, data, a);
    WriteStepIs(s, u, op, a);
    HitCovers(s, i, v, true);
    UnpinnedIsFile(s1, u, FlatStored(f, o, p, View(s.mem, o, p).Some?, data), i, a, p);
  }

  lemma UnpinnedIsFile(s: Sys, u: Layout, f: FlatSys, i: nat, a: Area, p: nat)
    requires Refines(s, u, f) && i < |s.spaces| && a in s.spaces[i] && !a.priv
    requires Enabled(s, u, EvictOp(a.obj, p))
    ensures IsFile(s.mem, a.obj)
  {
    hide SysInv, Refines, StoreOk;
    RefinesParts(s, u, f);
    assert s.mem.objs[a.obj].kind.Anon? ==> AllPinned(s.mem.objs[a.obj]);
  }

  /** A store does not mark the page dirty, so the page passes for clean and may be freed
      without being written. In every run the processes still see the store afterwards
      exactly if it stored what was on disk anyway; otherwise the page goes back. */
  lemma SharedStoreLostIff(u: Layout, ops: seq<Op>, i: nat, v: nat, junk: Page, data: Page, a: Area)
    requires u.low < u.high
    requires Hit(Run(Boot, u, ops), i, v, true) == Some(a) && !a.priv && Covers(a, v)
    requires var s1 := Next(Run(Boot, u, ops), u, WriteFault(i, v, junk, data));
             Enabled(s1, u, EvictOp(a.obj, PageOf(a, v)))
    ensures var s1 := Next(Run(Boot, u, ops), u, WriteFault(i, v, junk, data));
            var s2 := Next(s1, u, EvictOp(a.obj, PageOf(a, v)));
            && IsFile(s1.mem, a.obj) && PageOf(a, v) < |s1.mem.objs[a.obj].kind.disk|
            && SysAt(s1, i, v) == Some(Cell(a.prot, false, Some(data)))
            && SysAt(s2, i, v) == Some(Cell(a.prot, false, Some(s1.mem.objs[a.obj].kind.disk[PageOf(a, v)])))
            && (Invisible(s1, s2) <==> data == s1.mem.objs[a.obj].kind.disk[PageOf(a, v)])
  {
    hide Run, FlatRun, Hit, View, SysAt, Next, Sees, Refines, Invisible, Enabled;
    var s, f := Run(Boot, u, ops), FlatRun(FlatBoot(), Boot, u, ops);
    var s1 := Next(s, u, WriteFault(i, v, junk, data));
    var o, p := a.obj, PageOf(a, v);
    var s2 := Next(s1, u, EvictOp(o, p));
    RunsRefine(u, ops);
    SharedWriteMeaning(u, ops, i, v, junk, data, a, i, v);
    HitShows(s, i, v, a);
    SharedStoreFlat(s, u, f, i, v, junk, data, a);
    SameSees(s, u, f, i, v, junk, data, a);
    OnlyFilesGo(s, s1, u, f, i, v, junk, data, a);
    StoreThenEvict(s, s1, s2, u, f, i, v, junk, data, a, i, v);
    var d := s1.mem.objs[o].kind.disk[p];
    forall j: nat, w: nat
      ensures SysAt(s2, j, w) == if Sees(s1, j, w, o, p) then Showing(SysAt(s1, j, w), Some(d)) else SysAt(s1, j, w)
      ensures Sees(s1, j, w, o, p) ==> SysAt(s1, j, w).Some? && SysAt(s1, j, w).value.content == Some(data)
    {
      StoreThenEvict(s, s1, s2, u, f, i, v, junk, data, a, j, w);
    }
    LostIff(s1, s2, i, v, o, p, a.prot, data, d);
  }

  lemma SameSees(s: Sys, u: Layout, f: FlatSys, i: nat, v: nat, junk: Page, data: Page, a: Area)
    requires u.low < u.high && Hit(s, i, v, true) == Some(a) && !a.priv && Covers(a, v)
    requires Refines(s, u, f)
    ensures Sees(Next(s, u, WriteFault(i, v, junk, data)), i, v, a.obj, PageOf(a, v))
  {
    hide Refines, Next, Sees, Hit, Stored1;
    var o, p := a.obj, PageOf(a, v);
    SharedStoreFlat(s, u, f, i, v, junk, data, a);
    SeesFlat(s, u, f, i, v, o, p);
    SeesFlat(Next(s, u, WriteFault(i, v, junk, data)), u, FlatStored(f, o, p, View(s.mem, o, p).Some?, data), i, v, o,
             p);
  }

  // ---------------------------------------------------------------------
  // Two runs from boot
  // ---------------------------------------------------------------------

  lemma {:induction false} RunOneMore(s: Sys, u: Layout, ops: seq<Op>, op: Op)
    requires u.low < u.high
    ensures Run(s, u, ops + [op]) == Next(Run(s, u, ops), u, op)
    decreases |ops|
  {
    hide Next;
    if ops == [] {
      assert ops + [op] == [op] && [op][1..] == [];
    } else {
      assert (ops + [op])[1..] == ops[1..] + [op];
      RunOneMore(Next(s, u, ops[0]), u, ops[1..], op);
    }
  }

  /** A process opens a file and maps its first page at the lowest user page. */
  function OpenAndMap(u: Layout, disk: seq<Page>, priv: bool): seq<Op> {
    [NewSpace] + [OpenOp(disk, true)] + [MapOp(0, u.low, 1, {Read, Write}, priv, Some(0), 0)]
  }

  function OnePage(u: Layout, priv: bool): Area {
    Area(u.low, u.low + 1, 0, {Read, Write}, priv, if priv then 1 else 0)
  }

  function MappedMem(disk: seq<Page>, priv: bool): Mem {
    var file := Obj(File(disk, true), 2, 0, map[]);
    if priv then Mem(map[0 := file, 1 := Obj(Shadow(0, 0), 1, 0, map[])], 2) else Mem(map[0 := file], 1)
  }

  lemma Mapped(u: Layout, disk: seq<Page>, priv: bool)
    requires u.low < u.high
    ensures Run(Boot, u, OpenAndMap(u, disk, priv)) == Sys(MappedMem(disk, priv), [[OnePage(u, priv)]], multiset{0})
  {
    var op1, op2, op3 := NewSpace, OpenOp(disk, true), MapOp(0, u.low, 1, {Read, Write}, priv, Some(0), 0);
    var none: seq<Op> := [];
    RunOneMore(Boot, u, none, op1);
    assert none + [op1] == [op1];
    RunOneMore(Boot, u, [op1], op2);
    RunOneMore(Boot, u, [op1] + [op2], op3);
    var s1 := Sys(Mem(map[], 0), [[]], multiset{});
    assert Next(Boot, u, op1) == s1;
    var s2 := Sys(Mem(map[0 := Obj(File(disk, true), 1, 0, map[])], 1), [[]], multiset{0});
    assert Next(s1, u, op2) == s2;
    MapsIt(s2, u, disk, priv);
  }

  lemma MapsIt(s: Sys, u: Layout, disk: seq<Page>, priv: bool)
    requires u.low < u.high && s == Sys(Mem(map[0 := Obj(File(disk, true), 1, 0, map[])], 1), [[]], multiset{0})
    ensures Next(s, u, MapOp(0, u.low, 1, {Read, Write}, priv, Some(0), 0)) ==
            Sys(MappedMem(disk, priv), [[OnePage(u, priv)]], multiset{0})
  {
    assert CutAll(s.mem, [], u.low, u.low + 1) == Cut(s.mem, []);
    var m1 := AddRef(s.mem, 0);
    assert m1 == MappedMem(disk, false);
    assert BackWith(s.mem, Some(0), priv) == (MappedMem(disk, priv), if priv then 1 else 0);
    assert s.spaces[0 := [OnePage(u, priv)]] == [[OnePage(u, priv)]];
  }

  /** The store `data` to a page that holds `d` on disk: once the page is freed, `d` is back. */
  lemma StoreGone(u: Layout, d: Page, junk: Page, data: Page)
    requires u.low < u.high
    ensures var stored := OpenAndMap(u, [d], false) + [WriteFault(0, u.low, junk, data)];
            && SysAt(Run(Boot, u, stored), 0, u.low) == Some(Cell({Read, Write}, false, Some(data)))
            && SysAt(Run(Boot, u, stored + [EvictOp(0, 0)]), 0, u.low) == Some(Cell({Read, Write}, false, Some(d)))
  {
    hide Run, SysAt;
    var ops, op, a := OpenAndMap(u, [d], false), WriteFault(0, u.low, junk, data), OnePage(u, false);
    Mapped(u, [d], false);
    RunOneMore(Boot, u, ops, op);
    RunOneMore(Boot, u, ops + [op], EvictOp(0, 0));
    var s := Run(Boot, u, ops);
    OnePageHit(s, u, false);
    StoresIt(s, u, d, junk, data);
    SharedStoreLostIff(u, ops, 0, u.low, junk, data, a);
  }

  lemma OnePageHit(s: Sys, u: Layout, priv: bool)
    requires s.spaces == [[OnePage(u, priv)]]
    ensures Hit(s, 0, u.low, true) == Some(OnePage(u, priv)) && Covers(OnePage(u, priv), u.low)
  {
    assert Find([OnePage(u, priv)], u.low) == Some(OnePage(u, priv));
  }

  lemma StoresIt(s: Sys, u: Layout, d: Page, junk: Page, data: Page)
    requires u.low < u.high && s == Sys(MappedMem([d], false), [[OnePage(u, false)]], multiset{0})
    ensures var s1 := Next(s, u, WriteFault(0, u.low, junk, data));
            Enabled(s1, u, EvictOp(0, 0)) && IsFile(s1.mem, 0) && s1.mem.objs[0].kind == File([d], true)
  {
    OnePageHit(s, u, false);
    var m := AddFrame(s.mem, 0, 0, Frame(d, 0));
    assert LookWrite(s.mem, 0, 0, junk) == Found(m, 0);
    assert Next(s, u, WriteFault(0, u.low, junk, data)) == s.(mem := Store(m, 0, 0, data));
  }

  /** A store past the end of a privately mapped file: before it there is nothing at the
      page, and after it there is what the frame happened to hold, not what was stored. */
  lemma StoreIsJunk(u: Layout, junk: Page, data: Page)
    requires u.low < u.high
    ensures var ops := OpenAndMap(u, [], true);
            && SysAt(Run(Boot, u, ops), 0, u.low) == Some(Cell({Read, Write}, true, None))
            && SysAt(Run(Boot, u, ops + [WriteFault(0, u.low, junk, data)]), 0, u.low) ==
               Some(Cell({Read, Write}, true, Some(junk)))
  {
    hide Run;
    var ops, op := OpenAndMap(u, [], true), WriteFault(0, u.low, junk, data);
    Mapped(u, [], true);
    RunOneMore(Boot, u, ops, op);
    var s := Run(Boot, u, ops);
    OnePageHit(s, u, true);
    assert View(s.mem, 1, 0) == None;
    var m := AddFrame(s.mem, 1, 0, Frame(junk, 0));
    assert LookRead(m, 0, 0) == Fault(m);
    assert Next(s, u, op) == s.(mem := m);
  }
}
