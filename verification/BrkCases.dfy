/** A run in which a page comes back into the heap with what was stored there before. */
module BrkCases {
  import opened Basics
  import opened Memory
  import opened AddressSpace
  import opened Unmap
  import opened Fork
  import opened VmSystem
  import opened VmSteps
  import opened VmRuns
  import opened VmCases
  import opened VmImpl
  import opened Brk
  import opened BrkRuns

  /** A process with one page of data and, two pages further up, another page. */
  function Loaded(u: Layout): seq<Op> {
    [NewSpace] + [MapOp(0, u.low, 1, {Read, Write}, true, None, 0)]
    + [MapOp(0, u.low + 3, 1, {Read, Write}, true, None, 0)]
  }

  function StartBrk(u: Layout): nat {
    (u.low + 1) * PAGE_SIZE
  }

  lemma OneMapped(s: Sys, u: Layout)
    requires s.spaces == [[]]
    ensures var t := MapStep(s, 0, u.low, 1, {Read, Write}, true, None, 0);
            |t.spaces| == 1 && |t.spaces[0]| == 1 && t.spaces[0][0].start == u.low && t.spaces[0][0].end == u.low + 1
  {
    hide BackWith;
    assert CutAll(s.mem, [], u.low, u.low + 1) == Cut(s.mem, []);
  }

  lemma TwoMapped(s: Sys, u: Layout)
    requires SysInv(s, u) && |s.spaces| == 1 && |s.spaces[0]| == 1 && s.spaces[0][0].start == u.low
    requires s.spaces[0][0].end == u.low + 1
    ensures var t := MapStep(s, 0, u.low + 3, 1, {Read, Write}, true, None, 0);
            && |t.spaces| == 1 && |t.spaces[0]| == 2 && t.spaces[0][0] == s.spaces[0][0]
            && t.spaces[0][1].start == u.low + 3
  {
    var l := s.spaces[0];
    SpaceBacked(s, u, 0);
    hide SysInv, BackWith, CutAll;
    CutVacant(s.mem, l, u.low + 3, u.low + 4);
    var a := Area(u.low + 3, u.low + 4, 0, {Read, Write}, true, BackWith(s.mem, None, true).1);
    assert l[1..] == [] && Insert(l, a) == [l[0]] + Insert([], a);
  }

  lemma FirstMapped(u: Layout)
    requires u.low < u.high
    ensures var s := Run(Boot, u, [NewSpace] + [MapOp(0, u.low, 1, {Read, Write}, true, None, 0)]);
            && SysInv(s, u) && |s.spaces| == 1 && |s.spaces[0]| == 1
            && s.spaces[0][0].start == u.low && s.spaces[0][0].end == u.low + 1
  {
    var op1, op2 := NewSpace, MapOp(0, u.low, 1, {Read, Write}, true, None, 0);
    var none: seq<Op> := [];
    BootInv(u);
    RunInv(Boot, u, [op1] + [op2]);
    RunOneMore(Boot, u, none, op1);
    assert none + [op1] == [op1];
    RunOneMore(Boot, u, [op1], op2);
    var s1 := Next(Boot, u, op1);
    assert s1 == Sys(Boot.mem, [[]], Boot.ext);
    hide SysInv, MapStep;
    OneMapped(s1, u);
  }

  /** The loader's state: no heap yet, and room for two pages. */
  lemma LoadedOk(u: Layout)
    requires u.low + 4 <= u.high
    ensures var s := Run(Boot, u, Loaded(u));
            && SysInv(s, u) && |s.spaces| == 1 && HeapIn(s.spaces[0], u.low, u.low)
            && Ceiling(s.spaces[0], u.low) == u.low + 3
  {
    hide Run, SysInv, MapStep, HeapIn;
    var ops, op := [NewSpace] + [MapOp(0, u.low, 1, {Read, Write}, true, None, 0)],
                   MapOp(0, u.low + 3, 1, {Read, Write}, true, None, 0);
    BootInv(u);
    RunInv(Boot, u, Loaded(u));
    FirstMapped(u);
    RunOneMore(Boot, u, ops, op);
    var s := Run(Boot, u, ops);
    assert Enabled(s, u, op);
    TwoMapped(s, u);
    NoHeapYet(Run(Boot, u, Loaded(u)).spaces[0], u);
  }

  lemma NoHeapYet(l: seq<Area>, u: Layout)
    requires |l| == 2 && l[0].start == u.low && l[0].end == u.low + 1 && l[1].start == u.low + 3
    ensures HeapIn(l, u.low, u.low) && Ceiling(l, u.low) == u.low + 3
  {
    assert IsData(l[0], u.low) && Covers(l[0], u.low);
  }

  lemma LastPageAt(x: nat)
    requires x > 0
    ensures LastPage(x * PAGE_SIZE) == x - 1
  {
  }

  // ---------------------------------------------------------------------
  // Up, store, down, up
  // ---------------------------------------------------------------------

  lemma StoreInHeap(s: Sys, u: Layout, i: nat, first: nat, last: nat, v: nat, junk: Page, data: Page)
    requires u.low < u.high && SysInv(s, u) && i < |s.spaces| && HeapIn(s.spaces[i], first, last)
    requires first < v <= last && HeapCell(s, i, first, last, v).content.Some?
    ensures var op := WriteFault(i, v, junk, data);
            && Enabled(s, u, op) && SysInv(Step(s, u, op), u) && Step(s, u, op).spaces == s.spaces
            && SysAt(Step(s, u, op), i, v) == Some(Cell({Read, Write}, true, Some(data)))
  {
    hide SysInv, HeapIn, Ordered, Pos, SysAt, WritePage, Find, View;
    HeapHere(s, u, i, first, last);
    var a := s.spaces[i][Pos(s.spaces[i], last)];
    FindAt(s.spaces[i], u, Pos(s.spaces[i], last), v);
    assert Hit(s, i, v, true) == Some(a);
    PrivateWriteMeaning(s, u, i, a, v, junk, data);
  }

  lemma {:induction false} CallRunMore(h: HeapSys, u: Layout, i: nat, start: nat, cs: seq<Call>, c: Call)
    requires u.low < u.high && HeapOk(h, u, i, start)
    ensures HeapOk(CallRun(h, u, i, start, cs), u, i, start)
    ensures CallRun(h, u, i, start, cs + [c]) == CallStep(CallRun(h, u, i, start, cs), u, i, start, c)
    decreases |cs|
  {
    hide SysInv, HeapIn, CallStep;
    if cs == [] {
      assert cs + [c] == [c] && [c][1..] == [];
    } else {
      assert (cs + [c])[1..] == cs[1..] + [c];
      CallKeeps(h, u, i, start, cs[0]);
      CallRunMore(CallStep(h, u, i, start, cs[0]), u, i, start, cs[1..], c);
    }
  }

  /** Two pages are taken, the upper one stored to and given up again. */
  function UpStoreDown(u: Layout, junk: Page, data: Page): seq<Call> {
    [BrkCall((u.low + 3) * PAGE_SIZE)] + [Other(WriteFault(0, u.low + 2, junk, data))]
    + [BrkCall((u.low + 2) * PAGE_SIZE)]
  }

  /** The two pages are there, zeroes; the store goes to the upper one. */
  lemma UpAndStore(s: Sys, u: Layout, junk: Page, data: Page)
    requires u.low + 4 <= u.high && SysInv(s, u) && |s.spaces| == 1 && HeapIn(s.spaces[0], u.low, u.low)
    requires Ceiling(s.spaces[0], u.low) == u.low + 3
    ensures var t := BrkStep(s, 0, u.low, u.low, u.low + 2); var op := WriteFault(0, u.low + 2, junk, data);
            && Enabled(t, u, op) && SysInv(Step(t, u, op), u) && |Step(t, u, op).spaces| == 1
            && HeapIn(Step(t, u, op).spaces[0], u.low, u.low + 2)
            && SysAt(Step(t, u, op), 0, u.low + 2) == Some(Cell({Read, Write}, true, Some(data)))
  {
    hide SysInv, HeapIn, BrkStep, SysAt, Rest, Step, Enabled, Ceiling;
    BrkMeaning(s, u, 0, u.low, u.low, u.low + 2);
    var t := BrkStep(s, 0, u.low, u.low, u.low + 2);
    HeapShows(t, u, 0, u.low, u.low + 2, u.low + 2);
    StoreInHeap(t, u, 0, u.low, u.low + 2, u.low + 2, junk, data);
  }

  /** The page given up is gone, then back as it was. */
  lemma DownAndUp(s: Sys, u: Layout)
    requires SysInv(s, u) && |s.spaces| == 1 && HeapIn(s.spaces[0], u.low, u.low + 2)
    ensures var t := BrkStep(s, 0, u.low, u.low + 2, u.low + 1);
            && |t.spaces| == 1 && SysAt(t, 0, u.low + 2) == None
            && u.low + 2 < Ceiling(s.spaces[0], u.low + 2) && u.low + 2 < Ceiling(t.spaces[0], u.low + 1)
            && BrkStep(t, 0, u.low, u.low + 1, u.low + 2) == s
  {
    hide SysInv, HeapIn, BrkStep, SysAt, Rest, Ceiling;
    SameCeiling(s, u, 0, u.low, u.low + 2, u.low + 1);
    BrkMeaning(s, u, 0, u.low, u.low + 2, u.low + 1);
    BrkBack(s, u, 0, u.low, u.low + 2, u.low + 1);
  }

  /** From boot: the heap grows by two pages, the upper one is stored to, given up and
      taken again. It shows what was stored. */
  lemma StoreComesBack(u: Layout, junk: Page, data: Page)
    requires u.low + 4 <= u.high
    ensures var h, start := HeapSys(Run(Boot, u, Loaded(u)), StartBrk(u)), StartBrk(u);
            && HeapOk(h, u, 0, start)
            && SysAt(CallRun(h, u, 0, start, UpStoreDown(u, junk, data)).sys, 0, u.low + 2) == None
            && SysAt(CallRun(h, u, 0, start, UpStoreDown(u, junk, data) + [BrkCall((u.low + 3) * PAGE_SIZE)]).sys,
                     0, u.low + 2) == Some(Cell({Read, Write}, true, Some(data)))
  {
    hide Run, SysInv, HeapIn, BrkStep, SysAt, Step, Enabled, Ceiling, CallRun, LastPage;
    var h, start := HeapSys(Run(Boot, u, Loaded(u)), StartBrk(u)), StartBrk(u);
    var c1, c2 := BrkCall((u.low + 3) * PAGE_SIZE), Other(WriteFault(0, u.low + 2, junk, data));
    var c3 := BrkCall((u.low + 2) * PAGE_SIZE);
    LastPageAt(u.low + 1);
    LastPageAt(u.low + 2);
    LastPageAt(u.low + 3);
    LoadedOk(u);
    UpAndStore(h.sys, u, junk, data);
    var none: seq<Call> := [];
    CallRunMore(h, u, 0, start, none, c1);
    assert none + [c1] == [c1] && CallRun(h, u, 0, start, none) == h by { CallRunNone(h, u, 0, start); }
    CallRunMore(h, u, 0, start, [c1], c2);
    CallRunMore(h, u, 0, start, [c1] + [c2], c3);
    CallRunMore(h, u, 0, start, [c1] + [c2] + [c3], c1);
    var h1 := HeapSys(BrkStep(h.sys, 0, u.low, u.low, u.low + 2), (u.low + 3) * PAGE_SIZE);
    assert CallStep(h, u, 0, start, c1) == h1;
    var h2 := h1.(sys := Step(h1.sys, u, c2.op));
    assert CallStep(h1, u, 0, start, c2) == h2;
    DownAndUp(h2.sys, u);
    var h3 := HeapSys(BrkStep(h2.sys, 0, u.low, u.low + 2, u.low + 1), (u.low + 2) * PAGE_SIZE);
    assert CallStep(h2, u, 0, start, c3) == h3;
    assert CallStep(h3, u, 0, start, c1) == h2;
  }

  lemma CallRunNone(h: HeapSys, u: Layout, i: nat, start: nat)
    requires u.low < u.high && HeapOk(h, u, i, start)
    ensures CallRun(h, u, i, start, []) == h
  {
  }
}
