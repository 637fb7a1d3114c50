/** The process break (`do_brk`): the heap is one area or none, right above the data. */
module Brk {
  import opened Basics
  import opened Memory
  import opened AddressSpace
  import opened Unmap
  import opened Fork
  import opened VmSystem
  import opened VmSteps
  import opened VmImpl

  /** The page of the last byte below address `x`. */
  function LastPage(x: nat): nat
    requires x > 0
  {
    (x - 1) / PAGE_SIZE
  }

  predicate IsHeap(a: Area, first: nat, last: nat) {
    a.start == first + 1 && a.end == last + 1 && a.prot == {Read, Write} && a.priv
  }

  predicate IsData(a: Area, first: nat) {
    a.start <= first && a.end == first + 1
  }

  /** Some area ends with the page `first` of the start break. If the break is in a later
      page `last`, some area is the heap, from the page after `first` up to `last`. Some
      area lies above. */
  predicate HeapIn(l: seq<Area>, first: nat, last: nat) {
    && first <= last
    && (exists x :: 0 <= x < |l| && IsData(l[x], first))
    && (first < last ==> exists x :: 0 <= x < |l| && IsHeap(l[x], first, last))
    && (exists x :: 0 <= x < |l| && last < l[x].start)
  }

  /** The same by position: data at `k`, then the heap if there is one, then another area. */
  predicate HeapAt(l: seq<Area>, k: nat, first: nat, last: nat) {
    && first <= last && k < |l| && IsData(l[k], first)
    && Top(k, first, last) + 1 < |l|
    && (first < last ==> IsHeap(l[k + 1], first, last))
    && last < l[Top(k, first, last) + 1].start
  }

  /** The position of the topmost area of data and heap. */
  function Top(k: nat, first: nat, last: nat): nat {
    if first < last then k + 1 else k
  }

  /** Where the first area covering `v` is, or the length of the list. */
  function Pos(l: seq<Area>, v: nat): (k: nat)
    ensures k <= |l| && (k < |l| ==> Covers(l[k], v)) && forall x :: 0 <= x < k ==> !Covers(l[x], v)
  {
    if l == [] || Covers(l[0], v) then 0 else Pos(l[1..], v) + 1
  }

  lemma InOrder(l: seq<Area>, u: Layout, x: nat, y: nat)
    requires Ordered(l, u) && x < |l| && y < |l| && x != y
    ensures if x < y then l[x].end <= l[y].start else l[y].end <= l[x].start
    ensures l[x].start < l[x].end && l[y].start < l[y].end
  {
    assert InUser(l[x], u) && InUser(l[y], u);
  }

  lemma PosIs(l: seq<Area>, u: Layout, k: nat, v: nat)
    requires Ordered(l, u) && k < |l| && Covers(l[k], v)
    ensures Pos(l, v) == k
  {
    hide Ordered;
    var x := Pos(l, v);
    if x != k { InOrder(l, u, x, k); }
  }

  lemma DataAlone(l: seq<Area>, u: Layout, k: nat, r: nat, first: nat)
    requires Ordered(l, u) && k < |l| && r < |l| && IsData(l[k], first) && first < l[r].start
    ensures HeapAt(l, k, first, first) && Pos(l, first) == k
  {
    hide Ordered, Pos;
    PosIs(l, u, k, first);
    InOrder(l, u, k, r);
    InOrder(l, u, k, k + 1);
  }

  lemma DataAndHeap(l: seq<Area>, u: Layout, k: nat, h: nat, r: nat, first: nat, last: nat)
    requires Ordered(l, u) && k < |l| && h < |l| && r < |l| && first < last
    requires IsData(l[k], first) && IsHeap(l[h], first, last) && last < l[r].start
    ensures HeapAt(l, k, first, last) && Pos(l, first) == k && Pos(l, last) == k + 1
  {
    hide Ordered, Pos;
    PosIs(l, u, k, first);
    PosIs(l, u, h, last);
    Adjacent(l, u, k, h);
    InOrder(l, u, h, r);
    InOrder(l, u, h, h + 1);
  }

  /** In an ordered list the areas stand next to each other. */
  lemma HeapIsAt(l: seq<Area>, u: Layout, first: nat, last: nat)
    requires Ordered(l, u) && HeapIn(l, first, last)
    ensures HeapAt(l, Pos(l, first), first, last) && Pos(l, last) == Top(Pos(l, first), first, last)
  {
    hide Ordered, Pos, HeapAt;
    var k :| 0 <= k < |l| && IsData(l[k], first);
    var r :| 0 <= r < |l| && last < l[r].start;
    if first < last {
      var h :| 0 <= h < |l| && IsHeap(l[h], first, last);
      DataAndHeap(l, u, k, h, r, first, last);
    } else {
      DataAlone(l, u, k, r, first);
    }
  }

  lemma Adjacent(l: seq<Area>, u: Layout, k: nat, h: nat)
    requires Ordered(l, u) && k < |l| && h < |l| && l[k].end == l[h].start
    ensures h == k + 1
  {
    assert InUser(l[k], u);
    hide Ordered;
    Earlier(l, u, k, h);
    var j := k + 1;
    InOrder(l, u, k, j);
    if j != h { InOrder(l, u, j, h); }
  }

  lemma Earlier(l: seq<Area>, u: Layout, x: nat, y: nat)
    requires Ordered(l, u) && x < |l| && y < |l| && l[x].start < l[y].start
    ensures x < y
  {
    hide Ordered;
    InOrder(l, u, x, y);
  }

  lemma AtIsIn(l: seq<Area>, k: nat, first: nat, last: nat)
    requires HeapAt(l, k, first, last)
    ensures HeapIn(l, first, last)
  {
  }

  /** The list without its heap area. */
  function Rest(l: seq<Area>, first: nat, last: nat): seq<Area> {
    var k := Pos(l, last);
    if first < last && k < |l| then l[..k] + l[k + 1..] else l
  }

  lemma RestAt(l: seq<Area>, u: Layout, k: nat, first: nat, last: nat)
    requires Ordered(l, u) && HeapAt(l, k, first, last)
    ensures Rest(l, first, last) == l[..k + 1] + l[Top(k, first, last) + 1..]
  {
    if first < last {
      PosIs(l, u, k + 1, last);
    } else {
      assert l == l[..k + 1] + l[k + 1..];
    }
  }

  /** The first page above the topmost area of data and heap that is taken. */
  function Ceiling(l: seq<Area>, last: nat): nat {
    var k := Pos(l, last);
    if k + 1 < |l| then l[k + 1].start else 0
  }

  /** The position at which vmmap_lookup finds page `v`. */
  method AreaAt(l: seq<Area>, v: nat) returns (j: nat)
    ensures j == Pos(l, v)
  {
    j := 0;
    while j < |l| && !Covers(l[j], v)
      invariant j <= |l| && Pos(l, v) == j + Pos(l[j..], v)
    {
      assert l[j..][1..] == l[j + 1..];
      j := j + 1;
    }
  }

  lemma CutApart(m: Mem, a: Area, lo: nat, hi: nat)
    requires lo <= hi && Apart(a, lo, hi) && a.start < a.end && a.obj in m.objs
    ensures CutOne(m, a, lo, hi) == Cut(m, [a])
  {
  }

  /** Areas apart from the range are passed over. */
  lemma {:induction false} CutSkips(m: Mem, l: seq<Area>, l': seq<Area>, lo: nat, hi: nat)
    requires lo <= hi && Vacant(l, lo, hi) && Proper(l) && Live(m, l)
    ensures CutAll(m, l + l', lo, hi) == Cut(CutAll(m, l', lo, hi).mem, l + CutAll(m, l', lo, hi).areas)
    decreases |l|
  {
    hide CutOne;
    if l == [] {
      assert l + l' == l';
      assert [] + CutAll(m, l', lo, hi).areas == CutAll(m, l', lo, hi).areas;
    } else {
      assert Apart(l[0], lo, hi) && l[0] in l;
      CutApart(m, l[0], lo, hi);
      var t := l[1..];
      forall i | 0 <= i < |t| ensures Apart(t[i], lo, hi) { assert t[i] == l[i + 1]; }
      CutSkips(m, t, l', lo, hi);
      assert (l + l')[1..] == t + l' && (l + l')[0] == l[0];
      var r := CutAll(m, l', lo, hi);
      assert [l[0]] + (t + r.areas) == l + r.areas;
    }
  }

  lemma NeighboursApart(l: seq<Area>, u: Layout, j: nat, lo: nat, hi: nat)
    requires Ordered(l, u) && j < |l| && lo <= hi && l[j].start <= lo && hi <= l[j].end
    ensures Vacant(l[..j], lo, hi) && Vacant(l[j + 1..], lo, hi) && Proper(l[..j]) && Proper(l[j + 1..])
  {
    forall i | 0 <= i < j ensures Apart(l[..j][i], lo, hi) { assert l[i].end <= l[j].start; }
    var t := l[j + 1..];
    forall i | 0 <= i < |t| ensures Apart(t[i], lo, hi) { assert l[j].end <= l[j + 1 + i].start; }
  }

  lemma CutFirst(m: Mem, a: Area, t: seq<Area>, lo: nat, hi: nat)
    requires lo <= hi && a.obj in m.objs && Vacant(t, lo, hi) && Proper(t)
    ensures CutAll(m, [a] + t, lo, hi) == Cut(CutOne(m, a, lo, hi).mem, CutOne(m, a, lo, hi).areas + t)
  {
    hide CutOne, Vacant, Proper;
    assert ([a] + t)[1..] == t;
    CutVacant(CutOne(m, a, lo, hi).mem, t, lo, hi);
  }

  lemma CutParts(m: Mem, l: seq<Area>, a: Area, t: seq<Area>, lo: nat, hi: nat)
    requires lo <= hi && a.obj in m.objs && Vacant(l, lo, hi) && Proper(l) && Live(m, l) && Vacant(t, lo, hi)
             && Proper(t)
    ensures CutAll(m, l + ([a] + t), lo, hi) == Cut(CutOne(m, a, lo, hi).mem, l + CutOne(m, a, lo, hi).areas + t)
  {
    hide CutOne, CutAll, Vacant, Proper, Live;
    CutSkips(m, l, [a] + t, lo, hi);
    CutFirst(m, a, t, lo, hi);
    var c := CutOne(m, a, lo, hi).areas;
    assert l + (c + t) == l + c + t;
  }

  /** Cutting inside one area of an ordered list. */
  lemma CutMiddle(m: Mem, l: seq<Area>, u: Layout, j: nat, lo: nat, hi: nat)
    requires Ordered(l, u) && j < |l| && lo <= hi && l[j].start <= lo && hi <= l[j].end && Live(m, l)
    ensures l[j].obj in m.objs
    ensures CutAll(m, l, lo, hi) ==
            Cut(CutOne(m, l[j], lo, hi).mem, l[..j] + CutOne(m, l[j], lo, hi).areas + l[j + 1..])
  {
    hide CutOne, CutAll, Ordered, Vacant, Proper;
    assert l[j] in l;
    NeighboursApart(l, u, j, lo, hi);
    assert l == l[..j] + ([l[j]] + l[j + 1..]);
    CutParts(m, l[..j], l[j], l[j + 1..], lo, hi);
  }

  // ---------------------------------------------------------------------
  // The three ways the break moves to another page
  // ---------------------------------------------------------------------

  /** The break moves from page `last` to page `target`: the first heap pages are mapped,
      the heap area grows, or pages are unmapped. */
  function BrkStep(s: Sys, i: nat, first: nat, last: nat, target: nat): Sys
    requires i < |s.spaces|
  {
    var k := Pos(s.spaces[i], last);
    if target > last then
      if first >= last then MapStep(s, i, last + 1, target - last, {Read, Write}, true, None, 0)
      else if k < |s.spaces[i]| then ExtendStep(s, i, k, target + 1)
      else s
    else if target < last then UnmapStep(s, i, target + 1, last + 1)
    else s
  }

  /** What a page shows that comes into the heap: zeroes in a new heap, in an old one
      what the heap's object holds there. */
  function HeapCell(s: Sys, i: nat, first: nat, last: nat, v: nat): Cell
    requires i < |s.spaces|
  {
    var l := s.spaces[i];
    var k := Pos(l, last);
    Cell({Read, Write}, true,
         if first < last && k < |l| && l[k].start <= v then View(s.mem, l[k].obj, l[k].off + (v - l[k].start))
         else Some(ZeroPage()))
  }

  /** Exactly the pages between the old and the new break change. */
  ghost predicate BrkShows(s: Sys, t: Sys, i: nat, first: nat, last: nat, target: nat)
    requires i < |s.spaces|
  {
    forall j: nat, v: nat :: SysAt(t, j, v) ==
      if j == i && target < v <= last then None
      else if j == i && last < v <= target then Some(HeapCell(s, i, first, last, v))
      else SysAt(s, j, v)
  }

  /** What a move of the break keeps. */
  ghost predicate BrkKeeps(s: Sys, t: Sys, u: Layout, i: nat, first: nat, last: nat, target: nat)
    requires i < |s.spaces|
  {
    && SysInv(t, u) && |t.spaces| == |s.spaces| && HeapIn(t.spaces[i], first, target)
    && Rest(t.spaces[i], first, target) == Rest(s.spaces[i], first, last)
  }

  lemma GapAfter(l: seq<Area>, u: Layout, k: nat, lo: nat, hi: nat)
    requires Ordered(l, u) && k + 1 < |l| && l[k].end <= lo && hi <= l[k + 1].start
    ensures Vacant(l, lo, hi)
    ensures forall b <- l[..k + 1] :: b.start < lo
  {
    forall j | 0 <= j < |l| ensures Apart(l[j], lo, hi) {
      assert InUser(l[j], u);
      if j < k { assert l[j].end <= l[k].start; }
      if j > k + 1 { assert l[k + 1].end <= l[j].start; }
      assert InUser(l[k], u) && InUser(l[k + 1], u);
    }
    forall b <- l[..k + 1] ensures b.start < lo {
      var j :| 0 <= j < k + 1 && l[j] == b;
      assert InUser(l[j], u);
      assert Apart(l[j], lo, hi);
      if j < k { assert l[j].end <= l[k].start; }
      assert InUser(l[k], u);
    }
  }

  lemma InsertInGap(l: seq<Area>, u: Layout, k: nat, a: Area)
    requires Ordered(l, u) && k + 1 < |l| && l[k].end <= a.start < a.end <= l[k + 1].start
    ensures Insert(l, a) == l[..k + 1] + [a] + l[k + 1..]
  {
    GapAfter(l, u, k, a.start, a.end);
    assert InUser(l[k + 1], u);
    hide Insert, Ordered, Vacant;
    assert l == l[..k + 1] + l[k + 1..];
    InsertBetween(l[..k + 1], a, l[k + 1..]);
  }

  /** A mapping into a gap adds one area there. */
  lemma MapInGap(s: Sys, u: Layout, i: nat, k: nat, start: nat, n: nat, prot: set<Perm>, priv: bool)
    requires SysInv(s, u) && i < |s.spaces| && k + 1 < |s.spaces[i]| && n > 0
    requires s.spaces[i][k].end <= start && start + n <= s.spaces[i][k + 1].start
    ensures var l := s.spaces[i]; var t := MapStep(s, i, start, n, prot, priv, None, 0);
            var a := Area(start, start + n, 0, prot, priv, BackWith(s.mem, None, priv).1);
            t.spaces == s.spaces[i := l[..k + 1] + [a] + l[k + 1..]]
  {
    hide BackWith, Insert, CutAll, SysInv, Ordered, Vacant;
    SpaceBacked(s, u, i);
    GapAfter(s.spaces[i], u, k, start, start + n);
    CutVacant(s.mem, s.spaces[i], start, start + n);
    InsertInGap(s.spaces[i], u, k, Area(start, start + n, 0, prot, priv, BackWith(s.mem, None, priv).1));
  }

  /** Where the heap is, for the proofs below. */
  lemma HeapHere(s: Sys, u: Layout, i: nat, first: nat, last: nat)
    requires SysInv(s, u) && i < |s.spaces| && HeapIn(s.spaces[i], first, last)
    ensures var l := s.spaces[i]; var k := Pos(l, first);
            && HeapAt(l, k, first, last) && Ordered(l, u) && Pos(l, last) == Top(k, first, last)
            && InUser(l[k], u) && InUser(l[Pos(l, last) + 1], u)
  {
    hide SysInv;
    SpaceBacked(s, u, i);
    HeapIsAt(s.spaces[i], u, first, last);
  }

  lemma ListOrdered(s: Sys, u: Layout, i: nat)
    requires SysInv(s, u) && i < |s.spaces|
    ensures Ordered(s.spaces[i], u)
  {
  }

  lemma MapShape(l: seq<Area>, l': seq<Area>, u: Layout, k: nat, first: nat, a: Area, target: nat)
    requires HeapAt(l, k, first, first) && first < target < l[k + 1].start && IsHeap(a, first, target)
    requires l' == l[..k + 1] + [a] + l[k + 1..] && Ordered(l', u)
    ensures HeapIn(l', first, target) && Rest(l', first, target) == l
  {
    hide Ordered, HeapIn, Rest;
    assert l'[..k + 1] == l[..k + 1] && l'[k + 2..] == l[k + 1..];
    assert l'[k] == l'[..k + 1][k] && l'[k + 1] == a && l'[k + 2] == l'[k + 2..][0];
    AtIsIn(l', k, first, target);
    RestAt(l', u, k, first, target);
    assert l == l[..k + 1] + l[k + 1..];
  }

  /** The first heap pages. */
  lemma FirstPages(s: Sys, u: Layout, i: nat, first: nat, target: nat)
    requires SysInv(s, u) && i < |s.spaces| && HeapIn(s.spaces[i], first, first)
    requires first < target < Ceiling(s.spaces[i], first)
    ensures u.low <= first + 1 && target + 1 <= u.high
    ensures var t := BrkStep(s, i, first, first, target);
            BrkKeeps(s, t, u, i, first, first, target) && BrkShows(s, t, i, first, first, target)
  {
    hide SysInv, MapStep, SysAt, BackWith, HeapIn, Rest, Ordered, Pos;
    var l := s.spaces[i];
    HeapHere(s, u, i, first, first);
    var k := Pos(l, first);
    var t := MapStep(s, i, first + 1, target - first, {Read, Write}, true, None, 0);
    MapInGap(s, u, i, k, first + 1, target - first, {Read, Write}, true);
    MapMeaning(s, u, i, first + 1, target - first, {Read, Write}, true, None, 0);
    ListOrdered(t, u, i);
    MapShape(l, t.spaces[i], u, k, first, t.spaces[i][k + 1], target);
    assert Rest(l, first, first) == l by { RestNone(l, first); }
  }

  lemma RestNone(l: seq<Area>, first: nat)
    ensures Rest(l, first, first) == l
  {
  }

  lemma ExtendShape(l: seq<Area>, u: Layout, k: nat, first: nat, last: nat, target: nat)
    requires HeapAt(l, k, first, last) && first < last < target < l[k + 2].start
    requires Ordered(l, u) && Ordered(Extended(l, k + 1, target + 1), u)
    ensures var l' := Extended(l, k + 1, target + 1);
            HeapIn(l', first, target) && Rest(l', first, target) == Rest(l, first, last)
  {
    hide Ordered, HeapIn, Rest;
    var l' := Extended(l, k + 1, target + 1);
    AtIsIn(l', k, first, target);
    RestAt(l', u, k, first, target);
    RestAt(l, u, k, first, last);
    assert l'[..k + 1] == l[..k + 1] && l'[k + 2..] == l[k + 2..];
  }

  /** The heap area grows. */
  lemma MorePages(s: Sys, u: Layout, i: nat, first: nat, last: nat, target: nat)
    requires SysInv(s, u) && i < |s.spaces| && HeapIn(s.spaces[i], first, last)
    requires first < last < target < Ceiling(s.spaces[i], last)
    ensures var t := BrkStep(s, i, first, last, target);
            BrkKeeps(s, t, u, i, first, last, target) && BrkShows(s, t, i, first, last, target)
  {
    hide SysInv, SysAt, HeapIn, Rest, View, Ordered, Pos;
    var l := s.spaces[i];
    HeapHere(s, u, i, first, last);
    var k := Pos(l, last);
    ExtendMeaning(s, u, i, k, target + 1);
    ListOrdered(ExtendStep(s, i, k, target + 1), u, i);
    ExtendShape(l, u, k - 1, first, last, target);
  }

  /** Cutting the end off an area. */
  lemma CutTop(m: Mem, a: Area, lo: nat)
    requires a.obj in m.objs && a.start <= lo < a.end
    ensures CutOne(m, a, lo, a.end).areas == if lo == a.start then [] else [a.(end := lo)]
    ensures lo != a.start ==> CutOne(m, a, lo, a.end).mem == m
  {
    hide Release;
  }

  /** Unmapping the top of the heap shortens the heap area or removes it. */
  lemma ShrinkShape(s: Sys, u: Layout, i: nat, k: nat, first: nat, last: nat, target: nat)
    requires SysInv(s, u) && i < |s.spaces| && HeapAt(s.spaces[i], k, first, last) && first <= target < last
    ensures var l := s.spaces[i]; var l' := UnmapStep(s, i, target + 1, last + 1).spaces[i];
            l' == l[..k + 1] + (if target == first then [] else [l[k + 1].(end := target + 1)]) + l[k + 2..]
  {
    hide CutAll, SysInv, Ordered, Release, CutOne, Backed;
    var l := s.spaces[i];
    SpaceBacked(s, u, i);
    BackedLive(s.mem, Others(s, i), l);
    CutMiddle(s.mem, l, u, k + 1, target + 1, last + 1);
    CutTop(s.mem, l[k + 1], target + 1);
  }

  lemma ShortShape(l: seq<Area>, l': seq<Area>, u: Layout, k: nat, first: nat, last: nat, target: nat)
    requires HeapAt(l, k, first, last) && first <= target < last && Ordered(l, u) && Ordered(l', u)
    requires l' == l[..k + 1] + (if target == first then [] else [l[k + 1].(end := target + 1)]) + l[k + 2..]
    ensures HeapIn(l', first, target) && Rest(l', first, target) == Rest(l, first, last)
  {
    hide Ordered, HeapIn, Rest;
    var t := Top(k, first, target) + 1;
    assert l'[..k + 1] == l[..k + 1] && l'[t..] == l[k + 2..];
    assert l'[k] == l'[..k + 1][k] && l'[t] == l'[t..][0];
    AtIsIn(l', k, first, target);
    RestAt(l', u, k, first, target);
    RestAt(l, u, k, first, last);
  }

  lemma FewerPages(s: Sys, u: Layout, i: nat, first: nat, last: nat, target: nat)
    requires SysInv(s, u) && i < |s.spaces| && HeapIn(s.spaces[i], first, last) && first <= target < last
    ensures var t := BrkStep(s, i, first, last, target);
            BrkKeeps(s, t, u, i, first, last, target) && BrkShows(s, t, i, first, last, target)
  {
    hide SysInv, SysAt, HeapIn, Rest, UnmapStep, HeapCell, Ordered, Pos;
    var l := s.spaces[i];
    HeapHere(s, u, i, first, last);
    var k := Pos(l, first);
    var t := UnmapStep(s, i, target + 1, last + 1);
    ShrinkShape(s, u, i, k, first, last, target);
    UnmapMeaning(s, u, i, target + 1, last + 1);
    UnmapSpaces(s, i, target + 1, last + 1);
    ListOrdered(t, u, i);
    ShortShape(l, t.spaces[i], u, k, first, last, target);
  }

  lemma UnmapSpaces(s: Sys, i: nat, lo: nat, hi: nat)
    requires i < |s.spaces| && lo <= hi
    ensures |UnmapStep(s, i, lo, hi).spaces| == |s.spaces|
  {
  }

  /** Every move of the break within its bounds keeps the heap one area or none and all
      other areas as they are. The pages given up show nothing, the pages gained what
      `HeapCell` says, and every other page of every process what it showed before. */
  lemma BrkMeaning(s: Sys, u: Layout, i: nat, first: nat, last: nat, target: nat)
    requires SysInv(s, u) && i < |s.spaces| && HeapIn(s.spaces[i], first, last)
    requires first <= target < Ceiling(s.spaces[i], last)
    ensures var t := BrkStep(s, i, first, last, target);
            BrkKeeps(s, t, u, i, first, last, target) && BrkShows(s, t, i, first, last, target)
  {
    hide SysInv, SysAt, Rest, BrkKeeps, BrkShows, BrkStep;
    if target < last { FewerPages(s, u, i, first, last, target); }
    else if target > last && first == last { FirstPages(s, u, i, first, target); }
    else if target > last { MorePages(s, u, i, first, last, target); }
    else { SamePage(s, u, i, first, last); }
  }

  lemma SamePage(s: Sys, u: Layout, i: nat, first: nat, last: nat)
    requires SysInv(s, u) && i < |s.spaces| && HeapIn(s.spaces[i], first, last)
    ensures BrkStep(s, i, first, last, last) == s
    ensures BrkKeeps(s, s, u, i, first, last, last) && BrkShows(s, s, i, first, last, last)
  {
    hide SysInv, SysAt, Rest, HeapIn;
  }

  // ---------------------------------------------------------------------
  // Down and up again
  // ---------------------------------------------------------------------

  lemma ShrinkMem(s: Sys, u: Layout, i: nat, k: nat, first: nat, last: nat, target: nat)
    requires SysInv(s, u) && i < |s.spaces| && HeapAt(s.spaces[i], k, first, last) && first < target < last
    ensures UnmapStep(s, i, target + 1, last + 1) == ExtendStep(s, i, k + 1, target + 1)
  {
    hide CutAll, SysInv, Ordered, Release, CutOne, Backed;
    var l := s.spaces[i];
    SpaceBacked(s, u, i);
    BackedLive(s.mem, Others(s, i), l);
    CutMiddle(s.mem, l, u, k + 1, target + 1, last + 1);
    CutTop(s.mem, l[k + 1], target + 1);
    assert l[..k + 1] + [l[k + 1].(end := target + 1)] + l[k + 2..] == Extended(l, k + 1, target + 1);
  }

  /** If a heap area is left, the pages given up keep their content: moving the break
      back undoes the move entirely. */
  lemma BrkBack(s: Sys, u: Layout, i: nat, first: nat, last: nat, target: nat)
    requires SysInv(s, u) && i < |s.spaces| && HeapIn(s.spaces[i], first, last) && first < target < last
    ensures var t := BrkStep(s, i, first, last, target);
            i < |t.spaces| && BrkStep(t, i, first, target, last) == s
  {
    hide SysInv, HeapIn, UnmapStep, Ordered, Pos;
    var l := s.spaces[i];
    HeapHere(s, u, i, first, last);
    var k := Pos(l, first);
    ShrinkMem(s, u, i, k, first, last, target);
    var t := ExtendStep(s, i, k + 1, target + 1);
    UnmapMeaning(s, u, i, target + 1, last + 1);
    ListOrdered(t, u, i);
    PosIs(t.spaces[i], u, k + 1, target);
    assert Extended(t.spaces[i], k + 1, last + 1) == l;
    assert s.spaces[i := l] == s.spaces;
    assert t.spaces[i := l] == s.spaces;
  }

  /** Moving the break down does not lower the next area. */
  lemma SameCeiling(s: Sys, u: Layout, i: nat, first: nat, last: nat, target: nat)
    requires SysInv(s, u) && i < |s.spaces| && HeapIn(s.spaces[i], first, last) && first <= target < last
    ensures var t := BrkStep(s, i, first, last, target);
            && i < |t.spaces| && Ceiling(t.spaces[i], target) == Ceiling(s.spaces[i], last)
            && last < Ceiling(s.spaces[i], last)
  {
    hide SysInv, HeapIn, UnmapStep, Ordered, Pos;
    var l := s.spaces[i];
    HeapHere(s, u, i, first, last);
    var k := Pos(l, first);
    ShrinkShape(s, u, i, k, first, last, target);
    UnmapMeaning(s, u, i, target + 1, last + 1);
    UnmapSpaces(s, i, target + 1, last + 1);
    var l' := UnmapStep(s, i, target + 1, last + 1).spaces[i];
    ListOrdered(UnmapStep(s, i, target + 1, last + 1), u, i);
    var t := Top(k, first, target);
    assert l'[..k + 1] == l[..k + 1] && l'[t + 1..] == l[k + 2..];
    assert l'[k] == l'[..k + 1][k] && l'[t + 1] == l'[t + 1..][0];
    PosIs(l', u, t, target);
  }

  /** A heap that is left keeps its object, whatever its end. */
  lemma SameHeapCell(s: Sys, u: Layout, i: nat, first: nat, last: nat, target: nat, v: nat)
    requires SysInv(s, u) && i < |s.spaces| && HeapIn(s.spaces[i], first, last) && first < target < last && first < v
    ensures var t := BrkStep(s, i, first, last, target);
            i < |t.spaces| && HeapCell(t, i, first, target, v) == HeapCell(s, i, first, last, v)
  {
    hide SysInv, HeapIn, UnmapStep, Ordered, Pos, View;
    HeapHere(s, u, i, first, last);
    var k := Pos(s.spaces[i], first);
    ShrinkMem(s, u, i, k, first, last, target);
    UnmapMeaning(s, u, i, target + 1, last + 1);
    var t := ExtendStep(s, i, k + 1, target + 1);
    ListOrdered(t, u, i);
    PosIs(t.spaces[i], u, k + 1, target);
  }

  /** What a heap page shows is what the heap's object holds there. */
  lemma HeapShows(s: Sys, u: Layout, i: nat, first: nat, last: nat, v: nat)
    requires SysInv(s, u) && i < |s.spaces| && HeapIn(s.spaces[i], first, last) && first < v <= last
    ensures SysAt(s, i, v) == Some(HeapCell(s, i, first, last, v))
  {
    hide SysInv, HeapIn, Ordered, Pos, View;
    HeapHere(s, u, i, first, last);
    FindAt(s.spaces[i], u, Pos(s.spaces[i], last), v);
  }

  lemma FindAt(l: seq<Area>, u: Layout, k: nat, v: nat)
    requires Ordered(l, u) && k < |l| && Covers(l[k], v)
    ensures Find(l, v) == Some(l[k])
  {
    hide Ordered;
    PosIs(l, u, k, v);
    PosFinds(l, v);
  }

  lemma {:induction false} PosFinds(l: seq<Area>, v: nat)
    requires Pos(l, v) < |l|
    ensures Find(l, v) == Some(l[Pos(l, v)])
  {
    if !Covers(l[0], v) { PosFinds(l[1..], v); }
  }

  const Zeroes: Cell := Cell({Read, Write}, true, Some(ZeroPage()))

  /** The break moves down to page `target` and up again to page `again`. The pages gained
      show zeroes if the heap was given up altogether; otherwise they show what the heap's
      object still holds, be it from before. */
  lemma BrkAgain(s: Sys, u: Layout, i: nat, first: nat, last: nat, target: nat, again: nat, v: nat)
    requires SysInv(s, u) && i < |s.spaces| && HeapIn(s.spaces[i], first, last)
    requires first <= target < last && target < v <= again < Ceiling(s.spaces[i], last)
    ensures var t := BrkStep(s, i, first, last, target);
            && i < |t.spaces|
            && SysAt(BrkStep(t, i, first, target, again), i, v) ==
               Some(if target == first then Zeroes else HeapCell(s, i, first, last, v))
  {
    hide SysInv, HeapIn, BrkStep, SysAt, Rest, Ceiling;
    SameCeiling(s, u, i, first, last, target);
    BrkMeaning(s, u, i, first, last, target);
    var t := BrkStep(s, i, first, last, target);
    BrkMeaning(t, u, i, first, target, again);
    if first < target { SameHeapCell(s, u, i, first, last, target, v); }
  }

  /** A page given up comes back as zeroes if and only if no heap was left in between or
      it showed zeroes before; a page the heap never had, if and only if no heap was left or
      the heap's object holds zeroes there. */
  lemma BackAsZeroesIff(s: Sys, u: Layout, i: nat, first: nat, last: nat, target: nat, again: nat, v: nat)
    requires SysInv(s, u) && i < |s.spaces| && HeapIn(s.spaces[i], first, last)
    requires first <= target < last && target < v <= again < Ceiling(s.spaces[i], last)
    ensures var t := BrkStep(s, i, first, last, target);
            && i < |t.spaces|
            && (SysAt(BrkStep(t, i, first, target, again), i, v) == Some(Zeroes) <==>
                target == first || (if v <= last then SysAt(s, i, v) == Some(Zeroes)
                                    else HeapCell(s, i, first, last, v) == Zeroes))
  {
    hide SysInv, HeapIn, BrkStep, SysAt, HeapCell, Ceiling;
    BrkAgain(s, u, i, first, last, target, again, v);
    if v <= last { HeapShows(s, u, i, first, last, v); }
  }

  // ---------------------------------------------------------------------
  // do_brk
  // ---------------------------------------------------------------------

  /** do_brk finds the data area, the topmost area, and the area above it. */
  lemma Lookups(s: Sys, u: Layout, i: nat, first: nat, last: nat)
    requires SysInv(s, u) && i < |s.spaces| && HeapIn(s.spaces[i], first, last)
    ensures var l := s.spaces[i]; var t := Pos(l, last);
            && first <= last && t + 1 < |l| && l[t + 1].start == Ceiling(l, last) && last < Ceiling(l, last) < u.high
            && (t == Pos(l, first) <==> first == last)
  {
    hide SysInv, HeapIn, Ordered, Pos;
    HeapHere(s, u, i, first, last);
  }

  /** The break of process `i`. */
  class Heap {
    const vm: Vm
    const i: nat
    const start_brk: nat
    var brk: nat

    ghost predicate Valid()
      reads this, vm, vm.store
    {
      && vm.Valid() && i < |vm.spaces| && 0 < vm.user.low && 0 < start_brk <= brk
      && HeapIn(vm.spaces[i], LastPage(start_brk), LastPage(brk))
    }

    /** The loader's state: no heap yet, the break at its start. */
    constructor (vm: Vm, i: nat, start_brk: nat)
      requires vm.Valid() && i < |vm.spaces| && 0 < vm.user.low && 0 < start_brk
      requires HeapIn(vm.spaces[i], LastPage(start_brk), LastPage(start_brk))
      ensures Valid() && this.vm == vm && this.i == i && this.start_brk == start_brk && brk == start_brk
    {
      this.vm, this.i, this.start_brk, this.brk := vm, i, start_brk, start_brk;
    }

    /** The break never leaves the room between its start and the next area. */
    lemma BreakInBounds()
      requires Valid()
      ensures start_brk <= brk <= Ceiling(vm.spaces[i], LastPage(brk)) * PAGE_SIZE
    {
      hide SysInv, HeapIn;
      Lookups(vm.S(), vm.user, i, LastPage(start_brk), LastPage(brk));
    }

    /** The three branches of do_brk that change the map. */
    method MoveTo(start: nat, prev: nat, first: nat, last: nat, target: nat)
      requires Valid() && first == LastPage(start_brk) && last == LastPage(brk)
               && first <= target < Ceiling(vm.spaces[i], last)
      requires start == Pos(vm.spaces[i], first) && prev == Pos(vm.spaces[i], last)
      modifies vm, vm.store
      ensures vm.Valid() && vm.S() == BrkStep(old(vm.S()), i, first, last, target)
    {
      hide SysInv, MapStep, UnmapStep, HeapIn, Rest, LastPage, BrkShows, RoomFound;
      Lookups(vm.S(), vm.user, i, first, last);
      BrkMeaning(vm.S(), vm.user, i, first, last, target);
      if target > last {
        if prev == start {
          FirstPages(vm.S(), vm.user, i, first, target);
          var r, at := vm.Map(i, None, first + 1, target - first, {Read, Write}, true, 0, LoHi);
        } else {
          vm.spaces := vm.spaces[i := vm.spaces[i][prev := vm.spaces[i][prev].(end := target + 1)]];
        }
      } else if target < last {
        vm.Remove(i, target + 1, last - target);
      }
    }

    /** do_brk: the new break, or failure outside [start_brk, next area]. */
    method DoBrk(addr: nat) returns (ok: bool, ret: nat)
      requires Valid()
      modifies this, vm, vm.store
      ensures Valid()
      ensures addr == 0 ==> ok && ret == brk && brk == old(brk) && vm.S() == old(vm.S())
      ensures addr != 0 ==> (ok <==> start_brk <= addr <= old(Ceiling(vm.spaces[i], LastPage(brk))) * PAGE_SIZE)
      ensures addr != 0 && ok ==> ret == addr && brk == addr
      ensures addr != 0 && ok ==>
              vm.S() == BrkStep(old(vm.S()), i, LastPage(start_brk), old(LastPage(brk)), LastPage(addr))
      ensures !ok ==> brk == old(brk) && vm.S() == old(vm.S())
    {
      hide SysInv, SysAt, HeapIn, BrkStep, Rest, BrkShows;
      if addr == 0 { return true, brk; }
      var first, last, target := LastPage(start_brk), LastPage(brk), LastPage(addr);
      Lookups(vm.S(), vm.user, i, first, last);
      var start := AreaAt(vm.spaces[i], first);
      var prev := AreaAt(vm.spaces[i], last);
      var next := vm.spaces[i][prev + 1];
      var high := vm.user.high * PAGE_SIZE;
      var upper := if next.start * PAGE_SIZE < high then next.start * PAGE_SIZE else high;
      if addr < start_brk || addr > upper { return false, 0; }
      BrkMeaning(vm.S(), vm.user, i, first, last, target);
      MoveTo(start, prev, first, last, target);
      brk := addr;
      return true, addr;
    }
  }
}
