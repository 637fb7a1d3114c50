/** The ordered list of page intervals of one address space (`vmmap_t`). */
module AddressSpace {
  import opened Basics

  datatype Perm = Read | Write | Exec

  /** A `vmarea_t`: pages [start, end) show object `obj` from page `off` on.
      `priv` is the MAP_PRIVATE flag; without it the area is shared. */
  datatype Area = Area(start: nat, end: nat, off: nat, prot: set<Perm>, priv: bool, obj: nat)

  /** The user part of the address space, in pages. */
  datatype Layout = Layout(low: nat, high: nat)

  /** One past the largest 32-bit unsigned value. */
  const WRAP: nat := 0x1_0000_0000

  predicate LayoutOk(u: Layout) {
    u.low < u.high < 0x8000_0000
  }

  predicate Covers(a: Area, v: nat) {
    a.start <= v < a.end
  }

  predicate InUser(a: Area, u: Layout) {
    u.low <= a.start < a.end <= u.high
  }

  predicate Ordered(l: seq<Area>, u: Layout) {
    && (forall i :: 0 <= i < |l| ==> InUser(l[i], u))
    && (forall i, j :: 0 <= i < j < |l| ==> l[i].end <= l[j].start)
  }

  predicate Apart(a: Area, lo: nat, hi: nat) {
    hi <= a.start || a.end <= lo
  }

  /** No area meets [lo, hi). */
  predicate Vacant(l: seq<Area>, lo: nat, hi: nat) {
    forall i :: 0 <= i < |l| ==> Apart(l[i], lo, hi)
  }

  /** The first area covering page `v`. */
  function Find(l: seq<Area>, v: nat): Option<Area> {
    if l == [] then None
    else if Covers(l[0], v) then Some(l[0])
    else Find(l[1..], v)
  }

  method LookupArea(l: seq<Area>, v: nat) returns (r: Option<Area>)
    ensures r == Find(l, v)
    ensures r.Some? ==> r.value in l && Covers(r.value, v)
    ensures r.None? ==> forall i :: 0 <= i < |l| ==> !Covers(l[i], v)
  {
    var i := 0;
    while i < |l|
      invariant 0 <= i <= |l|
      invariant Find(l, v) == Find(l[i..], v)
      invariant forall k :: 0 <= k < i ==> !Covers(l[k], v)
    {
      assert l[i..][1..] == l[i + 1..];
      if Covers(l[i], v) { return Some(l[i]); }
      i := i + 1;
    }
    return None;
  }

  method IsRangeEmpty(l: seq<Area>, start: nat, npages: nat) returns (r: bool)
    ensures r <==> Vacant(l, start, start + npages)
  {
    var i := 0;
    while i < |l|
      invariant 0 <= i <= |l|
      invariant forall k :: 0 <= k < i ==> Apart(l[k], start, start + npages)
    {
      if !(start >= l[i].end || start + npages <= l[i].start) { return false; }
      i := i + 1;
    }
    return true;
  }

  // ---------------------------------------------------------------------
  // First fit
  // ---------------------------------------------------------------------

  datatype Dir = LoHi | HiLo

  /** Is [v, v + n) a free run inside the user range? */
  predicate Fit(l: seq<Area>, u: Layout, v: int, n: nat) {
    v >= u.low && v + n <= u.high && Vacant(l, v, v + n)
  }

  function AsInt(x: int): int {
    var w := x % WRAP;
    if w < 0x8000_0000 then w else w - WRAP
  }

  /** The free run answering a request: the least or the greatest, -1 for none. */
  ghost predicate BestFit(l: seq<Area>, u: Layout, n: nat, dir: Dir, r: int) {
    if r == -1 then forall v :: !Fit(l, u, v, n)
    else Fit(l, u, r, n) && forall v :: Fit(l, u, v, n) ==> if dir == LoHi then r <= v else v <= r
  }

  /** A run beyond area `i - 1` that cannot squeeze in before area `i` lies beyond it. */
  lemma GapTooSmall(l: seq<Area>, u: Layout, n: nat, i: nat, lo: nat)
    requires i < |l| && l[i].start - lo < n
    requires forall v :: Fit(l, u, v, n) ==> v >= lo
    ensures forall v :: Fit(l, u, v, n) ==> v >= l[i].end
  {
    forall v | Fit(l, u, v, n) ensures v >= l[i].end { assert Apart(l[i], v, v + n); }
  }

  lemma GapTooSmallBelow(l: seq<Area>, u: Layout, n: nat, i: nat, hi: nat)
    requires i < |l| && hi - l[i].end < n
    requires forall v :: Fit(l, u, v, n) ==> v + n <= hi
    ensures forall v :: Fit(l, u, v, n) ==> v + n <= l[i].start
  {
    forall v | Fit(l, u, v, n) ensures v + n <= l[i].start { assert Apart(l[i], v, v + n); }
  }

  /** The page run [v, v + n) between two neighbours is vacant. */
  lemma GapIsVacant(l: seq<Area>, u: Layout, v: nat, n: nat, i: nat)
    requires Ordered(l, u) && i <= |l|
    requires i > 0 ==> l[i - 1].end <= v
    requires i < |l| ==> v + n <= l[i].start
    ensures Vacant(l, v, v + n)
  {
    forall k | 0 <= k < |l| ensures Apart(l[k], v, v + n) {
      if k < i { assert k < i - 1 ==> l[k].end <= l[i - 1].start; } else { assert i < k ==> l[i].end <= l[k].start; }
    }
  }

  method FindLowest(l: seq<Area>, u: Layout, n: nat) returns (r: int)
    requires Ordered(l, u) && 0 < n && l != []
    ensures BestFit(l, u, n, LoHi, r)
  {
    if l[0].start != u.low && l[0].start - u.low >= n {
      GapIsVacant(l, u, u.low, n, 0);
      return u.low;
    }
    GapTooSmall(l, u, n, 0, u.low);
    var prev := 0;
    for i := 0 to |l|
      invariant prev == if i == 0 then 0 else i - 1
      invariant forall v :: Fit(l, u, v, n) ==> v >= l[prev].end
    {
      if prev != i {
        if l[i].start - l[prev].end >= n {
          GapIsVacant(l, u, l[prev].end, n, i);
          return l[prev].end;
        }
        GapTooSmall(l, u, n, i, l[prev].end);
        prev := i;
      }
    }
    if u.high - l[prev].end >= n {
      GapIsVacant(l, u, l[prev].end, n, |l|);
      return l[prev].end;
    }
    return -1;
  }

  method FindHighest(l: seq<Area>, u: Layout, n: nat) returns (r: int)
    requires Ordered(l, u) && 0 < n && l != []
    ensures BestFit(l, u, n, HiLo, r)
  {
    var prev := |l| - 1;
    if u.high - l[prev].end >= n {
      GapIsVacant(l, u, u.high - n, n, |l|);
      return u.high - n;
    }
    GapTooSmallBelow(l, u, n, prev, u.high);
    for i := |l| downto 0
      invariant prev == if i == |l| then |l| - 1 else i
      invariant forall v :: Fit(l, u, v, n) ==> v + n <= l[prev].start
    {
      if prev != i {
        if l[prev].start - l[i].end >= n {
          GapIsVacant(l, u, l[prev].start - n, n, prev);
          return l[prev].start - n;
        }
        GapTooSmallBelow(l, u, n, i, l[prev].start);
      }
      prev := i;
    }
    if l[prev].start >= n && l[prev].start - n >= u.low {
      GapIsVacant(l, u, l[prev].start - n, n, 0);
      return l[prev].start - n;
    }
    return -1;
  }

  /** `vmmap_find_range`: the best fit, except that an empty address space is
      never checked for size: a request larger than the user range is granted
      (unless the 32-bit result happens to read as -1). */
  method FindRange(l: seq<Area>, u: Layout, n: nat, dir: Dir) returns (r: int)
    requires LayoutOk(u) && Ordered(l, u) && 0 < n < WRAP
    ensures BestFit(l, u, n, dir, r) <==> l != [] || n <= u.high - u.low || (dir == HiLo && n == u.high + 1)
    ensures l == [] && n > u.high - u.low ==> r == if dir == LoHi then u.low else AsInt(u.high - n)
  {
    if l == [] {
      if dir == LoHi {
        r := u.low;
      } else {
        r := AsInt(u.high - n);
      }
      if n <= u.high - u.low { GapIsVacant(l, u, r, n, 0); }
    } else if dir == LoHi {
      r := FindLowest(l, u, n);
    } else {
      r := FindHighest(l, u, n);
    }
  }

  // ---------------------------------------------------------------------
  // Insertion
  // ---------------------------------------------------------------------

  /** `vmmap_insert`: before the first area that starts and ends later. */
  function Insert(l: seq<Area>, a: Area): seq<Area> {
    if l == [] then [a]
    else if l[0].start > a.start && l[0].end > a.end then [a] + l
    else [l[0]] + Insert(l[1..], a)
  }

  /** The in-place form of the scan. */
  method InsertArea(l: seq<Area>, a: Area) returns (r: seq<Area>)
    ensures r == Insert(l, a)
  {
    var i := 0;
    while i < |l|
      invariant 0 <= i <= |l|
      invariant Insert(l, a) == l[..i] + Insert(l[i..], a)
    {
      assert l[i..][1..] == l[i + 1..];
      if l[i].start > a.start && l[i].end > a.end {
        return l[..i] + [a] + l[i..];
      }
      assert l[..i] + [l[i]] == l[..i + 1];
      i := i + 1;
    }
    return l + [a];
  }

  lemma OrderedCons(a: Area, l: seq<Area>, u: Layout)
    requires Ordered(l, u) && InUser(a, u)
    requires forall i :: 0 <= i < |l| ==> a.end <= l[i].start
    ensures Ordered([a] + l, u)
  {
  }

  lemma OrderedTail(l: seq<Area>, u: Layout)
    requires Ordered(l, u) && l != []
    ensures Ordered(l[1..], u)
    ensures forall i :: 0 <= i < |l[1..]| ==> l[0].end <= l[1..][i].start
  {
  }

  lemma {:induction false} InsertMembers(l: seq<Area>, a: Area)
    ensures multiset(Insert(l, a)) == multiset(l) + multiset{a}
    ensures forall x :: x in Insert(l, a) <==> x in l || x == a
  {
    if l != [] {
      assert l == [l[0]] + l[1..];
      if !(l[0].start > a.start && l[0].end > a.end) { InsertMembers(l[1..], a); }
    }
  }

  /** Inserting into a gap keeps the list sorted and disjoint. */
  lemma {:induction false} InsertOrdered(l: seq<Area>, a: Area, u: Layout)
    requires Ordered(l, u) && InUser(a, u) && Vacant(l, a.start, a.end)
    ensures Ordered(Insert(l, a), u)
  {
    if l != [] {
      OrderedTail(l, u);
      assert Apart(l[0], a.start, a.end);
      if l[0].start > a.start && l[0].end > a.end {
        forall i | 0 <= i < |l| ensures a.end <= l[i].start { assert Apart(l[i], a.start, a.end); }
        OrderedCons(a, l, u);
      } else {
        var t := l[1..];
        forall i | 0 <= i < |t| ensures Apart(t[i], a.start, a.end) { assert t[i] == l[i + 1]; }
        InsertOrdered(t, a, u);
        InsertMembers(t, a);
        var r := Insert(t, a);
        forall i | 0 <= i < |r| ensures l[0].end <= r[i].start { assert r[i] in r; }
        OrderedCons(l[0], r, u);
      }
    }
  }

  /** Inserting overrides exactly the pages of the new area. */
  lemma {:induction false} InsertFind(l: seq<Area>, a: Area, v: nat)
    requires Vacant(l, a.start, a.end)
    ensures Find(Insert(l, a), v) == if Covers(a, v) then Some(a) else Find(l, v)
  {
    if l == [] {
      assert [a][1..] == [];
    } else {
      var t := l[1..];
      assert Apart(l[0], a.start, a.end);
      if l[0].start > a.start && l[0].end > a.end {
        assert ([a] + l)[1..] == l;
      } else {
        forall i | 0 <= i < |t| ensures Apart(t[i], a.start, a.end) { assert t[i] == l[i + 1]; }
        InsertFind(t, a, v);
        assert ([l[0]] + Insert(t, a))[1..] == Insert(t, a);
      }
    }
  }

  lemma {:induction false} FindAppend(l: seq<Area>, l': seq<Area>, v: nat)
    ensures Find(l + l', v) == if Find(l, v).Some? then Find(l, v) else Find(l', v)
  {
    if l == [] {
      assert l + l' == l';
    } else {
      assert (l + l')[1..] == l[1..] + l';
      FindAppend(l[1..], l', v);
    }
  }

  lemma {:induction false} FindMember(l: seq<Area>, v: nat)
    ensures Find(l, v).Some? ==> Find(l, v).value in l && Covers(Find(l, v).value, v)
    ensures Find(l, v).None? <==> forall i :: 0 <= i < |l| ==> !Covers(l[i], v)
  {
    if l != [] {
      FindMember(l[1..], v);
      assert l == [l[0]] + l[1..];
    }
  }
}
