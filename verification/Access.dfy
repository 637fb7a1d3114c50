/** Page faults, permission checks and copies between user and kernel memory. */
module Access {
  import opened Basics
  import opened Memory
  import opened PageIn
  import opened AddressSpace
  import opened Unmap
  import opened VmSystem
  import opened VmSteps
  import opened VmRuns
  import opened VmImpl

  // ---------------------------------------------------------------------
  // Permissions
  // ---------------------------------------------------------------------

  /** Does page `v` lie in an area granting `perm`? */
  predicate Grants(l: seq<Area>, v: nat, perm: set<Perm>) {
    Find(l, v).Some? && perm <= Find(l, v).value.prot
  }

  /** addr_perm */
  method AddrPerm(l: seq<Area>, vaddr: nat, perm: set<Perm>) returns (r: bool)
    ensures r <==> Grants(l, vaddr / PAGE_SIZE, perm)
  {
    var a := LookupArea(l, vaddr / PAGE_SIZE);
    return a.Some? && perm <= a.value.prot;
  }

  /** range_perm, on 32-bit addresses. */
  method RangePerm(l: seq<Area>, avaddr: nat, len: nat, perm: set<Perm>) returns (r: bool)
    requires avaddr < WRAP && len < WRAP
    ensures r <==> forall v :: avaddr / PAGE_SIZE <= v <= (avaddr + len - 1) % WRAP / PAGE_SIZE ==> Grants(l, v, perm)
    ensures 0 < len && avaddr + len <= WRAP ==>
              (r <==> forall x: nat :: avaddr <= x < avaddr + len ==> Grants(l, x / PAGE_SIZE, perm))
  {
    var startvfn, endvfn := avaddr / PAGE_SIZE, (avaddr + len - 1) % WRAP / PAGE_SIZE;
    if 0 < len && avaddr + len <= WRAP { BytesAreInPages(l, avaddr, len, perm); }
    var i := startvfn;
    while i <= endvfn
      invariant startvfn <= i
      invariant forall v :: startvfn <= v < i && v <= endvfn ==> Grants(l, v, perm)
      decreases endvfn + 1 - i
    {
      var ok := AddrPerm(l, i * PAGE_SIZE, perm);
      if !ok { return false; }
      i := i + 1;
    }
    return true;
  }

  /** Checking pages is checking bytes. */
  lemma BytesAreInPages(l: seq<Area>, a: nat, len: nat, perm: set<Perm>)
    requires 0 < len && a + len <= WRAP
    ensures (forall v :: a / PAGE_SIZE <= v <= (a + len - 1) % WRAP / PAGE_SIZE ==> Grants(l, v, perm)) <==>
            (forall x: nat :: a <= x < a + len ==> Grants(l, x / PAGE_SIZE, perm))
  {
    if forall x: nat :: a <= x < a + len ==> Grants(l, x / PAGE_SIZE, perm) {
      forall v | a / PAGE_SIZE <= v <= (a + len - 1) / PAGE_SIZE ensures Grants(l, v, perm) {
        var x := if v == a / PAGE_SIZE then a else v * PAGE_SIZE;
        assert x / PAGE_SIZE == v;
      }
    }
  }

  // ---------------------------------------------------------------------
  // Faults
  // ---------------------------------------------------------------------

  /** Every process sees in `s` what it saw in `s0`. */
  ghost predicate Alike(s0: Sys, s: Sys) {
    s.spaces == s0.spaces && s.ext == s0.ext && forall j: nat, w: nat :: SysAt(s, j, w) == SysAt(s0, j, w)
  }

  /** The lookup behind a fault at page `v` of area `a`. */
  function FaultLookup(m: Mem, a: Area, v: nat, write: bool, junk: Page): Lookup
    requires Covers(a, v)
  {
    if write then LookWrite(m, a.obj, PageOf(a, v), junk) else LookRead(m, a.obj, PageOf(a, v))
  }

  /** Object `o` has page `p` resident, with that content. */
  predicate Resides(m: Mem, o: nat, p: nat, content: Option<Page>) {
    o in m.objs && p in m.objs[o].frames && Some(m.objs[o].frames[p].data) == content
  }

  /** A permitted fault at page `v` of area `a`: the state is that after the lookup,
      which fails exactly if the page has no content; otherwise nobody sees a change,
      and the object returned has the page resident with what the process saw there,
      being the area's own object for a private write. */
  ghost predicate Faulted(s0: Sys, s: Sys, i: nat, a: Area, v: nat, write: bool, junk: Page, r: Option<nat>) {
    && Covers(a, v) && SysAt(s0, i, v).Some?
    && s == s0.(mem := FaultLookup(s0.mem, a, v, write, junk).mem)
    && (r.Some? <==> SysAt(s0, i, v).value.content.Some?)
    && (r.Some? ==> Alike(s0, s) && Resides(s.mem, r.value, PageOf(a, v), SysAt(s0, i, v).value.content))
    && (r.Some? && write && a.priv ==> r == Some(a.obj))
  }

  /** handle_pagefault: the frame to map (the object owning it), or None when the
      process is killed. The store itself happens after the return. */
  method HandlePagefault(vm: Vm, i: nat, vaddr: nat, write: bool, exec: bool, reserved: bool, junk: Page)
    returns (r: Option<nat>)
    requires vm.Valid() && i < |vm.spaces|
    modifies vm.store
    ensures vm.Valid()
    ensures var h := Hit(old(vm.S()), i, vaddr / PAGE_SIZE, write);
            if h.None? || reserved || (exec && Exec !in h.value.prot) then r.None? && vm.S() == old(vm.S())
            else Faulted(old(vm.S()), vm.S(), i, h.value, vaddr / PAGE_SIZE, write, junk, r)
  {
    hide SysInv, Faulted;
    var v := vaddr / PAGE_SIZE;
    HitCovers(vm.S(), i, v, write);
    var a := LookupArea(vm.spaces[i], v);
    if a.None? { return None; }
    if Read !in a.value.prot { return None; }
    if write && Write !in a.value.prot { return None; }
    if reserved { return None; }
    if exec && Exec !in a.value.prot { return None; }
    r := LookupPage(vm, i, a.value, v, write, junk);
  }

  /** lookuppage through the operations of the area's object */
  method LookupPage(vm: Vm, i: nat, a: Area, v: nat, write: bool, junk: Page) returns (r: Option<nat>)
    requires vm.Valid() && i < |vm.spaces| && Find(vm.spaces[i], v) == Some(a) && a in vm.spaces[i] && Covers(a, v)
    modifies vm.store
    ensures vm.Valid() && Faulted(old(vm.S()), vm.S(), i, a, v, write, junk, r)
  {
    ghost var s := vm.S();
    FaultedOk(s, vm.user, i, a, v, write, junk);
    AreaLives(s, vm.user, i, a);
    BaseLookups(s.mem, a.obj, PageOf(a, v), junk);
    hide SysInv, LookRead, LookWrite, Faulted, WellFormed;
    if write && vm.store.objs[a.obj].kind.Shadow? {
      r := vm.store.LookupForWrite(a.obj, PageOf(a, v), junk);
    } else {
      r := vm.store.LookupForRead(a.obj, PageOf(a, v), junk);
    }
    assert vm.S() == s.(mem := FaultLookup(s.mem, a, v, write, junk).mem);
  }

  lemma AreaLives(s: Sys, u: Layout, i: nat, a: Area)
    requires SysInv(s, u) && i < |s.spaces| && a in s.spaces[i]
    ensures a.obj in s.mem.objs && WellFormed(s.mem)
  {
    AreaObjLives(s, u, i, a);
  }

  /** The lookup of a fault does what `Faulted` says. */
  lemma FaultedOk(s: Sys, u: Layout, i: nat, a: Area, v: nat, write: bool, junk: Page)
    requires SysInv(s, u) && i < |s.spaces| && Find(s.spaces[i], v) == Some(a) && a in s.spaces[i] && Covers(a, v)
    ensures var l := FaultLookup(s.mem, a, v, write, junk);
            && SysInv(s.(mem := l.mem), u)
            && Faulted(s, s.(mem := l.mem), i, a, v, write, junk, if l.Found? then Some(l.owner) else None)
  {
    FaultReady(s, u, i, a, v, junk);
    hide SysInv, LookRead, LookWrite, View, Alike, SysAt;
  }

  /** At the end of a chain both lookups are one. */
  lemma BaseLookups(m: Mem, o: nat, p: nat, junk: Page)
    ensures o in m.objs && !m.objs[o].kind.Shadow? ==> LookWrite(m, o, p, junk) == LookRead(m, o, p)
  {
  }

  /** What a lookup at a mapped page will do. */
  lemma FaultReady(s: Sys, u: Layout, i: nat, a: Area, v: nat, junk: Page)
    requires SysInv(s, u) && i < |s.spaces| && Find(s.spaces[i], v) == Some(a) && a in s.spaces[i] && Covers(a, v)
    ensures a.obj in s.mem.objs && WellFormed(s.mem)
    ensures SysAt(s, i, v) == Some(CellOf(s.mem, a, v))
    ensures a.priv ==> s.mem.objs[a.obj].kind.Shadow?
    ensures var p := PageOf(a, v); var r := LookRead(s.mem, a.obj, p);
            && SysInv(s.(mem := r.mem), u) && Alike(s, s.(mem := r.mem)) && Delivers(s.mem, a.obj, p, r)
    ensures var p := PageOf(a, v); var r := LookWrite(s.mem, a.obj, p, junk);
            && SysInv(s.(mem := r.mem), u) && Delivers(s.mem, a.obj, p, r)
            && (r.Found? ==> Alike(s, s.(mem := r.mem)) && r.owner == a.obj)
  {
    AreaObjLives(s, u, i, a);
    assert Inv(s.mem, Holders(s));
    hide SysInv, Inv;
    ReadFaultMeaning(s, u, i, a, v);
    ReadIsInvisible(s.mem, a.obj, PageOf(a, v), Holders(s));
    WriteFaultReady(s, u, i, a, v, junk);
    PrivateIsShadow(s, u, i, a);
  }

  lemma PrivateIsShadow(s: Sys, u: Layout, i: nat, a: Area)
    requires SysInv(s, u) && i < |s.spaces| && a in s.spaces[i]
    ensures WellFormed(s.mem) && (a.priv ==> Sole(s.mem, a.obj))
  {
  }

  lemma WriteFaultReady(s: Sys, u: Layout, i: nat, a: Area, v: nat, junk: Page)
    requires SysInv(s, u) && i < |s.spaces| && a in s.spaces[i] && Covers(a, v) && a.obj in s.mem.objs
    ensures var p := PageOf(a, v); var r := LookWrite(s.mem, a.obj, p, junk);
            && SysInv(s.(mem := r.mem), u) && Delivers(s.mem, a.obj, p, r)
            && (r.Found? ==> Alike(s, s.(mem := r.mem)) && r.owner == a.obj)
  {
    var p := PageOf(a, v);
    var r := LookWrite(s.mem, a.obj, p, junk);
    assert Inv(s.mem, Holders(s));
    hide SysInv, Inv, LookWrite;
    WriteDelivers(s.mem, a.obj, p, junk, Holders(s));
    WriteSteady(s.mem, a.obj, p, junk);
    FilesStay(s, u, r.mem);
    SteadyInv(s, u, r.mem);
    if r.Found? {
      WriteSameViews(s.mem, a.obj, p, junk, Holders(s));
      SteadyCarries(s.mem, r.mem, HeldBy(s.spaces));
      forall j: nat, w: nat ensures SysAt(s.(mem := r.mem), j, w) == SysAt(s, j, w) {
        MemStepAt(s, r.mem, s.ext, j, w);
      }
    }
  }

  // ---------------------------------------------------------------------
  // vmmap_read
  // ---------------------------------------------------------------------

  /** The byte at address `x`; 0 where there is none. */
  function ByteAt(s: Sys, i: nat, x: nat): int {
    match SysAt(s, i, x / PAGE_SIZE)
    case Some(Cell(_, _, Some(page))) => page[x % PAGE_SIZE]
    case _ => 0
  }

  /** The bytes of addresses [lo, hi). */
  function Bytes(s: Sys, i: nat, lo: nat, hi: nat): seq<int>
    requires lo <= hi
  {
    seq(hi - lo, k requires 0 <= k < hi - lo => ByteAt(s, i, lo + k))
  }

  lemma PageBytes(s: Sys, i: nat, v: nat, page: Page, a: nat, b: nat)
    requires a <= b <= PAGE_SIZE && SysAt(s, i, v).Some? && SysAt(s, i, v).value.content == Some(page)
    ensures page[a..b] == Bytes(s, i, v * PAGE_SIZE + a, v * PAGE_SIZE + b)
  {
    hide SysAt;
    forall k | 0 <= k < b - a ensures page[a..b][k] == ByteAt(s, i, v * PAGE_SIZE + a + k) {
      assert (v * PAGE_SIZE + a + k) / PAGE_SIZE == v && (v * PAGE_SIZE + a + k) % PAGE_SIZE == a + k;
    }
  }

  lemma BytesAppend(s: Sys, i: nat, lo: nat, mid: nat, hi: nat)
    requires lo <= mid <= hi
    ensures Bytes(s, i, lo, mid) + Bytes(s, i, mid, hi) == Bytes(s, i, lo, hi)
  {
  }

  /** One page of the copy: lookup for reading, then the frame's content. */
  method ReadPage(vm: Vm, i: nat, v: nat, junk: Page) returns (r: Option<Page>)
    requires vm.Valid() && i < |vm.spaces| && SysAt(vm.S(), i, v).Some?
    modifies vm.store
    ensures vm.Valid() && Alike(old(vm.S()), vm.S())
    ensures r == SysAt(old(vm.S()), i, v).value.content
  {
    ghost var s0 := vm.S();
    var a := LookupArea(vm.spaces[i], v);
    FaultReady(s0, vm.user, i, a.value, v, junk);
    hide SysInv, LookRead, LookWrite, View, Alike;
    var o := vm.store.LookupForRead(a.value.obj, PageOf(a.value, v), junk);
    if o.None? { return None; }
    return Some(vm.store.objs[o.value].frames[PageOf(a.value, v)].data);
  }

  predicate Mapped(s: Sys, i: nat, first: nat, last: nat) {
    forall v :: first <= v <= last ==> SysAt(s, i, v).Some?
  }

  /** How many bytes vmmap_read delivers: all of them within one page, one fewer
      when the range crosses a page boundary. */
  function Delivered(vaddr: nat, count: nat): nat
    requires vaddr + count > 0
  {
    if count == 0 || vaddr / PAGE_SIZE == (vaddr + count - 1) / PAGE_SIZE then count else count - 1
  }

  /** vmmap_read: the bytes of the address space in order,
      as many as `Delivered`; failure exactly at the end of a mapped file. */
  method VmmapRead(vm: Vm, i: nat, vaddr: nat, count: nat, junk: Page) returns (ok: bool, buf: seq<int>)
    requires vm.Valid() && i < |vm.spaces| && vaddr + count > 0
    requires Mapped(vm.S(), i, vaddr / PAGE_SIZE, (vaddr + count - 1) / PAGE_SIZE)
    modifies vm.store
    ensures vm.Valid() && Alike(old(vm.S()), vm.S())
    ensures ok <==> forall v :: vaddr / PAGE_SIZE <= v <= (vaddr + count - 1) / PAGE_SIZE ==>
                      SysAt(old(vm.S()), i, v).value.content.Some?
    ensures ok ==> buf == Bytes(old(vm.S()), i, vaddr, vaddr + Delivered(vaddr, count))
  {
    hide SysAt, Bytes, CopiedTo, Alike;
    ghost var s0 := vm.S();
    CopyEnds(vaddr, count);
    AlikeSame(s0);
    var last_vaddr := vaddr + count - 1;
    var first_vfn, last_vfn := vaddr / PAGE_SIZE, last_vaddr / PAGE_SIZE;
    var offset := vaddr % PAGE_SIZE;
    buf := [];
    BytesEmpty(s0, i, vaddr);
    var v := first_vfn;
    while v <= last_vfn
      invariant first_vfn <= v <= last_vfn + 1
      invariant vm.Valid() && Alike(s0, vm.S())
      invariant forall w :: first_vfn <= w < v ==> SysAt(s0, i, w).value.content.Some?
      invariant buf == Bytes(s0, i, vaddr, CopiedTo(vaddr, count, v))
    {
      AlikeAt(s0, vm.S(), i, v);
      ghost var s1 := vm.S();
      var page := ReadPage(vm, i, v, junk);
      AlikeTrans(s0, s1, vm.S());
      if page.None? { return false, buf; }
      var from, to := 0, PAGE_SIZE;
      if v == first_vfn {
        from := offset;
        to := if offset + count < PAGE_SIZE then offset + count else PAGE_SIZE;
      } else if v == last_vfn {
        to := last_vaddr - last_vfn * PAGE_SIZE;
      }
      CopyStep(vaddr, count, v, from, to);
      PageBytes(s0, i, v, page.value, from, to);
      BytesAppend(s0, i, vaddr, v * PAGE_SIZE + from, v * PAGE_SIZE + to);
      buf := buf + page.value[from..to];
      v := v + 1;
    }
    ok := true;
  }

  /** The address up to which the copy is complete before page `v`. */
  function CopiedTo(vaddr: nat, count: nat, v: nat): (end: nat)
    requires vaddr + count > 0 && vaddr / PAGE_SIZE <= v
    ensures vaddr <= end
  {
    if v == vaddr / PAGE_SIZE then vaddr
    else if v > (vaddr + count - 1) / PAGE_SIZE then vaddr + Delivered(vaddr, count)
    else v * PAGE_SIZE
  }

  lemma BytesEmpty(s: Sys, i: nat, x: nat)
    ensures Bytes(s, i, x, x) == []
  {
  }

  lemma CopyEnds(vaddr: nat, count: nat)
    requires vaddr + count > 0
    ensures vaddr / PAGE_SIZE <= (vaddr + count - 1) / PAGE_SIZE + 1
    ensures CopiedTo(vaddr, count, vaddr / PAGE_SIZE) == vaddr
    ensures CopiedTo(vaddr, count, (vaddr + count - 1) / PAGE_SIZE + 1) == vaddr + Delivered(vaddr, count)
  {
  }

  /** Each page of the copy takes up where the one before ended. */
  lemma CopyStep(vaddr: nat, count: nat, v: nat, from: nat, to: nat)
    requires vaddr + count > 0 && vaddr / PAGE_SIZE <= v <= (vaddr + count - 1) / PAGE_SIZE
    requires var first, last := vaddr / PAGE_SIZE, (vaddr + count - 1) / PAGE_SIZE;
             if v == first then from == vaddr % PAGE_SIZE
               && to == (if from + count < PAGE_SIZE then from + count else PAGE_SIZE)
             else from == 0 && to == (if v == last then vaddr + count - 1 - last * PAGE_SIZE else PAGE_SIZE)
    ensures from <= to <= PAGE_SIZE && v * PAGE_SIZE + from == CopiedTo(vaddr, count, v)
    ensures v * PAGE_SIZE + to == CopiedTo(vaddr, count, v + 1)
  {
  }

  lemma AlikeSame(s: Sys)
    ensures Alike(s, s)
  {
  }

  lemma AlikeAt(s0: Sys, s: Sys, i: nat, v: nat)
    requires Alike(s0, s)
    ensures s.spaces == s0.spaces && SysAt(s, i, v) == SysAt(s0, i, v)
  {
  }

  lemma AlikeTrans(s0: Sys, s1: Sys, s2: Sys)
    requires Alike(s0, s1) && Alike(s1, s2)
    ensures Alike(s0, s2) && s2.spaces == s0.spaces
  {
  }

  /** Every page of the range has content. */
  predicate Readable(s: Sys, i: nat, first: nat, last: int) {
    forall v: nat :: first <= v <= last ==> SysAt(s, i, v).Some? && SysAt(s, i, v).value.content.Some?
  }

  /** copy_from_user of a range that does not wrap: refused exactly when some page of
      it is not readable, which for a non-empty range means some byte. A granted copy
      never meets an unmapped page, and fails exactly past the end of a file. */
  method CopyFromUser(vm: Vm, i: nat, uaddr: nat, nbytes: nat, junk: Page)
    returns (granted: bool, ok: bool, buf: seq<int>)
    requires vm.Valid() && i < |vm.spaces| && 0 < uaddr + nbytes <= WRAP && uaddr < WRAP && nbytes < WRAP
    modifies vm.store
    ensures vm.Valid() && Alike(old(vm.S()), vm.S())
    ensures granted <==> forall v :: uaddr / PAGE_SIZE <= v <= (uaddr + nbytes - 1) / PAGE_SIZE ==>
            Grants(old(vm.spaces[i]), v, {Read})
    ensures nbytes > 0 ==>
              (granted <==> forall x: nat :: uaddr <= x < uaddr + nbytes ==>
               Grants(old(vm.spaces[i]), x / PAGE_SIZE, {Read}))
    ensures granted ==> Mapped(old(vm.S()), i, uaddr / PAGE_SIZE, (uaddr + nbytes - 1) / PAGE_SIZE)
    ensures ok <==> granted && Readable(old(vm.S()), i, uaddr / PAGE_SIZE, (uaddr + nbytes - 1) / PAGE_SIZE)
    ensures ok ==> buf == Bytes(old(vm.S()), i, uaddr, uaddr + Delivered(uaddr, nbytes))
  {
    hide SysInv, Bytes, Alike, SysAt;
    AlikeSame(vm.S());
    granted := RangePerm(vm.spaces[i], uaddr, nbytes, {Read});
    ok, buf := false, [];
    if !granted { return; }
    GrantedIsMapped(vm.S(), i, uaddr / PAGE_SIZE, (uaddr + nbytes - 1) / PAGE_SIZE);
    ok, buf := VmmapRead(vm, i, uaddr, nbytes, junk);
  }

  lemma GrantedIsMapped(s: Sys, i: nat, first: nat, last: nat)
    requires i < |s.spaces| && forall v :: first <= v <= last ==> Grants(s.spaces[i], v, {Read})
    ensures Mapped(s, i, first, last)
  {
    forall v | first <= v <= last ensures SysAt(s, i, v).Some? {
      assert Grants(s.spaces[i], v, {Read});
    }
  }
}
