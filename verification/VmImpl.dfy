/** The address-space operations as the kernel performs them, over area lists
    changed in place. */
module VmImpl {
  import opened Basics
  import opened Memory
  import opened PageIn
  import opened AddressSpace
  import opened Unmap
  import opened Fork
  import opened VmSystem
  import opened VmSteps
  import opened MemImpl

  /** The scan of vmmap_insert ends right after the areas that start earlier. */
  lemma {:induction false} InsertBetween(l: seq<Area>, a: Area, l': seq<Area>)
    requires forall b <- l :: b.start <= a.start
    requires l' != [] ==> l'[0].start > a.start && l'[0].end > a.end
    ensures Insert(l + l', a) == l + [a] + l'
  {
    if l == [] {
      assert l + l' == l';
    } else {
      assert (l + l')[1..] == l[1..] + l';
      InsertBetween(l[1..], a, l');
      assert l == [l[0]] + l[1..];
    }
  }

  lemma SplitOrder(m: Mem, t: nat)
    requires t in m.objs && t < m.next
    ensures t in AddShadow(AddShadow(m, t), t).objs
    ensures AddRef(AddShadow(AddShadow(m, t), t), t) == SplitTop(m, t)
  {
    assert AddRef(AddShadow(AddShadow(m, t), t), t).objs == SplitTop(m, t).objs;
  }

  /** What an iteration over the list has done and what it has still to do. */
  ghost predicate Cutting(m0: Mem, l0: seq<Area>, m: Mem, done: seq<Area>, todo: seq<Area>, lo: nat, hi: nat)
    requires lo <= hi
  {
    CutAll(m0, l0, lo, hi) == Cut(CutAll(m, todo, lo, hi).mem, done + CutAll(m, todo, lo, hi).areas)
  }

  lemma CuttingStep(m0: Mem, l0: seq<Area>, m: Mem, done: seq<Area>, todo: seq<Area>, lo: nat, hi: nat)
    requires lo <= hi && todo != [] && todo[0].obj in m.objs && Cutting(m0, l0, m, done, todo, lo, hi)
    ensures var c := CutOne(m, todo[0], lo, hi);
            Cutting(m0, l0, c.mem, done + c.areas, todo[1..], lo, hi)
  {
    hide CutOne;
    var c := CutOne(m, todo[0], lo, hi);
    var r := CutAll(c.mem, todo[1..], lo, hi);
    assert done + (c.areas + r.areas) == done + c.areas + r.areas;
  }

  class Vm {
    const store: MemStore
    var spaces: seq<seq<Area>>
    ghost var ext: multiset<nat>
    const user: Layout

    ghost function S(): Sys
      reads this, store
    {
      Sys(store.M(), spaces, ext)
    }

    ghost predicate Valid()
      reads this, store
    {
      LayoutOk(user) && SysInv(S(), user)
    }

    constructor (user: Layout)
      requires LayoutOk(user)
      ensures Valid() && S() == Sys(Mem(map[], 0), [], multiset{}) && this.user == user && fresh(store)
    {
      store := new MemStore();
      spaces := [];
      ext := multiset{};
      this.user := user;
    }

    /** Case 1 of vmmap_remove: the range lies inside the area. */
    method Split(a: Area, lo: nat, hi: nat) returns (left: Area, right: Area)
      requires a.start < lo <= hi < a.end && a.obj in store.objs && a.obj < store.next
      modifies store
      ensures CutOne(old(store.M()), a, lo, hi) == Cut(store.M(), [left, right])
    {
      ghost var m := store.M();
      left := a.(end := lo);
      right := Area(hi, a.end, a.off + hi - a.start, a.prot, a.priv, a.obj);
      if a.priv {
        var s1 := store.ShadowCreate(a.obj);
        var s2 := store.ShadowCreate(a.obj);
        left := left.(obj := s1);
        right := right.(obj := s2);
        store.Ref(a.obj);
        SplitOrder(m, a.obj);
      } else {
        store.Ref(a.obj);
      }
    }

    /** The body of the loop of vmmap_remove at position `k` of the list. */
    method RemoveAt(l: seq<Area>, k: nat, lo: nat, hi: nat) returns (r: seq<Area>)
      requires k < |l| && lo <= hi && l[k].start < l[k].end && l[k].obj in store.objs && l[k].obj < store.next
      requires PutOk(store.M(), l[k].obj)
      requires forall b <- l[..k] :: b.start <= l[k].start
      requires k + 1 < |l| ==> l[k].end <= l[k + 1].start < l[k + 1].end
      modifies store
      ensures var c := CutOne(old(store.M()), l[k], lo, hi);
              store.M() == c.mem && r == l[..k] + c.areas + l[k + 1..]
    {
      hide PutOk, Release, SplitTop, Insert, AddRef;
      var a := l[k];
      if lo > a.start && hi < a.end {
        var left, right := Split(a, lo, hi);
        r := l[k := left];
        assert r == (l[..k] + [left]) + l[k + 1..];
        InsertBetween(l[..k] + [left], right, l[k + 1..]);
        r := InsertArea(r, right);
        assert l[..k] + [left] + [right] == l[..k] + [left, right];
      } else if lo > a.start && lo < a.end && hi >= a.end {
        r := l[k := a.(end := lo)];
      } else if lo <= a.start && hi > a.start && hi < a.end {
        r := l[k := a.(start := hi, off := a.off + (hi - a.start))];
      } else if lo <= a.start && hi >= a.end {
        store.Put(a.obj);
        r := l[..k] + l[k + 1..];
      } else {
        r := l;
      }
    }

    /** vmmap_remove. `rem` counts the areas after the link the iteration has
        already read ahead, so an area inserted in Case 1 is not visited. */
    method Remove(i: nat, lo: nat, npages: nat)
      requires Valid() && i < |spaces|
      modifies this, store
      ensures S() == UnmapStep(old(S()), i, lo, lo + npages) && Valid()
    {
      hide SysInv, Removing, PutOk, CutOne, CutAll;
      ghost var s0, done := S(), [];
      UnmapMeaning(s0, user, i, lo, lo + npages);
      RemovingStart(s0, user, i, lo, lo + npages);
      var l := spaces[i];
      var rem := |l|;
      while rem > 0
        invariant 0 <= rem && Removing(s0.mem, s0.spaces[i], Others(s0, i), user, store.M(), done, l, rem, lo,
                                       lo + npages)
        invariant S() == s0.(mem := store.M())
      {
        RemovingReady(s0.mem, s0.spaces[i], Others(s0, i), user, store.M(), done, l, rem, lo, lo + npages);
        RemovingStep(s0.mem, s0.spaces[i], Others(s0, i), user, store.M(), done, l, rem, lo, lo + npages);
        done := done + CutOne(store.M(), l[|l| - rem], lo, lo + npages).areas;
        l := RemoveAt(l, |l| - rem, lo, lo + npages);
        rem := rem - 1;
      }
      RemovingEnd(s0.mem, s0.spaces[i], Others(s0, i), user, store.M(), done, l, lo, lo + npages);
      spaces := spaces[i := l];
    }

    /** vmmap_destroy: every area is taken off the list and its object put. */
    method Destroy(i: nat)
      requires Valid() && i < |spaces|
      modifies this, store
      ensures S() == DestroyStep(old(S()), user, i) && Valid()
    {
      hide SysInv, Removing, PutOk, CutOne, CutAll;
      ghost var s0 := S();
      DestroyMeaning(s0, user, i);
      RemovingStart(s0, user, i, user.low, user.high);
      var l := spaces[i];
      while l != []
        invariant |l| <= |s0.spaces[i]|
        invariant Removing(s0.mem, s0.spaces[i], Others(s0, i), user, store.M(), [], l, |l|, user.low, user.high)
        invariant S() == s0.(mem := store.M())
      {
        RemovingReady(s0.mem, s0.spaces[i], Others(s0, i), user, store.M(), [], l, |l|, user.low, user.high);
        RemovingStep(s0.mem, s0.spaces[i], Others(s0, i), user, store.M(), [], l, |l|, user.low, user.high);
        RemovingWhole(s0.mem, s0.spaces[i], Others(s0, i), user, store.M(), l);
        var o := l[0].obj;
        l := l[1..];
        store.Put(o);
      }
      RemovingEnd(s0.mem, s0.spaces[i], Others(s0, i), user, store.M(), [], l, user.low, user.high);
      spaces := spaces[i := []];
    }

    /** do_fork: the cloned list gets its objects, then the parent's list moves
        to new shadows. */
    method Fork(i: nat) returns (child: nat)
      requires Valid() && i < |spaces|
      modifies this, store
      ensures S() == ForkStep(old(S()), i) && Valid() && child == |old(spaces)|
    {
      hide SysInv, ChildAll, ParentAll;
      ForkMeaning(S(), user, i);
      ForkLive(S(), user, i);
      var new_list := ForkChild(spaces[i]);
      var moved := ForkParent(spaces[i]);
      spaces := spaces[i := moved] + [new_list];
      child := |spaces| - 1;
    }

    /** The first loop: the clone walks along the parent's list. */
    method ForkChild(old_list: seq<Area>) returns (new_list: seq<Area>)
      requires Live(store.M(), old_list) && Old(store.M(), old_list)
      modifies store
      ensures ChildAll(old(store.M()), old_list) == Cut(store.M(), new_list) && Live(store.M(), old_list)
    {
      hide ChildOne, ChildAll, Live, Old;
      ghost var m0 := store.M();
      new_list := old_list;
      var k := 0;
      ChildStart(m0, old_list);
      while k < |old_list|
        invariant k <= |old_list| == |new_list| && Live(store.M(), old_list) && Old(store.M(), old_list)
        invariant ChildAll(m0, old_list) ==
                  Cut(ChildAll(store.M(), old_list[k..]).mem, new_list[..k] + ChildAll(store.M(), old_list[k..]).areas)
      {
        ghost var m := store.M();
        LiveAt(m, old_list, k);
        ChildStep(m, old_list, k);
        var b := ChildArea(old_list[k]);
        LiveGrows(m, store.M(), old_list);
        new_list := new_list[k := b];
        assert new_list[..k + 1] == new_list[..k] + [b];
        k := k + 1;
      }
      assert old_list[k..] == [];
      ChildEnd(store.M());
      assert new_list[..k] + [] == new_list;
    }

    /** The second loop: the parent's list in place. */
    method ForkParent(old_list: seq<Area>) returns (moved: seq<Area>)
      requires Live(store.M(), old_list)
      modifies store
      ensures ParentAll(old(store.M()), old_list) == Cut(store.M(), moved)
    {
      hide ParentOne, ParentAll, Live, Old;
      ghost var m0 := store.M();
      moved := old_list;
      var k := 0;
      ParentStart(m0, old_list);
      while k < |moved|
        invariant k <= |moved| == |old_list| && moved[k..] == old_list[k..] && Live(store.M(), old_list)
        invariant ParentAll(m0, old_list) ==
                  Cut(ParentAll(store.M(), old_list[k..]).mem, moved[..k] + ParentAll(store.M(), old_list[k..]).areas)
      {
        ghost var m := store.M();
        LiveAt(m, old_list, k);
        ParentStep(m, old_list, k);
        assert moved[k] == moved[k..][0] == old_list[k];
        var b := ParentArea(moved[k]);
        LiveGrows(m, store.M(), old_list);
        moved := moved[k := b];
        assert moved[..k + 1] == moved[..k] + [b];
        assert moved[k + 1..] == old_list[k..][1..] == old_list[k + 1..];
        k := k + 1;
      }
      assert old_list[k..] == [];
      ParentEnd(store.M());
      assert moved[..k] + [] == moved;
    }

    method ChildArea(a: Area) returns (b: Area)
      requires a.obj in store.objs && a.obj < store.next
      modifies store
      ensures ChildOne(old(store.M()), a) == Cut(store.M(), [b])
      ensures old(store.objs.Keys) <= store.objs.Keys && old(store.next) <= store.next
    {
      ghost var m := store.M();
      b := a;
      if a.priv {
        var s := store.ShadowCreate(a.obj);
        b := a.(obj := s);
        ChildOrder(m, a.obj);
      }
      store.Ref(a.obj);
    }

    method ParentArea(a: Area) returns (b: Area)
      requires a.obj in store.objs
      modifies store
      ensures ParentOne(old(store.M()), a) == Cut(store.M(), [b])
      ensures old(store.objs.Keys) <= store.objs.Keys && old(store.next) <= store.next
    {
      b := a;
      if a.priv {
        var s := store.ShadowCreate(a.obj);
        b := a.(obj := s);
      }
    }

    /** The end of vmmap_map, once [start, start + n) is free: objects and area.
        A file's own mmap operation hands its object over with a reference. */
    method AddArea(i: nat, file: Option<nat>, start: nat, n: nat, prot: set<Perm>, priv: bool, off: nat)
      requires i < |spaces| && (file.Some? ==> file.value in store.objs)
      modifies this, store
      ensures var (m, o) := BackWith(old(store.M()), file, priv);
              S() == Replaced(old(S()), i, m, Insert(old(spaces[i]), Area(start, start + n, off, prot, priv, o)))
    {
      var base: nat;
      if file.None? { base := store.AnonCreate(); } else { base := file.value; store.Ref(base); }
      var obj := base;
      if priv { obj := store.ShadowCreate(base); }
      var l := InsertArea(spaces[i], Area(start, start + n, off, prot, priv, obj));
      spaces := spaces[i := l];
    }

    /** The beginning of vmmap_map: a free range, found or cut out. */
    method MakeRoom(i: nat, lopage: nat, n: nat, dir: Dir) returns (r: int, start: nat)
      requires Valid() && i < |spaces| && 0 < n < WRAP
      modifies this, store
      ensures Valid() && -1 <= r
      ensures lopage != 0 ==> r == 0 && start == lopage
      ensures lopage == 0 ==> RoomFound(old(spaces[i]), user, n, dir, r) && (r == -1 || r == start)
      ensures S() == if r == -1 then old(S()) else UnmapStep(old(S()), i, start, start + n)
    {
      hide SysInv, UnmapStep, BestFit;
      ghost var s0 := S();
      SpaceBacked(s0, user, i);
      r, start := 0, lopage;
      if lopage != 0 {
        UnmapVacant(s0, user, i, lopage, lopage + n);
        var empty := IsRangeEmpty(spaces[i], lopage, n);
        if !empty { Remove(i, lopage, n); }
      } else {
        r := FindRange(spaces[i], user, n, dir);
        BestFitIs(spaces[i], user, n, dir, r);
        if r < 0 { return -1, 0; }
        start := r;
        UnmapVacant(s0, user, i, start, start + n);
      }
    }

    /** vmmap_map. `start` is the first page of the new area. An oversized request in
        an empty space, which vmmap_find_range does not notice, is refused only if its
        32-bit answer is negative; otherwise the area leaves the user range. */
    method Map(i: nat, file: Option<nat>, lopage: nat, n: nat, prot: set<Perm>, priv: bool, off: nat, dir: Dir)
      returns (r: int, start: nat)
      requires Valid() && i < |spaces| && 0 < n < WRAP && 0 < user.low
      requires lopage == 0 || (user.low <= lopage && lopage + n <= user.high)
      requires file.Some? ==> file.value in ext
      modifies this, store
      ensures lopage != 0 ==> r >= 0 && start == lopage
      ensures lopage == 0 ==> RoomFound(old(spaces[i]), user, n, dir, if r < 0 then -1 else start)
      ensures S() == if r < 0 then old(S()) else MapStep(old(S()), i, start, n, prot, priv, file, off)
      ensures Valid() <==> r < 0 || !(lopage == 0 && Oversized(old(spaces[i]), user, n))
    {
      hide SysInv, CutAll, BackWith, Insert, UnmapStep, MapStep, Vacant, RoomFound;
      ghost var s0 := S();
      r, start := MakeRoom(i, lopage, n, dir);
      if r == -1 { return; }
      MapIsAdd(s0, user, i, file, start, n, prot, priv, off);
      if lopage == 0 && Oversized(s0.spaces[i], user, n) {
        TooLarge(s0, user, i, file, start, n, prot, priv, off);
      } else {
        if lopage == 0 { RoomFits(s0.spaces[i], user, n, dir, r); }
        MapMeaning(s0, user, i, start, n, prot, priv, file, off);
      }
      AddArea(i, file, start, n, prot, priv, off);
      if file.Some? { r := 0; }
    }
  }

  /** A request that cannot fit, in a space where nobody checks. */
  predicate Oversized(l: seq<Area>, u: Layout, n: nat) {
    l == [] && n > u.high - u.low
  }

  /** What vmmap_map makes of the answer of vmmap_find_range; -1 is refusal. */
  ghost predicate RoomFound(l: seq<Area>, u: Layout, n: nat, dir: Dir, r: int) {
    if Oversized(l, u, n) then
      var at := if dir == LoHi then u.low else AsInt(u.high - n);
      r == if at < 0 then -1 else at
    else BestFit(l, u, n, dir, r)
  }

  lemma BestFitIs(l: seq<Area>, u: Layout, n: nat, dir: Dir, r: int)
    requires LayoutOk(u) && 0 < n
    ensures BestFit(l, u, n, dir, r) ==> r == -1 || Vacant(l, r, r + n)
    ensures BestFit(l, u, n, dir, r) && r < 0 ==> r == -1
  {
  }

  lemma RoomFits(l: seq<Area>, u: Layout, n: nat, dir: Dir, r: int)
    requires RoomFound(l, u, n, dir, r) && !Oversized(l, u, n) && r >= 0
    ensures u.low <= r && r + n <= u.high
  {
  }

  /** An area larger than the user range leaves it. */
  lemma TooLarge(s: Sys, u: Layout, i: nat, file: Option<nat>, start: nat, n: nat, prot: set<Perm>, priv: bool,
                 off: nat)
    requires SysInv(s, u) && i < |s.spaces| && (file.Some? ==> file.value in s.ext) && Oversized(s.spaces[i], u, n)
    ensures !SysInv(MapStep(s, i, start, n, prot, priv, file, off), u)
  {
    ExtInMem(s, u, i, file);
    var s' := MapStep(s, i, start, n, prot, priv, file, off);
    hide SysInv, BackWith;
    var (m, o) := BackWith(s.mem, file, priv);
    assert s'.spaces[i] == [Area(start, start + n, off, prot, priv, o)];
    NotOrdered(s', u, i);
  }

  lemma ExtInMem(s: Sys, u: Layout, i: nat, file: Option<nat>)
    requires SysInv(s, u) && i < |s.spaces| && (file.Some? ==> file.value in s.ext)
    ensures file.Some? ==> file.value in s.mem.objs
  {
    if file.Some? { ExtIsFile(s, u, i, file.value); }
  }

  lemma NotOrdered(s: Sys, u: Layout, i: nat)
    requires i < |s.spaces| && s.spaces[i] != [] && !InUser(s.spaces[i][0], u)
    ensures !SysInv(s, u)
  {
  }

  /** The state of the loop of vmmap_remove with `rem` areas to go. */
  ghost predicate Removing(m0: Mem, l0: seq<Area>, held: multiset<nat>, u: Layout, m: Mem, done: seq<Area>,
                           l: seq<Area>, rem: nat, lo: nat, hi: nat) {
    && lo <= hi && rem <= |l0| && l == done + l0[|l0| - rem..]
    && Ordered(l0, u)
    && Cutting(m0, l0, m, done, l0[|l0| - rem..], lo, hi)
    && Backed(m, held + ObjsOf(done), l0[|l0| - rem..])
    && (rem > 0 ==> forall b <- done :: b.start <= l0[|l0| - rem].start)
  }

  lemma RemovingStart(s: Sys, u: Layout, i: nat, lo: nat, hi: nat)
    requires SysInv(s, u) && i < |s.spaces| && lo <= hi
    ensures Removing(s.mem, s.spaces[i], Others(s, i), u, s.mem, [], s.spaces[i], |s.spaces[i]|, lo, hi)
  {
    hide SysInv, Inv, CutAll, Sole, Others, Ordered, HeldBy;
    SpaceBacked(s, u, i);
    var l := s.spaces[i];
    assert l[|l| - |l|..] == l && [] + l == l;
    assert [] + CutAll(s.mem, l, lo, hi).areas == CutAll(s.mem, l, lo, hi).areas;
    assert Others(s, i) + ObjsOf([]) == Others(s, i);
  }

  lemma RemovingEnd(m0: Mem, l0: seq<Area>, held: multiset<nat>, u: Layout, m: Mem, done: seq<Area>,
                    l: seq<Area>, lo: nat, hi: nat)
    requires Removing(m0, l0, held, u, m, done, l, 0, lo, hi)
    ensures lo <= hi && CutAll(m0, l0, lo, hi) == Cut(m, l)
  {
    hide Backed, Ordered;
    assert l0[|l0| - 0..] == [];
    assert done + [] == done;
  }

  lemma RemovingParts(m0: Mem, l0: seq<Area>, held: multiset<nat>, u: Layout, m: Mem, done: seq<Area>,
                      l: seq<Area>, rem: nat, lo: nat, hi: nat)
    requires Removing(m0, l0, held, u, m, done, l, rem, lo, hi) && rem > 0
    ensures |l| - rem == |done| && l[..|done|] == done
    ensures l[|done|] == l0[|l0| - rem] && l[|done| + 1..] == l0[|l0| - rem..][1..] == l0[|l0| - (rem - 1)..]
    ensures l[|done|] == l0[|l0| - rem..][0]
  {
    hide Backed, Cutting, Ordered;
  }

  lemma RemovingReady(m0: Mem, l0: seq<Area>, held: multiset<nat>, u: Layout, m: Mem, done: seq<Area>,
                      l: seq<Area>, rem: nat, lo: nat, hi: nat)
    requires Removing(m0, l0, held, u, m, done, l, rem, lo, hi) && rem > 0
    ensures lo <= hi && 0 <= |l| - rem < |l|
    ensures var k := |l| - rem;
            && l[k].obj in m.objs && l[k].start < l[k].end && l[k].obj < m.next && PutOk(m, l[k].obj)
            && (forall b <- l[..k] :: b.start <= l[k].start)
            && (k + 1 < |l| ==> l[k].end <= l[k + 1].start < l[k + 1].end)
  {
    hide Backed, Cutting, PutOk;
    RemovingParts(m0, l0, held, u, m, done, l, rem, lo, hi);
    var j := |l0| - rem;
    RemoveReady(m, held + ObjsOf(done), l0[j..]);
    assert InUser(l0[j], u);
    if rem > 1 { assert l[|done| + 1] == l0[j + 1] && InUser(l0[j + 1], u) && l0[j].end <= l0[j + 1].start; }
  }

  lemma RemovingStep(m0: Mem, l0: seq<Area>, held: multiset<nat>, u: Layout, m: Mem, done: seq<Area>,
                     l: seq<Area>, rem: nat, lo: nat, hi: nat)
    requires Removing(m0, l0, held, u, m, done, l, rem, lo, hi) && rem > 0
    requires lo <= hi && 0 <= |l| - rem < |l| && l[|l| - rem].obj in m.objs
    ensures var k := |l| - rem;
            var c := CutOne(m, l[k], lo, hi);
            Removing(m0, l0, held, u, c.mem, done + c.areas, l[..k] + c.areas + l[k + 1..], rem - 1, lo, hi)
  {
    hide Backed, Cutting, CutOne, Ordered, ObjsOf;
    RemovingParts(m0, l0, held, u, m, done, l, rem, lo, hi);
    var todo := l0[|l0| - rem..];
    CutHead(m, held + ObjsOf(done), todo, lo, hi);
    CuttingStep(m0, l0, m, done, todo, lo, hi);
    var c := CutOne(m, todo[0], lo, hi);
    ObjsOfAppend(done, c.areas);
    Shuffle(held, ObjsOf(done), ObjsOf(c.areas));
    PiecesStart(m, l0, |l0| - rem, done, lo, hi, u);
    assert l[..|done|] + c.areas + l[|done| + 1..] == done + c.areas + todo[1..];
  }

  /** What is left of an area starts before the next area. */
  lemma PiecesStart(m: Mem, l0: seq<Area>, j: nat, done: seq<Area>, lo: nat, hi: nat, u: Layout)
    requires Ordered(l0, u) && j < |l0| && lo <= hi && l0[j].obj in m.objs
    requires forall b <- done :: b.start <= l0[j].start
    ensures j + 1 < |l0| ==> forall b <- done + CutOne(m, l0[j], lo, hi).areas :: b.start <= l0[j + 1].start
  {
    hide CutOne;
    assert InUser(l0[j], u);
    CutOneInside(m, l0[j], lo, hi, u);
    var c := CutOne(m, l0[j], lo, hi);
    if j + 1 < |l0| {
      assert l0[j].end <= l0[j + 1].start;
      hide Ordered;
      forall b <- done + c.areas ensures b.start <= l0[j + 1].start { assert b in done || b in c.areas; }
    }
  }

  /** Over the whole user range an area goes entirely. */
  lemma RemovingWhole(m0: Mem, l0: seq<Area>, held: multiset<nat>, u: Layout, m: Mem, l: seq<Area>)
    requires Removing(m0, l0, held, u, m, [], l, |l|, u.low, u.high) && l != [] && l[0].obj in m.objs
    ensures u.low <= u.high
    ensures CutOne(m, l[0], u.low, u.high) == Cut(Release(m, l[0].obj), [])
    ensures l[..0] + [] + l[0 + 1..] == l[1..]
  {
    hide Backed, Cutting, Release;
    RemovingParts(m0, l0, held, u, m, [], l, |l|, u.low, u.high);
    assert InUser(l0[|l0| - |l|], u);
  }

  lemma RemoveReady(m: Mem, held: multiset<nat>, todo: seq<Area>)
    requires todo != [] && Backed(m, held, todo)
    ensures todo[0].obj in m.objs && todo[0].obj < m.next && PutOk(m, todo[0].obj)
  {
    hide Inv, PutOk;
    BackedHead(m, held, todo);
    HolderMayPut(m, held + ObjsOf(todo[1..]), todo[0].obj);
    InvObjOk(m, held + ObjsOf(todo[1..]) + multiset{todo[0].obj}, todo[0].obj);
  }

  // ---------------------------------------------------------------------
  // The loops of fork
  // ---------------------------------------------------------------------

  predicate Old(m: Mem, l: seq<Area>) {
    forall a <- l :: a.obj < m.next
  }

  lemma ForkLive(s: Sys, u: Layout, i: nat)
    requires SysInv(s, u) && i < |s.spaces|
    ensures Live(s.mem, s.spaces[i]) && Old(s.mem, s.spaces[i])
  {
    SpaceBacked(s, u, i);
    BackedLive(s.mem, Others(s, i), s.spaces[i]);
    OldIsOld(s.mem, Others(s, i) + ObjsOf(s.spaces[i]), s.spaces[i]);
  }

  lemma LiveAt(m: Mem, l: seq<Area>, k: nat)
    requires Live(m, l) && k < |l|
    ensures l[k].obj in m.objs && (Old(m, l) ==> l[k].obj < m.next)
  {
    assert l[k] in l;
  }

  lemma LiveGrows(m: Mem, m': Mem, l: seq<Area>)
    requires Live(m, l) && m.objs.Keys <= m'.objs.Keys && m.next <= m'.next
    ensures Live(m', l) && (Old(m, l) ==> Old(m', l))
  {
  }

  lemma ChildOrder(m: Mem, t: nat)
    requires t in m.objs && t < m.next
    ensures t in AddShadow(m, t).objs && AddRef(AddShadow(m, t), t) == AddShadow(AddRef(m, t), t)
  {
    assert AddRef(AddShadow(m, t), t).objs == AddShadow(AddRef(m, t), t).objs;
  }

  lemma ChildStart(m: Mem, l: seq<Area>)
    ensures ChildAll(m, l) == Cut(ChildAll(m, l[0..]).mem, l[..0] + ChildAll(m, l[0..]).areas)
  {
    assert l[0..] == l;
    assert l[..0] + ChildAll(m, l).areas == ChildAll(m, l).areas;
  }

  lemma ChildStep(m: Mem, l: seq<Area>, k: nat)
    requires k < |l| && l[k].obj in m.objs
    ensures var c := ChildOne(m, l[k]);
            ChildAll(m, l[k..]) == Cut(ChildAll(c.mem, l[k + 1..]).mem, c.areas + ChildAll(c.mem, l[k + 1..]).areas)
  {
    assert l[k..][1..] == l[k + 1..];
  }

  lemma ChildEnd(m: Mem)
    ensures ChildAll(m, []) == Cut(m, [])
  {
  }

  lemma ParentStart(m: Mem, l: seq<Area>)
    ensures ParentAll(m, l) == Cut(ParentAll(m, l[0..]).mem, l[..0] + ParentAll(m, l[0..]).areas)
  {
    assert l[0..] == l;
    assert l[..0] + ParentAll(m, l).areas == ParentAll(m, l).areas;
  }

  lemma ParentStep(m: Mem, l: seq<Area>, k: nat)
    requires k < |l| && l[k].obj in m.objs
    ensures var c := ParentOne(m, l[k]);
            ParentAll(m, l[k..]) == Cut(ParentAll(c.mem, l[k + 1..]).mem, c.areas + ParentAll(c.mem, l[k + 1..]).areas)
  {
    assert l[k..][1..] == l[k + 1..];
  }

  lemma ParentEnd(m: Mem)
    ensures ParentAll(m, []) == Cut(m, [])
  {
  }

  // ---------------------------------------------------------------------
  // Mapping
  // ---------------------------------------------------------------------

  lemma {:induction false} CutVacant(m: Mem, l: seq<Area>, lo: nat, hi: nat)
    requires lo <= hi && Vacant(l, lo, hi) && Proper(l)
    ensures CutAll(m, l, lo, hi) == Cut(m, l)
    decreases |l|
  {
    if l != [] && l[0].obj in m.objs {
      assert Apart(l[0], lo, hi) && l[0] in l;
      forall i | 0 <= i < |l[1..]| ensures Apart(l[1..][i], lo, hi) { assert l[1..][i] == l[i + 1]; }
      CutVacant(m, l[1..], lo, hi);
      assert [l[0]] + l[1..] == l;
    }
  }

  lemma UnmapVacant(s: Sys, u: Layout, i: nat, lo: nat, hi: nat)
    requires SysInv(s, u) && i < |s.spaces| && lo <= hi
    ensures Vacant(s.spaces[i], lo, hi) ==> UnmapStep(s, i, lo, hi) == s
  {
    if Vacant(s.spaces[i], lo, hi) {
      SpaceBacked(s, u, i);
      CutVacant(s.mem, s.spaces[i], lo, hi);
      assert s.spaces[i := s.spaces[i]] == s.spaces;
    }
  }
}
