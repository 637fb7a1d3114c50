/** The index of resident pages (`pframe.c`): hash chains, per-object lists,
    the allocated and pinned lists with their counters, and writing back. */
module PageCache {
  import opened Basics

  datatype PFrame = PFrame(obj: nat, page: nat, pins: nat, dirty: bool, data: seq<int>)

  // ---------------------------------------------------------------------
  // Lists without repetition
  // ---------------------------------------------------------------------

  /** `list_remove`. */
  function Unlink(s: seq<nat>, x: nat): seq<nat> {
    if s == [] then [] else if s[0] == x then s[1..] else [s[0]] + Unlink(s[1..], x)
  }

  lemma {:induction false} UnlinkMembers(s: seq<nat>, x: nat)
    requires NoDup(s)
    ensures forall y :: y in Unlink(s, x) <==> y in s && y != x
    ensures NoDup(Unlink(s, x))
    ensures |Unlink(s, x)| == if x in s then |s| - 1 else |s|
  {
    if s != [] {
      assert s == [s[0]] + s[1..];
      assert forall y :: y in s <==> y == s[0] || y in s[1..];
      if s[0] == x {
        assert forall i :: 0 <= i < |s[1..]| ==> s[1..][i] == s[i + 1];
      } else {
        UnlinkMembers(s[1..], x);
        var r := Unlink(s[1..], x);
        assert forall i :: 0 <= i < |r| ==> r[i] in r;
        assert s[0] !in s[1..] by { assert forall i :: 0 <= i < |s[1..]| ==> s[1..][i] == s[i + 1]; }
      }
    }
  }

  lemma AppendNoDup(s: seq<nat>, x: nat)
    requires NoDup(s) && x !in s
    ensures NoDup(s + [x]) && NoDup([x] + s)
    ensures forall y :: y in s + [x] <==> y in s || y == x
    ensures forall y :: y in [x] + s <==> y in s || y == x
  {
  }

  // ---------------------------------------------------------------------
  // Consistency
  // ---------------------------------------------------------------------

  /** Every frame is on exactly one of the two lists, the one its pin count says. */
  ghost predicate ListsOk(frames: map<nat, PFrame>, alloc: seq<nat>, pinned: seq<nat>) {
    && NoDup(alloc) && NoDup(pinned)
    && (forall f :: f in alloc <==> f in frames && frames[f].pins == 0)
    && (forall f :: f in pinned <==> f in frames && frames[f].pins > 0)
  }

  function Bucket(obj: nat, page: nat, size: nat): nat
    requires size > 0
  {
    (obj + page) % size
  }

  /** The hash chains hold every frame once, under its own identity. */
  ghost predicate HashOk(frames: map<nat, PFrame>, chains: seq<seq<nat>>) {
    && |chains| > 0
    && (forall h :: 0 <= h < |chains| ==> NoDup(chains[h]))
    && (forall h, f :: 0 <= h < |chains| ==>
          (f in chains[h] <==> f in frames && Bucket(frames[f].obj, frames[f].page, |chains|) == h))
  }

  /** Each object's list holds its frames once, and its counter their number. */
  ghost predicate ResOk(frames: map<nat, PFrame>, res: map<nat, seq<nat>>, nres: map<nat, int>) {
    && res.Keys == nres.Keys
    && (forall o <- res :: NoDup(res[o]) && nres[o] == |res[o]|)
    && (forall o <- res, f :: f in res[o] <==> f in frames && frames[f].obj == o)
    && (forall f <- frames :: frames[f].obj in res)
  }

  /** No two frames have the same identity. */
  ghost predicate Unique(frames: map<nat, PFrame>) {
    forall f, g :: f in frames && g in frames && frames[f].obj == frames[g].obj && frames[f].page == frames[g].page ==>
      f == g
  }

  ghost predicate Resident(frames: map<nat, PFrame>, obj: nat, page: nat) {
    exists f :: f in frames && frames[f].obj == obj && frames[f].page == page
  }

  // ---------------------------------------------------------------------
  // Each part of the consistency under each kind of change
  // ---------------------------------------------------------------------

  /** Changing flags but no identity leaves the identity-based parts alone. */
  lemma SameIdentity(frames: map<nat, PFrame>, f: nat, x: PFrame, chains: seq<seq<nat>>, res: map<nat, seq<nat>>,
                     nres: map<nat, int>)
    requires f in frames && x.obj == frames[f].obj && x.page == frames[f].page
    requires HashOk(frames, chains) && ResOk(frames, res, nres) && Unique(frames)
    ensures HashOk(frames[f := x], chains) && ResOk(frames[f := x], res, nres) && Unique(frames[f := x])
  {
  }

  lemma HashAdd(frames: map<nat, PFrame>, chains: seq<seq<nat>>, f: nat, x: PFrame)
    requires HashOk(frames, chains) && f !in frames
    ensures var h := Bucket(x.obj, x.page, |chains|);
            HashOk(frames[f := x], chains[h := [f] + chains[h]])
  {
    var h := Bucket(x.obj, x.page, |chains|);
    AppendNoDup(chains[h], f);
  }

  lemma HashDrop(frames: map<nat, PFrame>, chains: seq<seq<nat>>, f: nat)
    requires HashOk(frames, chains) && f in frames
    ensures var h := Bucket(frames[f].obj, frames[f].page, |chains|);
            HashOk(frames - {f}, chains[h := Unlink(chains[h], f)])
  {
    var h := Bucket(frames[f].obj, frames[f].page, |chains|);
    UnlinkMembers(chains[h], f);
  }

  lemma ResAdd(frames: map<nat, PFrame>, res: map<nat, seq<nat>>, nres: map<nat, int>, f: nat, x: PFrame)
    requires ResOk(frames, res, nres) && f !in frames && x.obj in res
    ensures ResOk(frames[f := x], res[x.obj := [f] + res[x.obj]], nres[x.obj := nres[x.obj] + 1])
  {
    AppendNoDup(res[x.obj], f);
  }

  lemma ResDrop(frames: map<nat, PFrame>, res: map<nat, seq<nat>>, nres: map<nat, int>, f: nat)
    requires ResOk(frames, res, nres) && f in frames
    ensures var o := frames[f].obj;
            ResOk(frames - {f}, res[o := Unlink(res[o], f)], nres[o := nres[o] - 1])
  {
    UnlinkMembers(res[frames[f].obj], f);
  }

  lemma ListsAdd(frames: map<nat, PFrame>, alloc: seq<nat>, pinned: seq<nat>, f: nat, x: PFrame)
    requires ListsOk(frames, alloc, pinned) && f !in frames && x.pins == 0
    ensures ListsOk(frames[f := x], alloc + [f], pinned)
  {
    AppendNoDup(alloc, f);
  }

  lemma ListsDrop(frames: map<nat, PFrame>, alloc: seq<nat>, pinned: seq<nat>, f: nat)
    requires ListsOk(frames, alloc, pinned) && f in alloc
    ensures ListsOk(frames - {f}, Unlink(alloc, f), pinned) && |Unlink(alloc, f)| == |alloc| - 1
  {
    UnlinkMembers(alloc, f);
  }

  lemma ListsPin(frames: map<nat, PFrame>, alloc: seq<nat>, pinned: seq<nat>, f: nat)
    requires ListsOk(frames, alloc, pinned) && f in alloc
    ensures ListsOk(frames[f := frames[f].(pins := 1)], Unlink(alloc, f), pinned + [f])
    ensures |Unlink(alloc, f)| == |alloc| - 1
  {
    UnlinkMembers(alloc, f);
    AppendNoDup(pinned, f);
  }

  lemma ListsUnpin(frames: map<nat, PFrame>, alloc: seq<nat>, pinned: seq<nat>, f: nat)
    requires ListsOk(frames, alloc, pinned) && f in pinned
    ensures ListsOk(frames[f := frames[f].(pins := 0)], alloc + [f], Unlink(pinned, f))
    ensures |Unlink(pinned, f)| == |pinned| - 1
  {
    UnlinkMembers(pinned, f);
    AppendNoDup(alloc, f);
  }

  /** Back of the allocated list. */
  lemma ListsTouch(frames: map<nat, PFrame>, alloc: seq<nat>, pinned: seq<nat>, f: nat)
    requires ListsOk(frames, alloc, pinned) && f in alloc
    ensures ListsOk(frames, Unlink(alloc, f) + [f], pinned) && |Unlink(alloc, f) + [f]| == |alloc|
  {
    UnlinkMembers(alloc, f);
    AppendNoDup(Unlink(alloc, f), f);
  }

  // ---------------------------------------------------------------------
  // Least recently requested first
  // ---------------------------------------------------------------------

  /** The list is in the order of the frames' latest use. */
  ghost predicate InOrder(alloc: seq<nat>, used: map<nat, nat>, clock: nat) {
    && (forall f <- alloc :: f in used && used[f] < clock)
    && (forall i, j :: 0 <= i < j < |alloc| ==> alloc[i] in used && alloc[j] in used && used[alloc[i]] < used[alloc[j]])
  }

  lemma {:induction false} UnlinkInOrder(alloc: seq<nat>, used: map<nat, nat>, clock: nat, f: nat)
    requires InOrder(alloc, used, clock) && NoDup(alloc)
    ensures InOrder(Unlink(alloc, f), used, clock)
  {
    if alloc != [] {
      var t := alloc[1..];
      assert forall i :: 0 <= i < |t| ==> t[i] == alloc[i + 1];
      UnlinkInOrder(t, used, clock, f);
      UnlinkMembers(t, f);
      var r := Unlink(t, f);
      forall i | 0 <= i < |r| ensures used[alloc[0]] < used[r[i]] {
        assert r[i] in r;
        var j :| 0 <= j < |t| && t[j] == r[i];
        assert alloc[j + 1] == r[i];
      }
    }
  }

  lemma AppendInOrder(alloc: seq<nat>, used: map<nat, nat>, clock: nat, f: nat)
    requires InOrder(alloc, used, clock) && f !in alloc
    ensures InOrder(alloc + [f], used[f := clock], clock + 1)
  {
    assert forall i :: 0 <= i < |alloc| ==> alloc[i] in alloc;
  }

  // ---------------------------------------------------------------------
  // All of it together
  // ---------------------------------------------------------------------

  /** Everything the cache keeps, as values. */
  datatype Index = Index(
    frames: map<nat, PFrame>,
    chains: seq<seq<nat>>,
    alloc: seq<nat>,
    pinned: seq<nat>,
    nallocated: int,
    npinned: int,
    res: map<nat, seq<nat>>,
    nres: map<nat, int>,
    used: map<nat, nat>,
    clock: nat)

  ghost predicate IndexOk(x: Index) {
    && ListsOk(x.frames, x.alloc, x.pinned) && x.nallocated == |x.alloc| && x.npinned == |x.pinned|
    && HashOk(x.frames, x.chains) && ResOk(x.frames, x.res, x.nres) && Unique(x.frames)
    && InOrder(x.alloc, x.used, x.clock)
  }

  /** A frame is asked for, and is the most recently requested from now on. */
  function Touched(x: Index, f: nat): Index {
    x.(alloc := Unlink(x.alloc, f) + [f], used := x.used[f := x.clock], clock := x.clock + 1)
  }

  lemma TouchedOk(x: Index, f: nat)
    requires IndexOk(x) && f in x.alloc
    ensures IndexOk(Touched(x, f))
  {
    hide HashOk, ResOk, Unique;
    ListsTouch(x.frames, x.alloc, x.pinned, f);
    UnlinkInOrder(x.alloc, x.used, x.clock, f);
    UnlinkMembers(x.alloc, f);
    AppendInOrder(Unlink(x.alloc, f), x.used, x.clock, f);
    hide ListsOk, InOrder;
  }

  /** A new frame, unpinned, in front of its chain and its object's list. */
  function WithFrame(x: Index, f: nat, y: PFrame): Index
    requires |x.chains| > 0 && y.obj in x.res && y.obj in x.nres
  {
    var h := Bucket(y.obj, y.page, |x.chains|);
    x.(frames := x.frames[f := y], chains := x.chains[h := [f] + x.chains[h]], alloc := x.alloc + [f],
       nallocated := x.nallocated + 1, res := x.res[y.obj := [f] + x.res[y.obj]],
         nres := x.nres[y.obj := x.nres[y.obj] + 1],
       used := x.used[f := x.clock], clock := x.clock + 1)
  }

  lemma Sizes(x: Index)
    requires IndexOk(x)
    ensures |x.chains| > 0 && x.res.Keys == x.nres.Keys && Unique(x.frames)
    ensures forall f <- x.frames :: x.frames[f].obj in x.res
  {
  }

  lemma WithFrameOk(x: Index, f: nat, y: PFrame)
    requires IndexOk(x) && f !in x.frames && y.pins == 0 && y.obj in x.res && !Resident(x.frames, y.obj, y.page)
    ensures |x.chains| > 0 && y.obj in x.nres && IndexOk(WithFrame(x, f, y))
  {
    hide HashOk, ResOk, InOrder;
    Sizes(x);
    HashAdd(x.frames, x.chains, f, y);
    ResAdd(x.frames, x.res, x.nres, f, y);
    ListsAdd(x.frames, x.alloc, x.pinned, f, y);
    AppendInOrder(x.alloc, x.used, x.clock, f);
  }

  /** A frame off all lists. */
  function WithoutFrame(x: Index, f: nat): Index
    requires |x.chains| > 0 && f in x.frames && x.frames[f].obj in x.res && x.frames[f].obj in x.nres
  {
    var y := x.frames[f];
    var h := Bucket(y.obj, y.page, |x.chains|);
    x.(frames := x.frames - {f}, chains := x.chains[h := Unlink(x.chains[h], f)], alloc := Unlink(x.alloc, f),
       nallocated := x.nallocated - 1, res := x.res[y.obj := Unlink(x.res[y.obj], f)],
         nres := x.nres[y.obj := x.nres[y.obj] - 1])
  }

  lemma WithoutFrameOk(x: Index, f: nat)
    requires IndexOk(x) && f in x.frames && x.frames[f].pins == 0
    ensures |x.chains| > 0 && x.frames[f].obj in x.res && x.frames[f].obj in x.nres && IndexOk(WithoutFrame(x, f))
  {
    hide HashOk, ResOk, InOrder;
    Sizes(x);
    HashDrop(x.frames, x.chains, f);
    ResDrop(x.frames, x.res, x.nres, f);
    ListsDrop(x.frames, x.alloc, x.pinned, f);
    UnlinkInOrder(x.alloc, x.used, x.clock, f);
  }

  /** Flags and content of a frame change, its identity and its pins do not. */
  lemma ChangedOk(x: Index, f: nat, y: PFrame)
    requires IndexOk(x) && f in x.frames && y == x.frames[f].(dirty := y.dirty, data := y.data)
    ensures IndexOk(x.(frames := x.frames[f := y]))
  {
    SameIdentity(x.frames, f, y, x.chains, x.res, x.nres);
    hide HashOk, ResOk, Unique, InOrder;
  }

  function Pinned(x: Index, f: nat): Index
    requires f in x.frames
  {
    var y := x.frames[f].(pins := x.frames[f].pins + 1);
    if x.frames[f].pins > 0 then x.(frames := x.frames[f := y])
    else x.(frames := x.frames[f := y], alloc := Unlink(x.alloc, f), nallocated := x.nallocated - 1,
            pinned := x.pinned + [f], npinned := x.npinned + 1)
  }

  lemma PinnedOk(x: Index, f: nat)
    requires IndexOk(x) && f in x.frames
    ensures IndexOk(Pinned(x, f)) && (x.frames[f].pins == 0 ==> x.alloc != [])
  {
    hide HashOk, ResOk, Unique, InOrder, ListsOk;
    SameIdentity(x.frames, f, x.frames[f].(pins := x.frames[f].pins + 1), x.chains, x.res, x.nres);
    PinOk(x.frames, x.alloc, x.pinned, x.used, x.clock, f);
  }

  function Unpinned(x: Index, f: nat): Index
    requires f in x.frames && x.frames[f].pins > 0
  {
    var y := x.frames[f].(pins := x.frames[f].pins - 1);
    if x.frames[f].pins > 1 then x.(frames := x.frames[f := y])
    else x.(frames := x.frames[f := y], pinned := Unlink(x.pinned, f), npinned := x.npinned - 1,
            alloc := x.alloc + [f], nallocated := x.nallocated + 1, used := x.used[f := x.clock], clock := x.clock + 1)
  }

  lemma UnpinnedOk(x: Index, f: nat)
    requires IndexOk(x) && f in x.frames && x.frames[f].pins > 0
    ensures IndexOk(Unpinned(x, f)) && (x.frames[f].pins == 1 ==> x.pinned != [])
  {
    hide HashOk, ResOk, Unique, InOrder, ListsOk;
    SameIdentity(x.frames, f, x.frames[f].(pins := x.frames[f].pins - 1), x.chains, x.res, x.nres);
    UnpinOk(x.frames, x.alloc, x.pinned, x.used, x.clock, f);
  }

  /** Pinning an unpinned page finds it on a non-empty allocated list. */
  lemma PinOk(frames: map<nat, PFrame>, alloc: seq<nat>, pinned: seq<nat>, used: map<nat, nat>, clock: nat, f: nat)
    requires ListsOk(frames, alloc, pinned) && InOrder(alloc, used, clock) && f in frames
    ensures frames[f].pins == 0 ==>
              && alloc != [] && |Unlink(alloc, f)| == |alloc| - 1
              && ListsOk(frames[f := frames[f].(pins := 1)], Unlink(alloc, f), pinned + [f])
              && InOrder(Unlink(alloc, f), used, clock)
    ensures frames[f].pins > 0 ==> ListsOk(frames[f := frames[f].(pins := frames[f].pins + 1)], alloc, pinned)
  {
    if frames[f].pins == 0 {
      ListsPin(frames, alloc, pinned, f);
      UnlinkInOrder(alloc, used, clock, f);
    }
  }

  /** Unpinning a page for the last time finds it on a non-empty pinned list. */
  lemma UnpinOk(frames: map<nat, PFrame>, alloc: seq<nat>, pinned: seq<nat>, used: map<nat, nat>, clock: nat, f: nat)
    requires ListsOk(frames, alloc, pinned) && InOrder(alloc, used, clock) && f in frames && frames[f].pins > 0
    ensures frames[f].pins == 1 ==>
              && pinned != [] && |Unlink(pinned, f)| == |pinned| - 1
              && ListsOk(frames[f := frames[f].(pins := 0)], alloc + [f], Unlink(pinned, f))
              && InOrder(alloc + [f], used[f := clock], clock + 1)
    ensures frames[f].pins > 1 ==> ListsOk(frames[f := frames[f].(pins := frames[f].pins - 1)], alloc, pinned)
  {
    if frames[f].pins == 1 {
      ListsUnpin(frames, alloc, pinned, f);
      AppendInOrder(alloc, used, clock, f);
    }
  }

  // ---------------------------------------------------------------------
  // The disk behind it
  // ---------------------------------------------------------------------

  type Disk = map<(nat, nat), seq<int>>

  function Key(x: PFrame): (nat, nat) {
    (x.obj, x.page)
  }

  function OnDisk(disk: Disk, o: nat, page: nat): Option<seq<int>> {
    if (o, page) in disk then Some(disk[(o, page)]) else None
  }

  /** What a page holds: the resident copy, else what is on disk. */
  ghost function Content(frames: map<nat, PFrame>, disk: Disk, o: nat, page: nat): Option<seq<int>> {
    if Resident(frames, o, page) then
      var f :| f in frames && frames[f].obj == o && frames[f].page == page;
      Some(frames[f].data)
    else OnDisk(disk, o, page)
  }

  lemma ContentOf(frames: map<nat, PFrame>, disk: Disk, f: nat)
    requires Unique(frames) && f in frames
    ensures Content(frames, disk, frames[f].obj, frames[f].page) == Some(frames[f].data)
  {
  }

  /** A page that passes for clean is on disk. `anon` are the anonymous and shadow
      objects, which have no disk; their pages are pinned. Neither holds of the frames
      whose fill failed, `raw`. */
  predicate Kept(frames: map<nat, PFrame>, disk: Disk, anon: set<nat>, raw: set<nat>) {
    forall f <- frames :: f !in raw ==> FrameKept(frames[f], disk, anon)
  }

  predicate FrameKept(x: PFrame, disk: Disk, anon: set<nat>) {
    if x.obj in anon then x.pins > 0 else x.dirty || OnDisk(disk, x.obj, x.page) == Some(x.data)
  }

  /** The dirty ones of a list, in order. */
  function Dirties(frames: map<nat, PFrame>, l: seq<nat>): seq<nat> {
    if l == [] then []
    else
      var f := l[|l| - 1];
      Dirties(frames, l[..|l| - 1]) + (if f in frames && frames[f].dirty then [f] else [])
  }

  /** Is it written when it is cleaned? */
  predicate Written(x: PFrame, anon: set<nat>) {
    x.dirty && x.obj !in anon
  }

  /** The disk after the dirty ones of a list have been cleaned. */
  function Flushed(frames: map<nat, PFrame>, disk: Disk, l: seq<nat>, anon: set<nat>): Disk {
    if l == [] then disk
    else
      var f := l[|l| - 1];
      var d := Flushed(frames, disk, l[..|l| - 1], anon);
      if f in frames && Written(frames[f], anon) then d[Key(frames[f]) := frames[f].data] else d
  }

  lemma {:induction false} FlushedAt(frames: map<nat, PFrame>, disk: Disk, l: seq<nat>, anon: set<nat>, k: (nat, nat))
    requires Unique(frames)
    ensures forall f :: f in l && f in frames && Written(frames[f], anon) && Key(frames[f]) == k ==>
              OnDisk(Flushed(frames, disk, l, anon), k.0, k.1) == Some(frames[f].data)
    ensures (forall f :: f in l && f in frames && Written(frames[f], anon) ==> Key(frames[f]) != k) ==>
              OnDisk(Flushed(frames, disk, l, anon), k.0, k.1) == OnDisk(disk, k.0, k.1)
    decreases |l|
  {
    if l != [] {
      var front := l[..|l| - 1];
      FlushedAt(frames, disk, front, anon, k);
      assert l == front + [l[|l| - 1]];
      assert forall f :: f in l <==> f in front || f == l[|l| - 1];
    }
  }

  function Less(frames: map<nat, PFrame>, gone: seq<nat>): map<nat, PFrame> {
    frames - set f | f in gone
  }

  /** Did the page go without being written? */
  predicate Dropped(frames: map<nat, PFrame>, gone: seq<nat>, anon: set<nat>, o: nat, page: nat) {
    exists f <- gone :: f in frames && Key(frames[f]) == (o, page) && !Written(frames[f], anon)
  }

  /** After pages went, a page that went unwritten is what is on disk, and every other
      page is what it was. */
  lemma PagedOutContent(frames: map<nat, PFrame>, disk: Disk, gone: seq<nat>, anon: set<nat>, o: nat, page: nat)
    requires Unique(frames)
    ensures Content(Less(frames, gone), Flushed(frames, disk, gone, anon), o, page) ==
            if Dropped(frames, gone, anon, o, page) then OnDisk(disk, o, page) else Content(frames, disk, o, page)
  {
    var left, d := Less(frames, gone), Flushed(frames, disk, gone, anon);
    FlushedAt(frames, disk, gone, anon, (o, page));
    hide Flushed;
    if f :| f in frames && frames[f].obj == o && frames[f].page == page {
      ContentOf(frames, disk, f);
      if f in gone {
        assert !Resident(left, o, page);
        assert forall g :: g in gone && g in frames && Key(frames[g]) == (o, page) ==> g == f;
      } else {
        ContentOf(left, d, f);
      }
    } else {
      assert !Resident(left, o, page) && !Resident(frames, o, page);
    }
  }

  /** Does a frame whose fill failed hold the page? */
  predicate RawAt(frames: map<nat, PFrame>, raw: set<nat>, o: nat, page: nat) {
    exists f <- frames :: f in raw && Key(frames[f]) == (o, page)
  }

  /** The page is what it was; or it was junk, the junk is gone, and it is what is on disk. */
  ghost predicate SameOrRaw(frames0: map<nat, PFrame>, disk0: Disk, raw: set<nat>, frames: map<nat, PFrame>, disk: Disk,
                            o: nat, page: nat) {
    || Content(frames, disk, o, page) == Content(frames0, disk0, o, page)
    || (RawAt(frames0, raw, o, page) && Content(frames, disk, o, page) == OnDisk(disk0, o, page))
  }

  /** Paging out is invisible but for junk. */
  lemma PagedOutSame(frames: map<nat, PFrame>, disk: Disk, gone: seq<nat>, anon: set<nat>, raw: set<nat>,
                     o: nat, page: nat)
    requires Unique(frames) && Kept(frames, disk, anon, raw)
    requires forall f <- gone :: f in frames && frames[f].pins == 0
    ensures SameOrRaw(frames, disk, raw, Less(frames, gone), Flushed(frames, disk, gone, anon), o, page)
  {
    PagedOutContent(frames, disk, gone, anon, o, page);
    hide Flushed;
    if Dropped(frames, gone, anon, o, page) {
      var f :| f in gone && f in frames && Key(frames[f]) == (o, page) && !Written(frames[f], anon);
      ContentOf(frames, disk, f);
    }
  }

  lemma PagedOutKept(frames: map<nat, PFrame>, disk: Disk, gone: seq<nat>, anon: set<nat>, raw: set<nat>)
    requires Unique(frames) && Kept(frames, disk, anon, raw)
    ensures Kept(Less(frames, gone), Flushed(frames, disk, gone, anon), anon, raw)
  {
    var left, d := Less(frames, gone), Flushed(frames, disk, gone, anon);
    forall f <- left | f !in raw ensures FrameKept(left[f], d, anon) {
      FlushedAt(frames, disk, gone, anon, Key(frames[f]));
    }
  }

  /** Everything in `first` was last used before anything in `rest`. */
  ghost predicate Older(used: map<nat, nat>, first: seq<nat>, rest: seq<nat>) {
    forall f <- first, g <- rest :: f in used && g in used && used[f] < used[g]
  }

  lemma PrefixIsOlder(alloc: seq<nat>, used: map<nat, nat>, clock: nat, n: nat)
    requires InOrder(alloc, used, clock) && n <= |alloc|
    ensures Older(used, alloc[..n], alloc[n..])
  {
    forall f <- alloc[..n], g <- alloc[n..] ensures f in used && g in used && used[f] < used[g] {
      var i :| 0 <= i < n && alloc[i] == f;
      var j :| n <= j < |alloc| && alloc[j] == g;
    }
  }

  // ---------------------------------------------------------------------
  // The pageout loop
  // ---------------------------------------------------------------------

  /** `n` frames are gone, each written if it was dirty; if `cleaned`, the next one
      has been written too and is about to go. */
  ghost predicate Paging(frames0: map<nat, PFrame>, disk0: Disk, alloc0: seq<nat>, n: nat, cleaned: bool,
                         frames: map<nat, PFrame>, disk: Disk, written: seq<nat>, anon: set<nat>) {
    if cleaned then
      && n < |alloc0| && alloc0[n] in frames0 && frames0[alloc0[n]].dirty
      && frames == Less(frames0, alloc0[..n])[alloc0[n] := frames0[alloc0[n]].(dirty := false)]
      && disk == Flushed(frames0, disk0, alloc0[..n + 1], anon) && written == Dirties(frames0, alloc0[..n + 1])
    else
      && n <= |alloc0| && frames == Less(frames0, alloc0[..n])
      && disk == Flushed(frames0, disk0, alloc0[..n], anon) && written == Dirties(frames0, alloc0[..n])
  }

  lemma PagingStarts(frames: map<nat, PFrame>, disk: Disk, alloc: seq<nat>, anon: set<nat>)
    ensures Paging(frames, disk, alloc, 0, false, frames, disk, [], anon)
  {
    assert frames - {} == frames;
    assert (set f | f in alloc[..0]) == {};
  }

  lemma PagingHead(frames0: map<nat, PFrame>, disk0: Disk, alloc0: seq<nat>, n: nat, cleaned: bool,
                   frames: map<nat, PFrame>, disk: Disk, written: seq<nat>, anon: set<nat>)
    requires Paging(frames0, disk0, alloc0, n, cleaned, frames, disk, written, anon) && NoDup(alloc0)
    requires n < |alloc0| && alloc0[n] in frames0
    ensures alloc0[n] in frames
            && frames[alloc0[n]] == frames0[alloc0[n]].(dirty := frames0[alloc0[n]].dirty && !cleaned)
    ensures Unlink(alloc0[n..], alloc0[n]) == alloc0[n + 1..]
  {
    assert alloc0[n] !in alloc0[..n];
  }

  lemma PagingCleans(frames0: map<nat, PFrame>, disk0: Disk, alloc0: seq<nat>, n: nat,
                     frames: map<nat, PFrame>, disk: Disk, written: seq<nat>, anon: set<nat>)
    requires Paging(frames0, disk0, alloc0, n, false, frames, disk, written, anon) && NoDup(alloc0)
    requires n < |alloc0| && alloc0[n] in frames0 && frames0[alloc0[n]].dirty
    ensures var f := alloc0[n];
            Paging(frames0, disk0, alloc0, n, true, frames[f := frames0[f].(dirty := false)],
                   if frames0[f].obj in anon then disk else disk[Key(frames0[f]) := frames0[f].data],
                   written + [f], anon)
  {
    assert alloc0[..n + 1][..n] == alloc0[..n];
  }

  lemma PagingFrees(frames0: map<nat, PFrame>, disk0: Disk, alloc0: seq<nat>, n: nat, cleaned: bool,
                    frames: map<nat, PFrame>, disk: Disk, written: seq<nat>, anon: set<nat>)
    requires Paging(frames0, disk0, alloc0, n, cleaned, frames, disk, written, anon) && NoDup(alloc0)
    requires n < |alloc0| && alloc0[n] in frames && !frames[alloc0[n]].dirty
    ensures Paging(frames0, disk0, alloc0, n + 1, false, frames - {alloc0[n]}, disk, written, anon)
  {
    var gone := alloc0[..n + 1];
    assert gone[..n] == alloc0[..n] && gone == alloc0[..n] + [alloc0[n]];
    assert alloc0[n] !in alloc0[..n];
    assert frames - {alloc0[n]} == Less(frames0, gone);
  }

  // ---------------------------------------------------------------------
  // The cache
  // ---------------------------------------------------------------------

  class Cache {
    var frames: map<nat, PFrame>
    const hash: array<seq<nat>>
    var alloc_list: seq<nat>
    var pinned_list: seq<nat>
    var nallocated: int
    var npinned: int
    var res: map<nat, seq<nat>>
    var nres: map<nat, int>
    var free: nat                  // page_free_count()
    var disk: Disk                 // behind the objects' fillpage and cleanpage
    ghost var used: map<nat, nat>  // when a frame was last requested or unpinned
    ghost var clock: nat
    ghost var written: seq<nat>    // the frames cleaned so far
    ghost var raw: set<nat>        // the frames whose fill failed

    ghost function X(): Index
      reads this, hash
    {
      Index(frames, hash[..], alloc_list, pinned_list, nallocated, npinned, res, nres, used, clock)
    }

    ghost predicate Valid()
      reads this, hash
    {
      IndexOk(X())
    }

    /** pframe_init */
    constructor (buckets: nat, free: nat, disk: Disk)
      requires buckets > 0
      ensures Valid() && frames == map[] && this.free == free && this.disk == disk && written == [] && res == map[]
              && raw == {} && fresh(hash)
    {
      frames, res, nres := map[], map[], map[];
      alloc_list, pinned_list, nallocated, npinned := [], [], 0, 0;
      hash := new seq<nat>[buckets](_ => []);
      this.free, this.disk, written := free, disk, [];
      used, clock, raw := map[], 0, {};
      new;
      assert forall h :: 0 <= h < buckets ==> hash[..][h] == [];
    }

    /** mmobj_init: an object starts with no resident pages. */
    method AddObject(o: nat)
      requires Valid() && o !in res
      modifies `res, `nres
      ensures Valid() && X() == old(X()).(res := old(res)[o := []], nres := old(nres)[o := 0])
    {
      hide HashOk, ListsOk, Unique, InOrder;
      res := res[o := []];
      nres := nres[o := 0];
    }

    /** pframe_get_resident: found exactly if resident; an unpinned page that is
        asked for becomes the most recently requested. */
    method GetResident(o: nat, page: nat) returns (r: Option<nat>)
      requires Valid()
      modifies `alloc_list, `used, `clock
      ensures Valid()
      ensures r.Some? <==> Resident(frames, o, page)
      ensures r.Some? ==> r.value in frames && frames[r.value].obj == o && frames[r.value].page == page
      ensures X() == if r.Some? && frames[r.value].pins == 0 then Touched(old(X()), r.value) else old(X())
    {
      hide IndexOk, Resident;
      r := Search(o, page);
      if r.Some? && frames[r.value].pins == 0 {
        Unlisted(X(), r.value);
        Touch(r.value);
      }
    }

    /** The walk along one hash chain. */
    method Search(o: nat, page: nat) returns (r: Option<nat>)
      requires Valid()
      ensures r.Some? <==> Resident(frames, o, page)
      ensures r.Some? ==> r.value in frames && frames[r.value].obj == o && frames[r.value].page == page
    {
      Sizes(X());
      hide ListsOk, ResOk, InOrder, Unique;
      ghost var chains := hash[..];
      var h := Bucket(o, page, hash.Length);
      var chain := hash[h];
      assert chain == chains[h] && |chains| == hash.Length;
      var i := 0;
      while i < |chain|
        invariant i <= |chain|
        invariant forall k :: 0 <= k < i ==>
                  chain[k] in frames && !(frames[chain[k]].obj == o && frames[chain[k]].page == page)
      {
        var f := chain[i];
        assert f in chains[h];
        if frames[f].obj == o && frames[f].page == page { return Some(f); }
        i := i + 1;
      }
      NotInChain(frames, chains, o, page);
      return None;
    }

    /** The list move of pframe_get_resident. */
    method Touch(f: nat)
      requires Valid() && f in alloc_list
      modifies `alloc_list, `used, `clock
      ensures Valid() && X() == Touched(old(X()), f)
    {
      hide IndexOk;
      TouchedOk(X(), f);
      alloc_list := Unlink(alloc_list, f);
      alloc_list := alloc_list + [f];
      used, clock := used[f := clock], clock + 1;
    }

    /** pframe_alloc: a free page, if there is one, becomes a resident page with
        whatever is in it. */
    method Alloc(o: nat, page: nat, f: nat, junk: seq<int>) returns (ok: bool)
      requires Valid() && o in res && o in nres && hash.Length > 0 && !Resident(frames, o, page) && f !in frames
      modifies `frames, `alloc_list, `nallocated, `res, `nres, `free, `used, `clock, hash
      ensures Valid() && (ok <==> old(free) > 0)
      ensures X() == if ok then WithFrame(old(X()), f, PFrame(o, page, 0, false, junk)) else old(X())
      ensures free == if ok then old(free) - 1 else old(free)
    {
      hide IndexOk, Resident;
      if free == 0 { return false; }
      var y := PFrame(o, page, 0, false, junk);
      WithFrameOk(X(), f, y);
      ghost var x := X();
      free := free - 1;
      Enlist(f, y);
      Link(Bucket(o, page, hash.Length), f);
      Attach(o, f);
      assert X() == WithFrame(x, f, y);
      return true;
    }

    /** A new frame at the end of the allocated list. */
    method Enlist(f: nat, y: PFrame)
      modifies `frames, `alloc_list, `nallocated, `used, `clock
      ensures frames == old(frames)[f := y] && alloc_list == old(alloc_list) + [f] && nallocated == old(nallocated) + 1
      ensures used == old(used)[f := old(clock)] && clock == old(clock) + 1
    {
      nallocated := nallocated + 1;
      alloc_list := alloc_list + [f];
      frames := frames[f := y];
      used, clock := used[f := clock], clock + 1;
    }

    /** ... and in front of its object's list. */
    method Attach(o: nat, f: nat)
      requires o in res && o in nres
      modifies `res, `nres
      ensures res == old(res)[o := [f] + old(res)[o]] && nres == old(nres)[o := old(nres)[o] + 1]
    {
      nres := nres[o := nres[o] + 1];
      res := res[o := [f] + res[o]];
    }

    method Link(h: nat, f: nat)
      requires h < hash.Length
      modifies hash
      ensures hash[..] == old(hash[..])[h := [f] + old(hash[..])[h]]
    {
      hash[h] := [f] + hash[h];
    }

    method UnlinkFrom(h: nat, f: nat)
      requires h < hash.Length
      modifies hash
      ensures hash[..] == old(hash[..])[h := Unlink(old(hash[..])[h], f)]
    {
      hash[h] := Unlink(hash[h], f);
    }

    /** pframe_pin */
    method Pin(f: nat)
      requires Valid() && f in frames
      modifies `frames, `alloc_list, `pinned_list, `nallocated, `npinned
      ensures Valid() && X() == Pinned(old(X()), f)
    {
      hide IndexOk;
      PinnedOk(X(), f);
      if frames[f].pins == 0 {
        if alloc_list != [] {
          alloc_list := Unlink(alloc_list, f);
        } else {
          assert false;
        }
        nallocated := nallocated - 1;
        pinned_list := pinned_list + [f];
        npinned := npinned + 1;
      }
      frames := frames[f := frames[f].(pins := frames[f].pins + 1)];
    }

    /** pframe_unpin */
    method Unpin(f: nat)
      requires Valid() && f in frames && frames[f].pins > 0
      modifies `frames, `alloc_list, `pinned_list, `nallocated, `npinned, `used, `clock
      ensures Valid() && X() == Unpinned(old(X()), f)
    {
      hide IndexOk;
      UnpinnedOk(X(), f);
      if frames[f].pins == 1 {
        if pinned_list != [] {
          pinned_list := Unlink(pinned_list, f);
        } else {
          assert false;
        }
        npinned := npinned - 1;
        alloc_list := alloc_list + [f];
        nallocated := nallocated + 1;
        used, clock := used[f := clock], clock + 1;
      }
      frames := frames[f := frames[f].(pins := frames[f].pins - 1)];
    }

    /** pframe_free: an unpinned page becomes a free page again. */
    method Free(f: nat)
      requires Valid() && f in frames && frames[f].pins == 0 && hash.Length > 0 && frames[f].obj in res
               && frames[f].obj in nres
      modifies `frames, `alloc_list, `nallocated, `res, `nres, `free, hash
      ensures Valid() && X() == WithoutFrame(old(X()), f) && free == old(free) + 1
    {
      hide IndexOk;
      WithoutFrameOk(X(), f);
      var y := frames[f];
      UnlinkFrom(Bucket(y.obj, y.page, hash.Length), f);
      Delist(f);
      free := free + 1;
      Detach(y.obj, f);
    }

    method Delist(f: nat)
      modifies `frames, `alloc_list, `nallocated
      ensures frames == old(frames) - {f} && alloc_list == Unlink(old(alloc_list), f)
              && nallocated == old(nallocated) - 1
    {
      nallocated := nallocated - 1;
      alloc_list := Unlink(alloc_list, f);
      frames := frames - {f};
    }

    method Detach(o: nat, f: nat)
      requires o in res && o in nres
      modifies `res, `nres
      ensures res == old(res)[o := Unlink(old(res)[o], f)] && nres == old(nres)[o := old(nres)[o] - 1]
    {
      nres := nres[o := nres[o] - 1];
      res := res[o := Unlink(res[o], f)];
    }

    /** pframe_clean. A page of an anonymous or shadow object is not written anywhere; for
        the others `io` says whether writing works. */
    method Clean(f: nat, anon: set<nat>, io: bool) returns (ok: bool)
      requires Valid() && f in frames && frames[f].pins == 0 && frames[f].dirty
      modifies `frames, `disk, `written
      ensures Valid() && (ok <==> io || old(frames)[f].obj in anon)
      ensures X() == if ok then old(X()).(frames := old(frames)[f := old(frames)[f].(dirty := false)]) else old(X())
      ensures disk == if ok && old(frames)[f].obj !in anon then old(disk)[Key(old(frames)[f]) := old(frames)[f].data]
                      else old(disk)
      ensures written == if ok then old(written) + [f] else old(written)
      ensures Kept(old(frames), old(disk), anon, raw) ==> Kept(frames, disk, anon, raw)
    {
      hide IndexOk;
      Sizes(X());
      ghost var frames0 := frames;
      ChangedOk(X(), f, frames[f].(dirty := false));
      frames := frames[f := frames[f].(dirty := false)];
      if frames[f].obj !in anon {
        if !io {
          ChangedOk(X(), f, frames[f].(dirty := true));
          frames := frames[f := frames[f].(dirty := true)];
          assert frames == frames0;
          return false;
        }
        disk := disk[Key(frames[f]) := frames[f].data];
      }
      written := written + [f];
      return true;
    }

    /** pframe_dirty, and the change to the page it announces, unless the object's own
        operation refuses. */
    method Modify(f: nat, data: seq<int>, allowed: bool) returns (ok: bool)
      requires Valid() && f in frames
      modifies `frames
      ensures Valid() && ok == allowed
      ensures X() == if ok then old(X()).(frames := old(frames)[f := old(frames)[f].(dirty := true, data := data)])
                     else old(X())
      ensures forall anon: set<nat> :: Kept(old(frames), disk, anon, raw) ==> Kept(frames, disk, anon, raw)
    {
      hide IndexOk;
      if !allowed { return false; }
      ChangedOk(X(), f, frames[f].(dirty := true));
      frames := frames[f := frames[f].(dirty := true)];
      ChangedOk(X(), f, frames[f].(data := data));
      frames := frames[f := frames[f].(data := data)];
      return true;
    }

    /** The inner loop of pageoutd_run with no busy pages: frames go in the order
        of their latest use, until the target is met or none is left; a dirty one
        is cleaned first, again and again if writing fails. `io` says how the writes go;
        beyond it they work. */
    method Pageout(target: nat, anon: set<nat>, io: seq<bool>) returns (n: nat)
      requires Valid()
      modifies `frames, `alloc_list, `nallocated, `res, `nres, `free, `disk, `written, hash
      ensures Valid()
      ensures n <= |old(alloc_list)| && alloc_list == old(alloc_list)[n..]
      ensures frames == Less(old(frames), old(alloc_list)[..n]) && res.Keys == old(res.Keys)
      ensures written == old(written) + Dirties(old(frames), old(alloc_list)[..n])
      ensures disk == Flushed(old(frames), old(disk), old(alloc_list)[..n], anon)
      ensures forall f <- old(alloc_list)[..n] :: f in old(frames) && old(frames)[f].pins == 0
      ensures free == old(free) + n && (free >= target || alloc_list == []) && (n > 0 ==> old(free) + n - 1 < target)
      ensures Older(old(used), old(alloc_list)[..n], alloc_list)
      ensures forall o: nat, page: nat :: Content(frames, disk, o, page) ==
                if Dropped(old(frames), old(alloc_list)[..n], anon, o, page) then OnDisk(old(disk), o, page)
                else Content(old(frames), old(disk), o, page)
      ensures Kept(old(frames), old(disk), anon, raw) ==>
                && PagesSafely(old(frames), old(disk), raw, frames, disk, anon)
                && forall f <- old(alloc_list)[..n] :: old(frames)[f].obj in anon ==> f in raw
    {
      hide IndexOk, Paging, Kept, PagesSafely, Older, Less, Flushed, Dirties, Dropped, Content, NoDup;
      ghost var x0, disk0, log, cleaned := X(), disk, written, false;
      n := 0;
      var j := 0;
      AllocFacts(x0);
      PagingStarts(frames, disk, alloc_list, anon);
      assert x0.alloc[0..] == x0.alloc && log + [] == log;
      ghost var done: seq<nat> := [];
      while free < target && alloc_list != []
        invariant n <= |x0.alloc| && InPaging(x0, disk0, log, n, cleaned, done, anon) && free == old(free) + n
        invariant cleaned ==> free < target && alloc_list != []
        invariant n > 0 ==> old(free) + n - 1 < target
        invariant j <= |io|
        decreases |x0.alloc| - n, if cleaned then 0 else 1, |io| - j
      {
        var step;
        step, cleaned, done := TakeHead(x0, disk0, log, n, cleaned, done, anon, j == |io| || io[j]);
        if step == Freed { n := n + 1; }
        if step == Failed { j := j + 1; }
        if step == Cleaned && j < |io| { j := j + 1; }
      }
      PagingEnds(x0, disk0, n, frames, disk, done, anon, raw);
    }

    ghost predicate InPaging(x0: Index, disk0: Disk, log: seq<nat>, n: nat, cleaned: bool, done: seq<nat>,
                             anon: set<nat>)
      requires n <= |x0.alloc|
      reads this, hash
    {
      && Valid() && alloc_list == x0.alloc[n..] && res.Keys == x0.res.Keys
      && Paging(x0.frames, disk0, x0.alloc, n, cleaned, frames, disk, done, anon) && written == log + done
    }

    /** One round of the loop: the head of the list is cleaned, or is still dirty, or goes. */
    method TakeHead(ghost x0: Index, ghost disk0: Disk, ghost log: seq<nat>, n: nat, ghost cleaned: bool,
                    ghost done: seq<nat>, anon: set<nat>, io: bool)
      returns (step: Round, ghost cleaned': bool, ghost done': seq<nat>)
      requires n < |x0.alloc| && InPaging(x0, disk0, log, n, cleaned, done, anon) && alloc_list != [] && NoDup(x0.alloc)
      requires forall f <- x0.alloc :: f in x0.frames && x0.frames[f].pins == 0
      modifies `frames, `alloc_list, `nallocated, `res, `nres, `free, `disk, `written, hash
      ensures InPaging(x0, disk0, log, if step == Freed then n + 1 else n, cleaned', done', anon)
      ensures cleaned' == (step == Cleaned) && (cleaned ==> step == Freed) && (step == Failed ==> !io)
      ensures free == (if step == Freed then old(free) + 1 else old(free))
      ensures step != Freed ==> alloc_list == old(alloc_list)
    {
      hide IndexOk, Paging, NoDup;
      var pf := alloc_list[0];
      assert pf == x0.alloc[n] && pf in x0.alloc;
      PagingHead(x0.frames, disk0, x0.alloc, n, cleaned, frames, disk, done, anon);
      Sizes(X());
      if frames[pf].dirty {
        PagingCleans(x0.frames, disk0, x0.alloc, n, frames, disk, done, anon);
        var ok := Clean(pf, anon, io);
        if !ok { return Failed, false, done; }
        assert log + done + [pf] == log + (done + [pf]);
        return Cleaned, true, done + [pf];
      } else {
        PagingFrees(x0.frames, disk0, x0.alloc, n, cleaned, frames, disk, done, anon);
        Free(pf);
        return Freed, false, done;
      }
    }

    /** pframe_fill: a page of an anonymous or shadow object gets its zeroes or its
        copy, `below`, if there is one, and is pinned; a file page is read, and may not
        be there. */
    method Fill(f: nat, anon: set<nat>, below: Option<seq<int>>) returns (ok: bool)
      requires Valid() && f in frames && frames[f].pins == 0 && !frames[f].dirty
      modifies `frames, `alloc_list, `pinned_list, `nallocated, `npinned
      ensures Valid() && frames.Keys == old(frames.Keys) && res == old(res)
      ensures ok <==> Source(disk, anon, below, old(frames)[f].obj, old(frames)[f].page).Some?
      ensures !ok ==> frames == old(frames)
      ensures ok ==> frames == old(frames)[f := Filled(old(frames)[f], disk, anon, below)]
    {
      hide IndexOk;
      var y := frames[f];
      if y.obj in anon {
        if below.None? { return false; }
        ChangedOk(X(), f, y.(data := below.value));
        frames := frames[f := y.(data := below.value)];
        Pin(f);
        return true;
      }
      if Key(y) !in disk { return false; }
      ChangedOk(X(), f, y.(data := disk[Key(y)]));
      frames := frames[f := y.(data := disk[Key(y)])];
      return true;
    }

    /** pframe_get where no page is busy: the page if it is resident; else a new one,
        filled. If memory is short (less than `min`) the daemon runs first, up to
        `target`. A page that could not be filled stays, with junk in it. */
    method Get(o: nat, page: nat, f: nat, anon: set<nat>, below: Option<seq<int>>, junk: seq<int>,
               min: nat, target: nat, io: seq<bool>)
      returns (r: Got)
      requires Valid() && o in res && f !in frames && Kept(frames, disk, anon, raw)
      modifies this, hash
      ensures Valid() && Kept(frames, disk, anon, raw)
      ensures raw == if r.Unfilled? then old(raw) + {f} else old(raw) - {f}
      ensures Answers(r, old(frames), old(disk), old(raw), frames, disk, o, page, f, anon, below, junk)
      ensures r.NoMemory? ==> free == 0
    {
      hide IndexOk, Resident, Kept, Content, Answers, PagesSafely, SameOrRaw, Source;
      ghost var frames0, disk0, raw0 := frames, disk, raw;
      Sizes(X());
      KeptWithout(frames, disk, anon, raw, f);
      var g := GetResident(o, page);
      if g.Some? {
        AnswersFound(frames, disk, raw, o, page, f, anon, below, junk, g.value);
        raw := raw - {f};
        return Page(g.value);
      }
      MakeRoom(anon, min, target, io);
      StillAbsent(frames0, frames, o, page, f);
      ghost var frames1: map<nat, PFrame> := frames;
      Sizes(X());
      SafelyKept(frames0, disk0, raw, frames, disk, anon);
      KeptWithout(frames, disk, anon, raw, f);
      r := GetNew(o, page, f, anon, below, junk);
      if r.NoMemory? {
        AnswersNone(frames0, disk0, raw0, frames, disk, o, page, f, anon, below, junk);
      } else {
        AnswersFilled(frames0, disk0, raw0, frames1, disk, o, page, f, anon, below, junk);
      }
      raw := if r.Unfilled? then raw + {f} else raw - {f};
    }

    /** The part of pframe_get that makes the page resident. */
    method GetNew(o: nat, page: nat, f: nat, anon: set<nat>, below: Option<seq<int>>, junk: seq<int>) returns (r: Got)
      requires Valid() && o in res && o in nres && hash.Length > 0 && !Resident(frames, o, page) && f !in frames
      modifies `frames, `alloc_list, `pinned_list, `nallocated, `npinned, `res, `nres, `free, `used, `clock, hash
      ensures Valid() && (r.NoMemory? <==> old(free) == 0) && (r.Page? ==> r.f == f)
      ensures r.NoMemory? ==> frames == old(frames) && free == 0
      ensures r.Page? <==> old(free) > 0 && Source(disk, anon, below, o, page).Some?
      ensures r.Page? ==> frames == old(frames)[f := Filled(PFrame(o, page, 0, false, junk), disk, anon, below)]
      ensures r.Unfilled? ==> frames == old(frames)[f := PFrame(o, page, 0, false, junk)]
    {
      hide IndexOk, Resident;
      var ok := Alloc(o, page, f, junk);
      if !ok { return NoMemory; }
      ok := Fill(f, anon, below);
      assert old(frames)[f := PFrame(o, page, 0, false, junk)][f := frames[f]] == old(frames)[f := frames[f]];
      r := if ok then Page(f) else Unfilled;
    }

    /** The wait for memory in pframe_get: the daemon pages out. */
    method MakeRoom(anon: set<nat>, min: nat, target: nat, io: seq<bool>)
      requires Valid() && Kept(frames, disk, anon, raw)
      modifies `frames, `alloc_list, `nallocated, `res, `nres, `free, `disk, `written, hash
      ensures Valid() && res.Keys == old(res.Keys)
      ensures PagesSafely(old(frames), old(disk), raw, frames, disk, anon)
      ensures forall f <- frames :: f in old(frames) && frames[f] == old(frames)[f]
    {
      hide IndexOk, Kept, Content, PagesSafely;
      NothingPaged(frames, disk, anon, raw);
      if free < min {
        var _ := Pageout(target, anon, io);
      }
    }
  }

  datatype Round = Freed | Cleaned | Failed

  datatype Got = Page(f: nat) | NoMemory | Unfilled

  /** The frames are in order, and nobody lost anything but junk. */
  ghost predicate PagesSafely(frames0: map<nat, PFrame>, disk0: Disk, raw: set<nat>,
                              frames: map<nat, PFrame>, disk: Disk, anon: set<nat>) {
    && Kept(frames, disk, anon, raw)
    && forall o: nat, page: nat :: SameOrRaw(frames0, disk0, raw, frames, disk, o, page)
  }

  lemma NothingPaged(frames: map<nat, PFrame>, disk: Disk, anon: set<nat>, raw: set<nat>)
    requires Kept(frames, disk, anon, raw)
    ensures PagesSafely(frames, disk, raw, frames, disk, anon)
  {
    hide Kept, Content;
  }

  lemma SafelyKept(frames0: map<nat, PFrame>, disk0: Disk, raw: set<nat>, frames: map<nat, PFrame>, disk: Disk,
                   anon: set<nat>)
    requires PagesSafely(frames0, disk0, raw, frames, disk, anon)
    ensures Kept(frames, disk, anon, raw)
  {
  }

  lemma KeptWithout(frames: map<nat, PFrame>, disk: Disk, anon: set<nat>, raw: set<nat>, f: nat)
    requires Kept(frames, disk, anon, raw) && f !in frames
    ensures Kept(frames, disk, anon, raw - {f})
  {
  }

  /** Where a page that is not resident comes from. */
  function Source(disk: Disk, anon: set<nat>, below: Option<seq<int>>, o: nat, page: nat): Option<seq<int>> {
    if o in anon then below else OnDisk(disk, o, page)
  }

  function Filled(y: PFrame, disk: Disk, anon: set<nat>, below: Option<seq<int>>): PFrame
    requires Source(disk, anon, below, y.obj, y.page).Some?
  {
    y.(data := Source(disk, anon, below, y.obj, y.page).value, pins := if y.obj in anon then y.pins + 1 else y.pins)
  }

  /** What pframe_get answers, and what it leaves: the page asked for with its
      content, every other page as it was, but for junk that went; or junk after a
      failed fill. */
  ghost predicate Answers(r: Got, frames0: map<nat, PFrame>, disk0: Disk, raw0: set<nat>, frames: map<nat, PFrame>,
                          disk: Disk, o: nat, page: nat, f: nat, anon: set<nat>, below: Option<seq<int>>,
                          junk: seq<int>) {
    && (forall x: nat, q: nat :: (x, q) != (o, page) ==> SameOrRaw(frames0, disk0, raw0, frames, disk, x, q))
    && match r {
         case Page(g) =>
           && g in frames && Key(frames[g]) == (o, page)
           && Some(frames[g].data) == (if Resident(frames0, o, page) then Content(frames0, disk0, o, page)
                                       else Source(disk0, anon, below, o, page))
         case NoMemory =>
           !Resident(frames0, o, page) && Content(frames, disk, o, page) == Content(frames0, disk0, o, page)
         case Unfilled =>
           && !Resident(frames0, o, page) && Source(disk0, anon, below, o, page).None?
           && f in frames && frames[f] == PFrame(o, page, 0, false, junk)
       }
  }

  lemma AnswersFound(frames: map<nat, PFrame>, disk: Disk, raw: set<nat>, o: nat, page: nat, f: nat, anon: set<nat>,
                     below: Option<seq<int>>, junk: seq<int>, g: nat)
    requires Unique(frames) && g in frames && Key(frames[g]) == (o, page)
    ensures Answers(Page(g), frames, disk, raw, frames, disk, o, page, f, anon, below, junk)
  {
    ContentOf(frames, disk, g);
    assert Resident(frames, o, page);
    hide Content;
  }

  lemma AnswersNone(frames0: map<nat, PFrame>, disk0: Disk, raw0: set<nat>, frames: map<nat, PFrame>, disk: Disk,
                    o: nat, page: nat, f: nat, anon: set<nat>, below: Option<seq<int>>, junk: seq<int>)
    requires !Resident(frames0, o, page) && PagesSafely(frames0, disk0, raw0, frames, disk, anon)
    ensures Answers(NoMemory, frames0, disk0, raw0, frames, disk, o, page, f, anon, below, junk)
  {
    NotRaw(frames0, raw0, o, page);
    hide Content, Resident, Kept, RawAt;
    assert SameOrRaw(frames0, disk0, raw0, frames, disk, o, page);
  }

  lemma NotRaw(frames: map<nat, PFrame>, raw: set<nat>, o: nat, page: nat)
    requires !Resident(frames, o, page)
    ensures !RawAt(frames, raw, o, page)
  {
  }

  lemma StillAbsent(frames0: map<nat, PFrame>, frames: map<nat, PFrame>, o: nat, page: nat, f: nat)
    requires !Resident(frames0, o, page) && f !in frames0
    requires forall g <- frames :: g in frames0 && frames[g] == frames0[g]
    ensures !Resident(frames, o, page) && f !in frames
  {
  }

  /** One more frame shows at its own page only. */
  lemma AddedContent(frames: map<nat, PFrame>, disk: Disk, f: nat, y: PFrame, x: nat, q: nat)
    requires Unique(frames) && f !in frames && !Resident(frames, y.obj, y.page) && Key(y) != (x, q)
    ensures Content(frames[f := y], disk, x, q) == Content(frames, disk, x, q)
  {
    var more := frames[f := y];
    if g :| g in frames && frames[g].obj == x && frames[g].page == q {
      assert more[g] == frames[g];
      ContentOf(frames, disk, g);
      ContentOf(more, disk, g);
    } else {
      assert !Resident(frames, x, q) && !Resident(more, x, q);
    }
  }

  lemma AddedOthers(frames0: map<nat, PFrame>, disk0: Disk, raw0: set<nat>, frames: map<nat, PFrame>, disk: Disk,
                    anon: set<nat>, f: nat, y: PFrame)
    requires f !in frames && !Resident(frames, y.obj, y.page) && Unique(frames)
    requires PagesSafely(frames0, disk0, raw0, frames, disk, anon)
    ensures forall x: nat, q: nat :: (x, q) != Key(y) ==> SameOrRaw(frames0, disk0, raw0, frames[f := y], disk, x, q)
  {
    hide Content, Resident, RawAt, Unique, Kept;
    forall x: nat, q: nat | (x, q) != Key(y) ensures SameOrRaw(frames0, disk0, raw0, frames[f := y], disk, x, q) {
      AddedContent(frames, disk, f, y, x, q);
      assert SameOrRaw(frames0, disk0, raw0, frames, disk, x, q);
    }
  }

  /** A page that is not resident comes from the same source before and after paging out. */
  lemma SameSource(frames0: map<nat, PFrame>, disk0: Disk, raw0: set<nat>, frames: map<nat, PFrame>, disk: Disk,
                   anon: set<nat>, below: Option<seq<int>>, o: nat, page: nat)
    requires !Resident(frames0, o, page) && !Resident(frames, o, page)
    requires PagesSafely(frames0, disk0, raw0, frames, disk, anon)
    ensures Source(disk, anon, below, o, page) == Source(disk0, anon, below, o, page)
  {
    NotRaw(frames0, raw0, o, page);
    hide RawAt;
    assert SameOrRaw(frames0, disk0, raw0, frames, disk, o, page);
  }

  lemma AnswersFilled(frames0: map<nat, PFrame>, disk0: Disk, raw0: set<nat>, frames: map<nat, PFrame>, disk: Disk,
                      o: nat, page: nat, f: nat, anon: set<nat>, below: Option<seq<int>>, junk: seq<int>)
    requires !Resident(frames0, o, page) && !Resident(frames, o, page) && f !in frames && Unique(frames)
    requires PagesSafely(frames0, disk0, raw0, frames, disk, anon)
    ensures var y := PFrame(o, page, 0, false, junk);
            if Source(disk, anon, below, o, page).Some?
            then && var more := frames[f := Filled(y, disk, anon, below)];
                    && Answers(Page(f), frames0, disk0, raw0, more, disk, o, page, f, anon, below, junk)
                    && Kept(more, disk, anon, raw0 - {f})
            else && Answers(Unfilled, frames0, disk0, raw0, frames[f := y], disk, o, page, f, anon, below, junk)
                 && Kept(frames[f := y], disk, anon, raw0 + {f})
  {
    var y := PFrame(o, page, 0, false, junk);
    SameSource(frames0, disk0, raw0, frames, disk, anon, below, o, page);
    if Source(disk, anon, below, o, page).Some? {
      AddedOthers(frames0, disk0, raw0, frames, disk, anon, f, Filled(y, disk, anon, below));
      hide Content, Resident, SameOrRaw, Unique;
    } else {
      AddedOthers(frames0, disk0, raw0, frames, disk, anon, f, y);
      hide Content, Resident, SameOrRaw, Unique;
    }
  }

  lemma Unlisted(x: Index, f: nat)
    requires IndexOk(x) && f in x.frames && x.frames[f].pins == 0
    ensures f in x.alloc
  {
  }

  /** What is on the allocated list. */
  lemma AllocFacts(x: Index)
    requires IndexOk(x)
    ensures NoDup(x.alloc) && Unique(x.frames)
    ensures forall f <- x.alloc :: f in x.frames && x.frames[f].pins == 0
  {
  }

  lemma PagingEnds(x: Index, disk0: Disk, n: nat, frames: map<nat, PFrame>, disk: Disk, done: seq<nat>, anon: set<nat>,
                   raw: set<nat>)
    requires IndexOk(x) && n <= |x.alloc|
    requires Paging(x.frames, disk0, x.alloc, n, false, frames, disk, done, anon)
    ensures var gone := x.alloc[..n];
            && frames == Less(x.frames, gone) && disk == Flushed(x.frames, disk0, gone, anon)
            && done == Dirties(x.frames, gone)
            && (forall f <- gone :: f in x.frames && x.frames[f].pins == 0)
            && Older(x.used, gone, x.alloc[n..])
            && forall o: nat, page: nat :: Content(frames, disk, o, page) ==
                 if Dropped(x.frames, gone, anon, o, page) then OnDisk(disk0, o, page)
                 else Content(x.frames, disk0, o, page)
    ensures Kept(x.frames, disk0, anon, raw) ==>
              && PagesSafely(x.frames, disk0, raw, frames, disk, anon)
              && forall f <- x.alloc[..n] :: f in x.frames && (x.frames[f].obj in anon ==> f in raw)
  {
    hide HashOk, ResOk, Content, Flushed, Dirties, Dropped, SameOrRaw;
    AllocFacts(x);
    PrefixIsOlder(x.alloc, x.used, x.clock, n);
    var gone := x.alloc[..n];
    assert forall f <- gone :: f in x.alloc;
    forall o: nat, page: nat ensures Content(frames, disk, o, page) ==
        if Dropped(x.frames, gone, anon, o, page) then OnDisk(disk0, o, page) else Content(x.frames, disk0, o, page) {
      PagedOutContent(x.frames, disk0, gone, anon, o, page);
    }
    if Kept(x.frames, disk0, anon, raw) {
      PagedOutKept(x.frames, disk0, gone, anon, raw);
      forall o: nat, page: nat ensures SameOrRaw(x.frames, disk0, raw, frames, disk, o, page) {
        PagedOutSame(x.frames, disk0, gone, anon, raw, o, page);
      }
    }
  }

  lemma NotInChain(frames: map<nat, PFrame>, chains: seq<seq<nat>>, o: nat, page: nat)
    requires HashOk(frames, chains)
    requires var c := chains[Bucket(o, page, |chains|)];
             forall k :: 0 <= k < |c| ==> c[k] in frames && !(frames[c[k]].obj == o && frames[c[k]].page == page)
    ensures !Resident(frames, o, page)
  {
    var h := Bucket(o, page, |chains|);
    forall f <- frames ensures !(frames[f].obj == o && frames[f].page == page) {
      assert f in chains[h] <==> Bucket(frames[f].obj, frames[f].page, |chains|) == h;
    }
  }
}
