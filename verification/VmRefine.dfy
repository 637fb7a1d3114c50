/** Copy-on-write with shadow chains refines copying: in every run each process sees
    what it would see if every area kept its private copies itself, over shared
    objects, and fork copied them all at once. */
module VmRefine {
  import opened Basics
  import opened Memory
  import opened PageIn
  import opened AddressSpace
  import opened Unmap
  import opened Fork
  import opened VmSystem
  import opened VmSteps
  import opened VmRuns
  import opened Flatten
  import opened FlatStores

  // ---------------------------------------------------------------------
  // The flat system
  // ---------------------------------------------------------------------

  /** `store` is what the pages of anonymous objects and files hold now, for everyone;
      `disks` is what the files hold on disk. There are no shadows. */
  datatype FlatSys = FlatSys(spaces: seq<seq<FlatArea>>, store: (nat, nat) -> Option<Page>, disks: map<nat, seq<Page>>)

  predicate FlatCovers(a: FlatArea, v: nat) {
    a.start <= v < a.end
  }

  /** The object page behind page `v`. */
  function FlatPage(a: FlatArea, v: nat): nat
    requires FlatCovers(a, v)
  {
    a.off + (v - a.start)
  }

  /** Where the first area covering `v` is. */
  function FlatFind(l: seq<FlatArea>, v: nat): (r: Option<nat>)
    ensures r.Some? ==> r.value < |l| && FlatCovers(l[r.value], v)
  {
    if l == [] then None
    else if FlatCovers(l[0], v) then Some(0)
    else
      var r := FlatFind(l[1..], v);
      if r.None? then None else Some(r.value + 1)
  }

  /** What page `p` behind area `a` holds: its private copy, else the shared page. */
  function Content(f: FlatSys, a: FlatArea, p: nat): Option<Page> {
    if p in a.copies then Some(a.copies[p].data) else f.store(a.base, p)
  }

  /** What space `i` shows at page `v`. */
  function FlatAt(f: FlatSys, i: nat, v: nat): Option<Cell> {
    if i >= |f.spaces| then None
    else match FlatFind(f.spaces[i], v)
      case None => None
      case Some(k) => var a := f.spaces[i][k]; Some(Cell(a.prot, a.priv, Content(f, a, FlatPage(a, v))))
  }

  function Stored1(store: (nat, nat) -> Option<Page>, o: nat, p: nat, x: Option<Page>): (nat, nat) -> Option<Page> {
    (b: nat, q: nat) => if b == o && q == p then x else store(b, q)
  }

  function StoredAll(store: (nat, nat) -> Option<Page>, o: nat, all: nat -> Option<Page>): (nat, nat) -> Option<Page> {
    (b: nat, q: nat) => if b == o then all(q) else store(b, q)
  }

  function DiskPages(disk: seq<Page>): nat -> Option<Page> {
    (p: nat) => if p < |disk| then Some(disk[p]) else None
  }

  function LostIn(l: seq<FlatArea>, o: nat, p: nat): seq<FlatArea> {
    seq(|l|, k requires 0 <= k < |l| => l[k].(copies := Lost(l[k].copies, o, p)))
  }

  /** A store at page `v` of space `i`: into the area's own copy, numbered `id`, if the
      area is private; into the page everyone shares otherwise. */
  function FlatWrite(f: FlatSys, i: nat, v: nat, junk: Page, data: Page, id: nat): FlatSys
    requires i < |f.spaces|
  {
    match FlatFind(f.spaces[i], v)
    case None => f
    case Some(k) =>
      var a := f.spaces[i][k];
      var p := FlatPage(a, v);
      var there := Content(f, a, p).Some?;
      if a.priv then
        f.(spaces := f.spaces[i :=
                              f.spaces[i][k := a.(copies := a.copies[p := Copy(id, if there then data else junk)])]])
      else if there then f.(store := Stored1(f.store, a.base, p, Some(data)))
      else f
  }

  /** The same operations without shadow chains. Fork copies the list of areas with
      all their copies. `id` is the number of the object the operation makes, or makes
      a copy for. */
  function FlatStep(f: FlatSys, u: Layout, op: Op, id: nat): FlatSys {
    match op
    case NewSpace => f.(spaces := f.spaces + [[]])
    case MapOp(i, start, n, prot, priv, file, off) =>
      if i >= |f.spaces| then f
      else
        var base := if file.Some? then file.value else id;
        f.(spaces := f.spaces[i := FlatInsert(FlatCutAll(f.spaces[i], start, start + n),
                                              FlatArea(start, start + n, off, prot, priv, base, map[]))],
           store := if file.Some? then f.store else StoredAll(f.store, id, (p: nat) => Some(ZeroPage())))
    case UnmapOp(i, lo, n) => if i < |f.spaces| then f.(spaces := f.spaces[i := FlatCutAll(f.spaces[i], lo, lo + n)])
      else f
    case ForkOp(i) => if i < |f.spaces| then f.(spaces := f.spaces + [f.spaces[i]]) else f
    case DestroyOp(i) =>
      if i < |f.spaces| && u.low <= u.high then f.(spaces := f.spaces[i := FlatCutAll(f.spaces[i], u.low, u.high)])
      else f
    case WriteFault(i, v, junk, data) => if i < |f.spaces| then FlatWrite(f, i, v, junk, data, id) else f
    case OpenOp(disk, _) => f.(store := StoredAll(f.store, id, DiskPages(disk)), disks := f.disks[id := disk])
    case EvictOp(o, p) =>
      if o in f.disks then f.(store := Stored1(f.store, o, p, DiskPages(f.disks[o])(p)))
      else f.(spaces := seq(|f.spaces|, i requires 0 <= i < |f.spaces| => LostIn(f.spaces[i], o, p)))
    case ExtendOp(i, j, end) =>
      if i < |f.spaces| && j < |f.spaces[i]|
        then f.(spaces := f.spaces[i := f.spaces[i][j := f.spaces[i][j].(end := end)]]) else f
    case _ => f
  }

  /** The number of the object an operation makes, or makes a copy for. */
  function NewId(s: Sys, u: Layout, op: Op): nat
    requires Enabled(s, u, op)
  {
    match op
    case MapOp(i, start, n, _, _, _, _) => CutAll(s.mem, s.spaces[i], start, start + n).mem.next
    case WriteFault(i, v, _, _) => Hit(s, i, v, true).value.obj
    case _ => s.mem.next
  }

  function FlatRun(f: FlatSys, s: Sys, u: Layout, ops: seq<Op>): FlatSys
    requires u.low < u.high
    decreases |ops|
  {
    if ops == [] then f
    else if Enabled(s, u, ops[0])
      then FlatRun(FlatStep(f, u, ops[0], NewId(s, u, ops[0])), Step(s, u, ops[0]), u, ops[1..])
    else FlatRun(f, s, u, ops[1..])
  }

  // ---------------------------------------------------------------------
  // What the two have to do with each other
  // ---------------------------------------------------------------------

  /** The objects without a chain hold what the flat store says. */
  ghost predicate StoreOk(m: Mem, f: FlatSys) {
    && (forall o <- f.disks :: o < m.next)
    && forall o <- m.objs :: StoreAt(m, f, o)
  }

  ghost predicate StoreAt(m: Mem, f: FlatSys, o: nat)
    requires o in m.objs
  {
    && (o in f.disks <==> m.objs[o].kind.File?) && (m.objs[o].kind.File? ==> f.disks[o] == m.objs[o].kind.disk)
    && (!m.objs[o].kind.Shadow? ==> forall p :: View(m, o, p) == f.store(o, p))
  }

  ghost predicate SpacesOk(s: Sys, f: FlatSys) {
    |f.spaces| == |s.spaces| && forall i :: 0 <= i < |s.spaces| ==> f.spaces[i] == FlatAll(s.mem, s.spaces[i])
  }

  /** A shared area stands on an object without a chain. */
  predicate Straight(m: Mem, l: seq<Area>) {
    forall a <- l :: !a.priv ==> a.obj in m.objs && !m.objs[a.obj].kind.Shadow?
  }

  predicate StraightAll(s: Sys) {
    forall i :: 0 <= i < |s.spaces| ==> Straight(s.mem, s.spaces[i])
  }

  /** Pages of anonymous objects stay pinned, and junk is all that is loose. */
  predicate PinsOk(m: Mem) {
    LooseOk(m) && forall o <- m.objs :: m.objs[o].kind.Anon? ==> AllPinned(m.objs[o])
  }

  predicate AllPinned(x: Obj) {
    forall p <- x.frames :: x.frames[p].pins > 0
  }

  ghost predicate Refines(s: Sys, u: Layout, f: FlatSys) {
    SysInv(s, u) && StraightAll(s) && PinsOk(s.mem) && StoreOk(s.mem, f) && SpacesOk(s, f)
  }

  // ---------------------------------------------------------------------
  // Then they show the same
  // ---------------------------------------------------------------------

  lemma {:induction false} FindFlat(m: Mem, l: seq<Area>, v: nat)
    ensures match FlatFind(FlatAll(m, l), v)
            case None => Find(l, v) == None
            case Some(k) => k < |l| && Find(l, v) == Some(l[k])
  {
    if l != [] {
      assert FlatAll(m, l)[1..] == FlatAll(m, l[1..]);
      FindFlat(m, l[1..], v);
    }
  }

  lemma ContentFlat(s: Sys, u: Layout, f: FlatSys, i: nat, a: Area, p: nat)
    requires Refines(s, u, f) && i < |s.spaces| && a in s.spaces[i]
    ensures View(s.mem, a.obj, p) == Content(f, Flat(s.mem, a), p)
  {
    hide SysInv, StraightAll, PinsOk, StoreAt;
    AreaObjLives(s, u, i, a);
    SysInvMem(s, u);
    ViewIsFlat(s.mem, a.obj, p);
    ResidentIsView(s.mem, a.obj, p);
    var b := Bottom(s.mem, a.obj);
    StoreThere(s.mem, f, b, p);
  }

  lemma StoreThere(m: Mem, f: FlatSys, o: nat, p: nat)
    requires StoreOk(m, f) && o in m.objs && !m.objs[o].kind.Shadow?
    ensures View(m, o, p) == f.store(o, p)
  {
    assert StoreAt(m, f, o);
  }

  lemma SpaceFlat(s: Sys, u: Layout, f: FlatSys)
    requires Refines(s, u, f)
    ensures |f.spaces| == |s.spaces| && forall i :: 0 <= i < |s.spaces| ==> f.spaces[i] == FlatAll(s.mem, s.spaces[i])
  {
  }

  /** If the flat system represents the other, every process sees the same in both. */
  lemma RefinesShows(s: Sys, u: Layout, f: FlatSys, i: nat, v: nat)
    requires Refines(s, u, f)
    ensures SysAt(s, i, v) == FlatAt(f, i, v)
  {
    hide Refines, FlatAll, FlatFind, Find, Content;
    SpaceFlat(s, u, f);
    if i < |s.spaces| {
      var l := s.spaces[i];
      FindFlat(s.mem, l, v);
      FindMember(l, v);
      var r := FlatFind(FlatAll(s.mem, l), v);
      if r.Some? {
        FlatAllAt(s.mem, l, r.value);
        ContentFlat(s, u, f, i, l[r.value], PageOf(l[r.value], v));
      }
    }
  }

  // ---------------------------------------------------------------------
  // Steps that leave old objects as they are
  // ---------------------------------------------------------------------

  /** New objects without pages; `base`, if any, is the one new object that is no shadow. */
  predicate NewOnes(m: Mem, m': Mem, base: Option<nat>) {
    forall y <- m'.objs :: y >= m.next ==> m'.objs[y].frames == map[] && (base != Some(y) ==> m'.objs[y].kind.Shadow?)
  }

  lemma StillStore(m: Mem, m': Mem, f: FlatSys)
    requires StoreOk(m, f) && Still(m, m') && NewOnes(m, m', None)
    ensures StoreOk(m', f)
  {
    forall o <- m'.objs ensures StoreAt(m', f, o) {
      if o < m.next {
        assert StoreAt(m, f, o);
        if !m.objs[o].kind.Shadow? {
          forall p ensures View(m', o, p) == f.store(o, p) { assert View(m', o, p) == View(m, o, p); }
        }
      }
    }
  }

  lemma StillPins(m: Mem, m': Mem, base: Option<nat>)
    requires WellFormed(m) && WellFormed(m') && PinsOk(m) && Still(m, m') && NewOnes(m, m', base)
    ensures PinsOk(m')
  {
    StillKin(m, m');
    LooseKin(m, m');
    forall o <- m'.objs | m'.objs[o].kind.Anon? ensures AllPinned(m'.objs[o]) {
      if o < m.next { assert AllPinned(m.objs[o]); }
    }
  }

  lemma StillStraight(m: Mem, m': Mem, l: seq<Area>)
    requires Straight(m, l) && Still(m, m') && WellFormed(m) && Live(m', l)
    ensures Straight(m', l)
  {
    forall a <- l | !a.priv ensures !m'.objs[a.obj].kind.Shadow? { LiveIsOld(m, a.obj); }
  }

  /** The lists of other spaces mean the same. */
  lemma OtherSpaces(s: Sys, s': Sys, u: Layout, j: nat)
    requires SysInv(s, u) && SysInv(s', u) && Kin(s.mem, s'.mem) && j < |s.spaces| && j < |s'.spaces|
             && s'.spaces[j] == s.spaces[j]
    ensures FlatAll(s'.mem, s'.spaces[j]) == FlatAll(s.mem, s.spaces[j])
    ensures Live(s'.mem, s'.spaces[j]) && WellFormed(s.mem) && WellFormed(s'.mem)
  {
    hide SysInv, WellFormed, Kin;
    SysInvMem(s, u);
    SysInvMem(s', u);
    var l := s.spaces[j];
    forall a <- l ensures a.obj in s'.mem.objs && a.obj < s.mem.next {
      AreaObjLives(s, u, j, a);
      AreaObjLives(s', u, j, a);
      LiveIsOld(s.mem, a.obj);
    }
    KinFlatAll(s.mem, s'.mem, l);
  }

  // ---------------------------------------------------------------------
  // Unmap
  // ---------------------------------------------------------------------

  /** The shared areas of `l'` are on objects of shared areas of `l`. */
  predicate SharedFrom(l: seq<Area>, l': seq<Area>) {
    forall b <- l' :: !b.priv ==> exists a <- l :: !a.priv && a.obj == b.obj
  }

  lemma CutOneNew(m: Mem, a: Area, lo: nat, hi: nat)
    requires WellFormed(m) && a.obj in m.objs && lo <= hi
    ensures var c := CutOne(m, a, lo, hi); NewOnes(m, c.mem, None) && SharedFrom([a], c.areas)
  {
    hide Release, WellFormed;
    forall y <- m.objs ensures y < m.next { LiveIsOld(m, y); }
    ReleaseTrims(m, a.obj);
    var c := CutOne(m, a, lo, hi);
    forall b <- c.areas | !b.priv ensures exists x <- [a] :: !x.priv && x.obj == b.obj { assert a in [a]; }
  }

  lemma {:induction false} CutAllNew(m: Mem, held: multiset<nat>, l: seq<Area>, lo: nat, hi: nat)
    requires lo <= hi && Backed(m, held, l)
    ensures var c := CutAll(m, l, lo, hi); NewOnes(m, c.mem, None) && SharedFrom(l, c.areas)
    decreases |l|
  {
    hide Backed, CutOne, Still, WellFormed;
    if l == [] {
      BackedPresent(m, held, l);
      forall y <- m.objs ensures y < m.next { LiveIsOld(m, y); }
    } else {
      CutHead(m, held, l, lo, hi);
      var c := CutOne(m, l[0], lo, hi);
      var r := CutAll(c.mem, l[1..], lo, hi);
      CutOneNew(m, l[0], lo, hi);
      CutAllNew(c.mem, held + ObjsOf(c.areas), l[1..], lo, hi);
      CutAllFlat(c.mem, held + ObjsOf(c.areas), l[1..], lo, hi);
      NewTrans(m, c.mem, r.mem);
      SharedCons(l, c.areas, r.areas);
    }
  }

  lemma NewTrans(m: Mem, m1: Mem, m2: Mem)
    requires NewOnes(m, m1, None) && NewOnes(m1, m2, None) && Still(m1, m2)
    ensures NewOnes(m, m2, None)
  {
  }

  lemma SharedCons(l: seq<Area>, x: seq<Area>, y: seq<Area>)
    requires l != [] && SharedFrom([l[0]], x) && SharedFrom(l[1..], y)
    ensures SharedFrom(l, x + y)
  {
    forall b <- x + y | !b.priv ensures exists a <- l :: !a.priv && a.obj == b.obj {
      if b in x {
        var a :| a in [l[0]] && !a.priv && a.obj == b.obj;
        assert a in l;
      } else {
        var a :| a in l[1..] && !a.priv && a.obj == b.obj;
        assert a in l;
      }
    }
  }

  lemma SharedStraight(m: Mem, m': Mem, l: seq<Area>, l': seq<Area>)
    requires Straight(m, l) && SharedFrom(l, l') && Still(m, m') && WellFormed(m) && Live(m', l')
    ensures Straight(m', l')
  {
    forall b <- l' | !b.priv ensures !m'.objs[b.obj].kind.Shadow? {
      var a :| a in l && !a.priv && a.obj == b.obj;
      LiveIsOld(m, a.obj);
    }
  }

  /** Parts of `Refines`. */
  lemma RefinesParts(s: Sys, u: Layout, f: FlatSys)
    requires Refines(s, u, f)
    ensures SysInv(s, u) && PinsOk(s.mem) && StoreOk(s.mem, f) && |f.spaces| == |s.spaces|
    ensures forall i :: 0 <= i < |s.spaces| ==>
            f.spaces[i] == FlatAll(s.mem, s.spaces[i]) && Straight(s.mem, s.spaces[i])
  {
  }

  lemma SpaceLive(s: Sys, u: Layout, i: nat)
    requires SysInv(s, u) && i < |s.spaces|
    ensures Live(s.mem, s.spaces[i]) && WellFormed(s.mem)
  {
    hide SysInv;
    SysInvMem(s, u);
    forall a <- s.spaces[i] ensures a.obj in s.mem.objs { AreaObjLives(s, u, i, a); }
  }

  lemma CutRefines(s: Sys, u: Layout, f: FlatSys, i: nat, lo: nat, hi: nat)
    requires Refines(s, u, f) && i < |s.spaces| && lo <= hi && i < |f.spaces|
    ensures Refines(UnmapStep(s, i, lo, hi), u, f.(spaces := f.spaces[i := FlatCutAll(f.spaces[i], lo, hi)]))
  {
    hide SysInv, PinsOk, StoreOk, Straight, Still, WellFormed, NewOnes, SharedFrom, CutAll, FlatAll, FlatCutAll,
         Backed, Live;
    RefinesParts(s, u, f);
    var l := s.spaces[i];
    var c := CutAll(s.mem, l, lo, hi);
    var s' := UnmapStep(s, i, lo, hi);
    var f' := f.(spaces := f.spaces[i := FlatCutAll(f.spaces[i], lo, hi)]);
    SpaceBacked(s, u, i);
    UnmapMeaning(s, u, i, lo, hi);
    CutAllFlat(s.mem, Others(s, i), l, lo, hi);
    CutAllNew(s.mem, Others(s, i), l, lo, hi);
    SpaceLive(s, u, i);
    SpaceLive(s', u, i);
    StillKin(s.mem, c.mem);
    StillPins(s.mem, c.mem, None);
    StoreSame(s.mem, f, f');
    StillStore(s.mem, c.mem, f');
    SharedStraight(s.mem, c.mem, l, c.areas);
    forall j | 0 <= j < |s.spaces| && j != i
      ensures FlatAll(s'.mem, s'.spaces[j]) == FlatAll(s.mem, s.spaces[j]) && Straight(s'.mem, s'.spaces[j]) {
      OtherSpaces(s, s', u, j);
      StillStraight(s.mem, c.mem, s.spaces[j]);
    }
  }

  lemma StoreSame(m: Mem, f: FlatSys, f': FlatSys)
    requires StoreOk(m, f) && f'.store == f.store && f'.disks == f.disks
    ensures StoreOk(m, f')
  {
    forall o <- m.objs ensures StoreAt(m, f', o) { assert StoreAt(m, f, o); }
  }

  // ---------------------------------------------------------------------
  // Map
  // ---------------------------------------------------------------------

  function FlatAdd(f: FlatSys, i: nat, a: FlatArea, anon: bool): FlatSys
    requires i < |f.spaces|
  {
    f.(spaces := f.spaces[i := FlatInsert(f.spaces[i], a)],
       store := if anon then StoredAll(f.store, a.base, (p: nat) => Some(ZeroPage())) else f.store)
  }

  lemma BackWithNew(m: Mem, file: Option<nat>, priv: bool)
    requires WellFormed(m) && (file.Some? ==> file.value in m.objs)
    ensures NewOnes(m, BackWith(m, file, priv).0, if file.Some? then None else Some(m.next))
  {
    forall y <- m.objs ensures y < m.next { LiveIsOld(m, y); }
  }

  /** The store after a mapping: a new anonymous object is zeroes. */
  lemma MapStore(m: Mem, m': Mem, f: FlatSys, f': FlatSys, base: Option<nat>)
    requires StoreOk(m, f) && Still(m, m') && NewOnes(m, m', base) && f'.disks == f.disks
    requires base.None? ==> f'.store == f.store
    requires base.Some? ==>
               && base.value >= m.next && base.value in m'.objs && m'.objs[base.value] == Obj(Anon, 1, 0, map[])
               && f'.store == StoredAll(f.store, base.value, (p: nat) => Some(ZeroPage()))
    ensures StoreOk(m', f')
  {
    forall o <- m'.objs ensures StoreAt(m', f', o) {
      if o < m.next {
        assert StoreAt(m, f, o);
        if !m.objs[o].kind.Shadow? {
          forall p ensures View(m', o, p) == f'.store(o, p) { assert View(m', o, p) == View(m, o, p); }
        }
      }
    }
  }

  lemma {:induction false} InsertShared(l: seq<Area>, a: Area)
    ensures forall b <- Insert(l, a) :: b in l || b == a
  {
    if l != [] { InsertShared(l[1..], a); }
  }

  lemma InsertStraight(m: Mem, l: seq<Area>, a: Area)
    requires Straight(m, l) && (!a.priv ==> a.obj in m.objs && !m.objs[a.obj].kind.Shadow?)
    ensures Straight(m, Insert(l, a))
  {
    InsertShared(l, a);
  }

  lemma AddRefines(t: Sys, t': Sys, u: Layout, f: FlatSys, i: nat, file: Option<nat>, a: Area)
    requires Refines(t, u, f) && i < |t.spaces| && i < |f.spaces| && SysInv(t', u)
             && (file.Some? ==> IsFile(t.mem, file.value))
    requires a.obj == BackWith(t.mem, file, a.priv).1
    requires t' == Replaced(t, i, BackWith(t.mem, file, a.priv).0, Insert(t.spaces[i], a))
    ensures var base := if file.Some? then file.value else t.mem.next;
            Refines(t', u, FlatAdd(f, i, FlatArea(a.start, a.end, a.off, a.prot, a.priv, base, map[]), file.None?))
  {
    hide SysInv, PinsOk, StoreOk, Straight, Still, WellFormed, NewOnes, BackWith, FlatAll, FlatInsert, Live, Inv,
         Insert, Holders;
    RefinesParts(t, u, f);
    SysInvMem(t, u);
    var m, m', l := t.mem, t'.mem, t.spaces[i];
    var base := if file.Some? then file.value else m.next;
    var f' := FlatAdd(f, i, FlatArea(a.start, a.end, a.off, a.prot, a.priv, base, map[]), file.None?);
    BackWithFlat(m, Holders(t), file, a.priv);
    BackWithNew(m, file, a.priv);
    StillKin(m, m');
    StillPins(m, m', if file.Some? then None else Some(m.next));
    MapStore(m, m', f, f', if file.Some? then None else Some(m.next));
    SpaceLive(t, u, i);
    BackedStays(t, t', u, i, a);
    OldAreas(t, u, i, t');
    KinFlatAll(m, m', l);
    InsertFlat(m', l, a);
    StillStraight(m, m', l);
    InsertStraight(m', l, a);
    forall j | 0 <= j < |t.spaces| && j != i
      ensures FlatAll(t'.mem, t'.spaces[j]) == FlatAll(t.mem, t.spaces[j]) && Straight(t'.mem, t'.spaces[j]) {
      OtherSpaces(t, t', u, j);
      StillStraight(m, m', t.spaces[j]);
    }
  }

  /** The old areas are still there after an insertion. */
  lemma BackedStays(t: Sys, t': Sys, u: Layout, i: nat, a: Area)
    requires SysInv(t', u) && i < |t.spaces| && i < |t'.spaces| && t'.spaces[i] == Insert(t.spaces[i], a)
    ensures Live(t'.mem, t.spaces[i])
  {
    hide SysInv, Insert;
    SpaceLive(t', u, i);
    InsertMembers(t.spaces[i], a);
  }

  lemma OldAreas(t: Sys, u: Layout, i: nat, t': Sys)
    requires SysInv(t, u) && i < |t.spaces| && Live(t'.mem, t.spaces[i])
    ensures Present(t'.mem, t.mem.next, t.spaces[i])
  {
    hide SysInv, WellFormed;
    SpaceLive(t, u, i);
    forall a <- t.spaces[i] ensures a.obj < t.mem.next { LiveIsOld(t.mem, a.obj); }
  }

  function FlatUnmapped(f: FlatSys, i: nat, lo: nat, hi: nat): FlatSys
    requires i < |f.spaces| && lo <= hi
  {
    f.(spaces := f.spaces[i := FlatCutAll(f.spaces[i], lo, hi)])
  }

  lemma FlatMap(f: FlatSys, u: Layout, op: Op, id: nat)
    requires op.MapOp? && op.i < |f.spaces|
    ensures var base := if op.file.Some? then op.file.value else id;
            FlatStep(f, u, op, id) ==
            FlatAdd(FlatUnmapped(f, op.i, op.start, op.start + op.n), op.i,
                    FlatArea(op.start, op.start + op.n, op.off, op.prot, op.priv, base, map[]), op.file.None?)
  {
    hide FlatCutAll, FlatInsert;
    var base := if op.file.Some? then op.file.value else id;
    var l := FlatCutAll(f.spaces[op.i], op.start, op.start + op.n);
    var l' := FlatInsert(l, FlatArea(op.start, op.start + op.n, op.off, op.prot, op.priv, base, map[]));
    assert f.spaces[op.i := l][op.i := l'] == f.spaces[op.i := l'];
  }

  lemma FlatCutIs(f: FlatSys, i: nat, lo: nat, hi: nat)
    requires i < |f.spaces| && lo <= hi
    ensures FlatUnmapped(f, i, lo, hi) == f.(spaces := f.spaces[i := FlatCutAll(f.spaces[i], lo, hi)])
    ensures |FlatUnmapped(f, i, lo, hi).spaces| == |f.spaces|
  {
  }

  lemma MapWhere(s: Sys, u: Layout, op: Op)
    requires op.MapOp? && Enabled(s, u, op)
    ensures op.i < |s.spaces|
  {
  }

  lemma MapSplit(s: Sys, u: Layout, op: Op)
    requires u.low < u.high && SysInv(s, u) && op.MapOp? && Enabled(s, u, op)
    ensures var t := UnmapStep(s, op.i, op.start, op.start + op.n);
            && op.i < |t.spaces| && (op.file.Some? ==> IsFile(t.mem, op.file.value)) && t.mem.next == NewId(s, u, op)
            && Step(s, u, op) == Replaced(t, op.i, BackWith(t.mem, op.file, op.priv).0,
                 Insert(t.spaces[op.i], Area(op.start, op.start + op.n, op.off, op.prot, op.priv,
                                             BackWith(t.mem, op.file, op.priv).1)))
  {
    hide SysInv, CutAll, BackWith, Insert, MapStep;
    MapIsAdd(s, u, op.i, op.file, op.start, op.n, op.prot, op.priv, op.off);
    UnmapMeaning(s, u, op.i, op.start, op.start + op.n);
    if op.file.Some? { ExtIsFile(UnmapStep(s, op.i, op.start, op.start + op.n), u, op.i, op.file.value); }
  }

  lemma MapRefines(s: Sys, u: Layout, f: FlatSys, op: Op)
    requires u.low < u.high && Refines(s, u, f) && op.MapOp? && Enabled(s, u, op)
    ensures Refines(Step(s, u, op), u, FlatStep(f, u, op, NewId(s, u, op)))
  {
    hide Refines, SysInv, BackWith, Insert, FlatStep, FlatAdd, Step, UnmapStep, NewId, Enabled, FlatUnmapped;
    var i, lo, hi, file := op.i, op.start, op.start + op.n, op.file;
    MapWhere(s, u, op);
    RefinesParts(s, u, f);
    StepInv(s, u, op);
    MapSplit(s, u, op);
    var t := UnmapStep(s, i, lo, hi);
    CutRefines(s, u, f, i, lo, hi);
    FlatCutIs(f, i, lo, hi);
    var a := Area(lo, hi, op.off, op.prot, op.priv, BackWith(t.mem, file, op.priv).1);
    FlatMap(f, u, op, NewId(s, u, op));
    AddRefines(t, Step(s, u, op), u, FlatUnmapped(f, i, lo, hi), i, file, a);
  }

  // ---------------------------------------------------------------------
  // Fork
  // ---------------------------------------------------------------------

  lemma {:induction false} ChildNew(m: Mem, l: seq<Area>)
    requires WellFormed(m) && Live(m, l)
    ensures var c := ChildAll(m, l); NewOnes(m, c.mem, None) && SharedFrom(l, c.areas)
    decreases |l|
  {
    hide WellFormed, Still;
    if l == [] {
      forall y <- m.objs ensures y < m.next { LiveIsOld(m, y); }
    } else {
      var c := ChildOne(m, l[0]);
      var r := ChildAll(c.mem, l[1..]);
      ChildOneFlat(m, l[0]);
      OneNew(m, l[0], c);
      ChildNew(c.mem, l[1..]);
      ChildAllFlat(c.mem, l[1..]);
      NewTrans(m, c.mem, r.mem);
      SharedCons(l, c.areas, r.areas);
    }
  }

  lemma {:induction false} ParentNew(m: Mem, l: seq<Area>)
    requires WellFormed(m) && Live(m, l)
    ensures var c := ParentAll(m, l); NewOnes(m, c.mem, None) && SharedFrom(l, c.areas)
    decreases |l|
  {
    hide WellFormed, Still;
    if l == [] {
      forall y <- m.objs ensures y < m.next { LiveIsOld(m, y); }
    } else {
      var c := ParentOne(m, l[0]);
      var r := ParentAll(c.mem, l[1..]);
      ParentOneFlat(m, l[0]);
      OneNew(m, l[0], c);
      ParentNew(c.mem, l[1..]);
      ParentAllFlat(c.mem, l[1..]);
      NewTrans(m, c.mem, r.mem);
      SharedCons(l, c.areas, r.areas);
    }
  }

  lemma OneNew(m: Mem, a: Area, c: Cut)
    requires WellFormed(m) && a.obj in m.objs && (c == ChildOne(m, a) || c == ParentOne(m, a))
    ensures NewOnes(m, c.mem, None) && SharedFrom([a], c.areas)
  {
    forall y <- m.objs ensures y < m.next { LiveIsOld(m, y); }
    hide WellFormed;
    forall b <- c.areas | !b.priv ensures exists x <- [a] :: !x.priv && x.obj == b.obj { assert a in [a]; }
  }

  lemma ForkStraight(m: Mem, l: seq<Area>)
    requires WellFormed(m) && Live(m, l) && Straight(m, l)
    ensures var child := ChildAll(m, l); var parent := ParentAll(child.mem, l);
            && Straight(parent.mem, child.areas) && Straight(parent.mem, parent.areas) && NewOnes(m, parent.mem, None)
  {
    hide WellFormed, ChildAll, ParentAll, Still, SharedFrom, NewOnes, Straight, FlatAll;
    var child := ChildAll(m, l);
    var parent := ParentAll(child.mem, l);
    ChildAllFlat(m, l);
    ChildNew(m, l);
    StillStraight(m, child.mem, l);
    ParentAllFlat(child.mem, l);
    ParentNew(child.mem, l);
    NewTrans(m, child.mem, parent.mem);
    SharedStraight(m, child.mem, l, child.areas);
    StillStraight(child.mem, parent.mem, child.areas);
    SharedStraight(child.mem, parent.mem, l, parent.areas);
  }

  lemma ForkRefines(s: Sys, u: Layout, f: FlatSys, i: nat)
    requires Refines(s, u, f) && i < |s.spaces| && i < |f.spaces|
    ensures Refines(ForkStep(s, i), u, f.(spaces := f.spaces + [f.spaces[i]]))
  {
    hide SysInv, PinsOk, StoreOk, Straight, Still, WellFormed, NewOnes, ChildAll, ParentAll, FlatAll, Live;
    RefinesParts(s, u, f);
    SpaceLive(s, u, i);
    var l := s.spaces[i];
    var child := ChildAll(s.mem, l);
    var parent := ParentAll(child.mem, l);
    var s', f' := ForkStep(s, i), f.(spaces := f.spaces + [f.spaces[i]]);
    ForkMeaning(s, u, i);
    ForkFlat(s.mem, l);
    ForkStraight(s.mem, l);
    StillKin(s.mem, parent.mem);
    StillPins(s.mem, parent.mem, None);
    StoreSame(s.mem, f, f');
    StillStore(s.mem, parent.mem, f');
    forall j | 0 <= j < |s.spaces| && j != i
      ensures FlatAll(s'.mem, s'.spaces[j]) == FlatAll(s.mem, s.spaces[j]) && Straight(s'.mem, s'.spaces[j]) {
      OtherSpaces(s, s', u, j);
      StillStraight(s.mem, parent.mem, s.spaces[j]);
    }
  }

  // ---------------------------------------------------------------------
  // Steps that leave the lists alone
  // ---------------------------------------------------------------------

  /** Nothing old changes kind, no space changes. */
  predicate SameLists(s: Sys, s': Sys) {
    && s'.spaces == s.spaces && s.mem.next <= s'.mem.next
    && forall o <- s'.mem.objs :: o < s.mem.next ==>
      o in s.mem.objs && (s'.mem.objs[o].kind.Shadow? <==> s.mem.objs[o].kind.Shadow?)
  }

  lemma SameListsStraight(s: Sys, s': Sys, u: Layout)
    requires SysInv(s, u) && SysInv(s', u) && SameLists(s, s') && StraightAll(s)
    ensures StraightAll(s')
  {
    hide SysInv, WellFormed;
    SysInvMem(s, u);
    forall i | 0 <= i < |s.spaces| ensures Straight(s'.mem, s'.spaces[i]) {
      assert Straight(s.mem, s.spaces[i]);
      forall a <- s.spaces[i] | !a.priv ensures a.obj in s'.mem.objs && !s'.mem.objs[a.obj].kind.Shadow? {
        AreaObjLives(s', u, i, a);
        LiveIsOld(s.mem, a.obj);
      }
    }
  }

  /** The chains are as they were. */
  lemma KinRefines(s: Sys, s': Sys, u: Layout, f: FlatSys, f': FlatSys)
    requires Refines(s, u, f) && SysInv(s', u) && s'.spaces == s.spaces && Kin(s.mem, s'.mem)
    requires PinsOk(s'.mem) && StoreOk(s'.mem, f') && f'.spaces == f.spaces
    ensures Refines(s', u, f')
  {
    hide SysInv, PinsOk, StoreOk, FlatAll, WellFormed, StraightAll;
    assert SameLists(s, s');
    SameListsStraight(s, s', u);
    hide Kin;
    forall j | 0 <= j < |s.spaces|
      ensures FlatAll(s'.mem, s'.spaces[j]) == FlatAll(s.mem, s.spaces[j]) { OtherSpaces(s, s', u, j); }
  }

  lemma PinsKin(m: Mem, m': Mem)
    requires WellFormed(m) && WellFormed(m') && PinsOk(m) && Kin(m, m')
    requires forall y <- m'.objs :: y >= m.next ==> m'.objs[y].frames == map[]
    requires forall y <- m'.objs :: y < m.next && m'.objs[y].kind.Anon? ==>
             y in m.objs && m.objs[y].kind.Anon? && (AllPinned(m.objs[y]) ==> AllPinned(m'.objs[y]))
    ensures PinsOk(m')
  {
    LooseKin(m, m');
    forall o <- m'.objs | m'.objs[o].kind.Anon? ensures AllPinned(m'.objs[o]) {
      if o < m.next { assert AllPinned(m.objs[o]); }
    }
  }

  lemma NoneNew(m: Mem, m': Mem)
    requires WellFormed(m') && m'.next == m.next
    ensures NewOnes(m, m', None)
  {
    forall y <- m'.objs ensures y < m.next { LiveIsOld(m', y); }
  }

  /** Reference counts change, or objects go. */
  lemma StillRefines(s: Sys, s': Sys, u: Layout, f: FlatSys)
    requires Refines(s, u, f) && SysInv(s', u) && s'.spaces == s.spaces && Still(s.mem, s'.mem)
             && s'.mem.next == s.mem.next
    ensures Refines(s', u, f)
  {
    hide Refines, SysInv, PinsOk, StoreOk, WellFormed, Still, NewOnes, Kin;
    RefinesParts(s, u, f);
    SysInvMem(s, u);
    SysInvMem(s', u);
    NoneNew(s.mem, s'.mem);
    StillKin(s.mem, s'.mem);
    StillPins(s.mem, s'.mem, None);
    StillStore(s.mem, s'.mem, f);
    KinRefines(s, s', u, f, f);
  }

  /** Anonymous pages that were pinned still are. */
  predicate PinsKept(m: Mem, m': Mem) {
    forall y <- m'.objs :: y in m.objs && (m'.objs[y].kind.Anon? <==> m.objs[y].kind.Anon?)
      && (m.objs[y].kind.Anon? && AllPinned(m.objs[y]) ==> AllPinned(m'.objs[y]))
  }

  lemma LookBasePins(m: Mem, o: nat, p: nat)
    ensures PinsKept(m, LookBase(m, o, p).mem)
  {
  }

  lemma ReadPins(m: Mem, o: nat, p: nat)
    ensures PinsKept(m, LookRead(m, o, p).mem)
  {
    LookBasePins(m, o, p);
    if o in m.objs && m.objs[o].kind.Shadow? { LookBasePins(m, m.objs[o].kind.bottom, p); }
    hide LookBase;
  }

  lemma KeptPins(m: Mem, m': Mem)
    requires WellFormed(m) && WellFormed(m') && PinsOk(m) && Kin(m, m') && PinsKept(m, m')
    ensures PinsOk(m')
  {
    forall y <- m'.objs ensures y < m.next { LiveIsOld(m, y); }
    PinsKin(m, m');
  }

  lemma SameViewsStore(m: Mem, m': Mem, f: FlatSys)
    requires StoreOk(m, f) && Steady(m, m') && SameViews(m, m')
    ensures StoreOk(m', f)
  {
    forall o <- m'.objs ensures StoreAt(m', f, o) { assert StoreAt(m, f, o); }
  }

  lemma ReadRefines(s: Sys, u: Layout, f: FlatSys, op: Op)
    requires u.low < u.high && Refines(s, u, f) && op.ReadFault? && Enabled(s, u, op)
    ensures Refines(Step(s, u, op), u, f)
  {
    hide Refines, SysInv, PinsOk, StoreOk, WellFormed, Kin, LookRead, Hit, PinsKept, Steady, SameViews, Inv;
    RefinesParts(s, u, f);
    StepInv(s, u, op);
    HitCovers(s, op.i, op.v, false);
    var a := Hit(s, op.i, op.v, false).value;
    var p := PageOf(a, op.v);
    var s' := Step(s, u, op);
    AreaObjLives(s, u, op.i, a);
    SysInvMem(s, u);
    SysInvMem(s', u);
    ReadIsInvisible(s.mem, a.obj, p, Holders(s));
    ReadSteady(s.mem, a.obj, p);
    ReadKin(s.mem, a.obj, p);
    ReadPins(s.mem, a.obj, p);
    KeptPins(s.mem, s'.mem);
    SameViewsStore(s.mem, s'.mem, f);
    KinRefines(s, s', u, f, f);
  }

  lemma OpenStore(m: Mem, f: FlatSys, disk: seq<Page>, linked: bool)
    requires StoreOk(m, f) && WellFormed(m)
    ensures StoreOk(AddObj(m, File(disk, linked)),
                    f.(store := StoredAll(f.store, m.next, DiskPages(disk)), disks := f.disks[m.next := disk]))
  {
    var m' := AddObj(m, File(disk, linked));
    var f' := f.(store := StoredAll(f.store, m.next, DiskPages(disk)), disks := f.disks[m.next := disk]);
    forall o <- m'.objs ensures StoreAt(m', f', o) {
      if o != m.next {
        LiveIsOld(m, o);
        assert StoreAt(m, f, o);
        if !m.objs[o].kind.Shadow? {
          forall p ensures View(m', o, p) == f'.store(o, p) { assert View(m', o, p) == View(m, o, p); }
        }
      }
    }
  }

  lemma OpenStill(m: Mem, k: Kind)
    requires WellFormed(m)
    ensures Still(m, AddObj(m, k)) && NewOnes(m, AddObj(m, k), Some(m.next))
  {
    forall y <- m.objs ensures y < m.next { LiveIsOld(m, y); }
    hide WellFormed;
  }

  function FlatOpened(f: FlatSys, id: nat, disk: seq<Page>): FlatSys {
    f.(store := StoredAll(f.store, id, DiskPages(disk)), disks := f.disks[id := disk])
  }

  lemma OpenRefines(s: Sys, u: Layout, f: FlatSys, disk: seq<Page>, linked: bool)
    requires Refines(s, u, f) && SysInv(OpenStep(s, disk, linked), u)
    ensures Refines(OpenStep(s, disk, linked), u, FlatOpened(f, s.mem.next, disk))
  {
    hide Refines, SysInv, PinsOk, StoreOk, WellFormed, StoredAll, Still, NewOnes, Kin, AddObj;
    RefinesParts(s, u, f);
    var s' := OpenStep(s, disk, linked);
    SysInvMem(s, u);
    SysInvMem(s', u);
    OpenStore(s.mem, f, disk, linked);
    OpenStill(s.mem, File(disk, linked));
    StillKin(s.mem, s'.mem);
    StillPins(s.mem, s'.mem, Some(s.mem.next));
    KinRefines(s, s', u, f, FlatOpened(f, s.mem.next, disk));
  }

  lemma UnlinkStore(m: Mem, f: FlatSys, o: nat)
    requires StoreOk(m, f) && IsFile(m, o)
    ensures StoreOk(Unlinked(m, o), f) && Kin(m, Unlinked(m, o)) && PinsKept(m, Unlinked(m, o))
  {
    var m' := Unlinked(m, o);
    forall y <- m'.objs ensures StoreAt(m', f, y) {
      assert StoreAt(m, f, y);
      forall p ensures View(m', y, p) == View(m, y, p) { UnlinkedShape(m, o, y, p); }
    }
  }

  lemma UnlinkRefines(s: Sys, u: Layout, f: FlatSys, o: nat)
    requires Refines(s, u, f) && IsFile(s.mem, o) && SysInv(UnlinkFileStep(s, o), u)
    ensures Refines(UnlinkFileStep(s, o), u, f)
  {
    hide Refines, SysInv, PinsOk, WellFormed, StoreOk, Unlinked, Kin, PinsKept;
    RefinesParts(s, u, f);
    var s' := UnlinkFileStep(s, o);
    SysInvMem(s, u);
    SysInvMem(s', u);
    UnlinkStore(s.mem, f, o);
    KeptPins(s.mem, s'.mem);
    KinRefines(s, s', u, f, f);
  }

  // ---------------------------------------------------------------------
  // Evictions
  // ---------------------------------------------------------------------

  function FlatReread(f: FlatSys, o: nat, p: nat): FlatSys
    requires o in f.disks
  {
    f.(store := Stored1(f.store, o, p, DiskPages(f.disks[o])(p)))
  }

  /** A file page goes: what is read next is what the disk holds. */
  lemma EvictFileStore(m: Mem, f: FlatSys, o: nat, p: nat)
    requires StoreOk(m, f) && IsFile(m, o) && o in f.disks
    ensures StoreOk(DropFrame(m, o, p), FlatReread(f, o, p)) && Kin(m, DropFrame(m, o, p))
            && PinsKept(m, DropFrame(m, o, p))
  {
    var m', f' := DropFrame(m, o, p), FlatReread(f, o, p);
    forall y <- m'.objs ensures StoreAt(m', f', y) {
      assert StoreAt(m, f, y);
      if !m.objs[y].kind.Shadow? {
        forall q ensures View(m', y, q) == f'.store(y, q) {
          assert View(m, y, q) == f.store(y, q);
        }
      }
    }
  }

  lemma DropWellFormed(m: Mem, held: multiset<nat>, o: nat, p: nat)
    requires Inv(m, held) && IsFile(m, o) && p in m.objs[o].frames
    ensures WellFormed(DropFrame(m, o, p)) && DropFrame(m, o, p).next == m.next
  {
    DropFrameInv(m, held, o, p);
  }

  lemma KinTrans(m: Mem, m1: Mem, m2: Mem)
    requires Kin(m, m1) && Kin(m1, m2)
    ensures Kin(m, m2)
  {
  }

  lemma EvictFileRefines(s: Sys, u: Layout, f: FlatSys, o: nat, p: nat)
    requires Refines(s, u, f) && IsFile(s.mem, o) && p in s.mem.objs[o].frames && SysInv(EvictStep(s, o, p), u)
             && o in f.disks
    ensures Refines(EvictStep(s, o, p), u, FlatReread(f, o, p))
  {
    hide Refines, SysInv, PinsOk, WellFormed, StoreOk, DropFrame, Kin, PinsKept, Still, NewOnes, Release, Inv,
         FlatReread;
    RefinesParts(s, u, f);
    var s', m1 := EvictStep(s, o, p), DropFrame(s.mem, o, p);
    SysInvMem(s, u);
    SysInvMem(s', u);
    EvictFileStore(s.mem, f, o, p);
    DropWellFormed(s.mem, Holders(s), o, p);
    KeptPins(s.mem, m1);
    ReleaseStill(m1, o);
    ReleaseTrims(m1, o);
    NoneNew(m1, s'.mem);
    StillKin(m1, s'.mem);
    StillPins(m1, s'.mem, None);
    StillStore(m1, s'.mem, FlatReread(f, o, p));
    KinTrans(s.mem, m1, s'.mem);
    RereadSpaces(f, o, p);
    KinRefines(s, s', u, f, FlatReread(f, o, p));
  }

  lemma RereadSpaces(f: FlatSys, o: nat, p: nat)
    requires o in f.disks
    ensures FlatReread(f, o, p).spaces == f.spaces
  {
  }

  lemma {:induction false} LostList(m: Mem, m': Mem, l: seq<Area>, o: nat, p: nat)
    requires forall a <- l ::
             CopiesOf(m', a.obj) == Lost(CopiesOf(m, a.obj), o, p) && Bottom(m', a.obj) == Bottom(m, a.obj)
    ensures FlatAll(m', l) == LostIn(FlatAll(m, l), o, p)
  {
    if l != [] {
      LostList(m, m', l[1..], o, p);
      assert LostIn(FlatAll(m, l), o, p)[1..] == LostIn(FlatAll(m, l[1..]), o, p);
    }
  }

  function FlatLost(f: FlatSys, o: nat, p: nat): FlatSys {
    f.(spaces := seq(|f.spaces|, i requires 0 <= i < |f.spaces| => LostIn(f.spaces[i], o, p)))
  }

  /** The page of a shadow goes; objects at the end of a chain do not notice. */
  lemma EvictTopStore(m: Mem, f: FlatSys, f': FlatSys, o: nat, x: Obj)
    requires StoreOk(m, f) && o in m.objs && m.objs[o].kind.Shadow? && x.kind == m.objs[o].kind && f'.store == f.store
             && f'.disks == f.disks
    ensures StoreOk(SetObj(m, o, x), f')
  {
    var m' := SetObj(m, o, x);
    forall y <- m'.objs ensures StoreAt(m', f', y) {
      assert StoreAt(m, f, y);
      if !m.objs[y].kind.Shadow? {
        forall q ensures View(m', y, q) == f'.store(y, q) { assert View(m', y, q) == View(m, y, q); }
      }
    }
  }

  lemma LooseFact(m: Mem, o: nat, p: nat)
    requires PinsOk(m) && o in m.objs && p in m.objs[o].frames && m.objs[o].frames[p].pins == 0 && !IsFile(m, o)
    ensures m.objs[o].kind.Shadow? && p !in CopiesOf(m, m.objs[o].kind.under)
  {
    assert m.objs[o].kind.Anon? ==> AllPinned(m.objs[o]);
    if m.objs[o].kind.Shadow? { assert LooseAt(m, o); }
  }

  lemma EvictPins(m: Mem, o: nat, p: nat)
    requires WellFormed(m) && PinsOk(m) && o in m.objs && m.objs[o].kind.Shadow? && p in m.objs[o].frames
    requires p !in CopiesOf(m, m.objs[o].kind.under)
    ensures PinsOk(SetObj(m, o, WithoutPage(m.objs[o], p)))
  {
    LooseEvict(m, o, p);
    var m' := SetObj(m, o, WithoutPage(m.objs[o], p));
    forall y <- m'.objs | m'.objs[y].kind.Anon? ensures AllPinned(m'.objs[y]) { assert AllPinned(m.objs[y]); }
  }

  lemma EvictTopRefines(s: Sys, u: Layout, f: FlatSys, o: nat, p: nat)
    requires Refines(s, u, f) && o in s.mem.objs && p in s.mem.objs[o].frames && s.mem.objs[o].frames[p].pins == 0
    requires !IsFile(s.mem, o) && SysInv(EvictStep(s, o, p), u)
    ensures Refines(EvictStep(s, o, p), u, FlatLost(f, o, p))
  {
    hide SysInv, PinsOk, WellFormed, StoreOk, Release, Inv, StraightAll, FlatAll, LostIn;
    RefinesParts(s, u, f);
    SysInvMem(s, u);
    InUse(s.mem, Holders(s), o);
    EvictForm(s.mem, o, p);
    LooseFact(s.mem, o, p);
    var s', f' := EvictStep(s, o, p), FlatLost(f, o, p);
    EvictPins(s.mem, o, p);
    EvictTopStore(s.mem, f, f', o, WithoutPage(s.mem.objs[o], p));
    assert SameLists(s, s');
    SameListsStraight(s, s', u);
    forall j | 0 <= j < |s.spaces| ensures FlatAll(s'.mem, s'.spaces[j]) == LostIn(FlatAll(s.mem, s.spaces[j]), o, p) {
      EvictTopSpace(s, u, o, p, j);
    }
  }

  lemma EvictTopSpace(s: Sys, u: Layout, o: nat, p: nat, j: nat)
    requires SysInv(s, u) && j < |s.spaces| && o in s.mem.objs && s.mem.objs[o].kind.Shadow?
             && p in s.mem.objs[o].frames
    requires p !in CopiesOf(s.mem, s.mem.objs[o].kind.under)
    ensures FlatAll(SetObj(s.mem, o, WithoutPage(s.mem.objs[o], p)), s.spaces[j]) ==
            LostIn(FlatAll(s.mem, s.spaces[j]), o, p)
  {
    hide SysInv, FlatAll, LostIn, WellFormed;
    SpaceLive(s, u, j);
    var m' := SetObj(s.mem, o, WithoutPage(s.mem.objs[o], p));
    forall a <- s.spaces[j] ensures CopiesOf(m', a.obj) == Lost(CopiesOf(s.mem, a.obj), o, p)
      && Bottom(m', a.obj) == Bottom(s.mem, a.obj) {
      EvictFlat(s.mem, o, p, a.obj);
    }
    LostList(s.mem, m', s.spaces[j], o, p);
  }

  // ---------------------------------------------------------------------
  // Stores
  // ---------------------------------------------------------------------

  /** Where a store goes. */
  lemma WriteHits(s: Sys, u: Layout, f: FlatSys, op: Op)
    requires u.low < u.high && Refines(s, u, f) && op.WriteFault? && Enabled(s, u, op)
    ensures op.i < |s.spaces| && op.i < |f.spaces| && Hit(s, op.i, op.v, true).Some?
    ensures var a := Hit(s, op.i, op.v, true).value; var r := FlatFind(f.spaces[op.i], op.v);
            && a in s.spaces[op.i] && Covers(a, op.v) && Find(s.spaces[op.i], op.v) == Some(a)
            && r.Some? && r.value < |s.spaces[op.i]| && s.spaces[op.i][r.value] == a
            && f.spaces[op.i][r.value] == Flat(s.mem, a)
            && Content(f, Flat(s.mem, a), PageOf(a, op.v)) == View(s.mem, a.obj, PageOf(a, op.v))
            && a.obj in s.mem.objs && (!a.priv ==> !s.mem.objs[a.obj].kind.Shadow?)
  {
    hide Refines, SysInv, FlatAll, FlatFind, Find, Content, View;
    SpaceFlat(s, u, f);
    HitCovers(s, op.i, op.v, true);
    RefinesParts(s, u, f);
    var l, a := s.spaces[op.i], Hit(s, op.i, op.v, true).value;
    FindFlat(s.mem, l, op.v);
    FlatAllAt(s.mem, l, FlatFind(f.spaces[op.i], op.v).value);
    ContentFlat(s, u, f, op.i, a, PageOf(a, op.v));
    AreaObjLives(s, u, op.i, a);
    assert Straight(s.mem, l);
  }

  function FlatStored(f: FlatSys, o: nat, p: nat, there: bool, data: Page): FlatSys {
    if there then f.(store := Stored1(f.store, o, p, Some(data))) else f
  }

  lemma SharedStore(m: Mem, f: FlatSys, o: nat, p: nat, junk: Page, data: Page)
    requires StoreOk(m, f) && o in m.objs && !m.objs[o].kind.Shadow? && Local(m.objs[o])
    ensures StoreOk(WritePage(m, o, p, junk, data), FlatStored(f, o, p, View(m, o, p).Some?, data))
  {
    BaseWrite(m, o, p, junk, data);
    WriteSteady(m, o, p, junk);
    hide LookWrite;
    var m', f' := WritePage(m, o, p, junk, data), FlatStored(f, o, p, View(m, o, p).Some?, data);
    hide WritePage;
    forall y <- m'.objs ensures StoreAt(m', f', y) {
      assert StoreAt(m, f, y);
      if !m.objs[y].kind.Shadow? {
        forall q ensures View(m', y, q) == f'.store(y, q) {
          assert View(m, y, q) == f.store(y, q);
          if y != o { assert View(m', y, q) == View(m, y, q); }
        }
      }
    }
  }

  lemma SharedPins(m: Mem, o: nat, p: nat, junk: Page, data: Page)
    requires o in m.objs && !m.objs[o].kind.Shadow?
    ensures PinsKept(m, WritePage(m, o, p, junk, data))
  {
    LookBasePins(m, o, p);
  }

  lemma SharedRefines(s: Sys, u: Layout, f: FlatSys, o: nat, p: nat, junk: Page, data: Page)
    requires Refines(s, u, f) && o in s.mem.objs && !s.mem.objs[o].kind.Shadow?
    requires SysInv(s.(mem := WritePage(s.mem, o, p, junk, data)), u)
    ensures Refines(s.(mem := WritePage(s.mem, o, p, junk, data)), u,
                    FlatStored(f, o, p, View(s.mem, o, p).Some?, data))
  {
    hide Refines, SysInv, PinsOk, StoreOk, WritePage, PinsKept, Kin, View;
    RefinesParts(s, u, f);
    var s' := s.(mem := WritePage(s.mem, o, p, junk, data));
    SysInvMem(s, u);
    SysInvMem(s', u);
    assert Local(s.mem.objs[o]) by { assert ObjOk(s.mem, o); }
    hide WellFormed;
    BaseWrite(s.mem, o, p, junk, data);
    SharedStore(s.mem, f, o, p, junk, data);
    SharedPins(s.mem, o, p, junk, data);
    KeptPins(s.mem, s'.mem);
    KinRefines(s, s', u, f, FlatStored(f, o, p, View(s.mem, o, p).Some?, data));
  }

  /** A copy in one area of a list. */
  lemma {:induction false} CopiedList(m: Mem, m': Mem, l: seq<Area>, k: nat, c: map<nat, Copy>)
    requires k < |l| && CopiesOf(m', l[k].obj) == c && Bottom(m', l[k].obj) == Bottom(m, l[k].obj)
    requires forall j :: 0 <= j < |l| && j != k ==>
             CopiesOf(m', l[j].obj) == CopiesOf(m, l[j].obj) && Bottom(m', l[j].obj) == Bottom(m, l[j].obj)
    ensures FlatAll(m', l) == FlatAll(m, l)[k := Flat(m, l[k]).(copies := c)]
    decreases |l|
  {
    hide CopiesOf, Bottom;
    if k > 0 {
      CopiedList(m, m', l[1..], k - 1, c);
    } else {
      SameList(m, m', l[1..]);
    }
  }

  lemma {:induction false} SameList(m: Mem, m': Mem, l: seq<Area>)
    requires forall a <- l :: CopiesOf(m', a.obj) == CopiesOf(m, a.obj) && Bottom(m', a.obj) == Bottom(m, a.obj)
    ensures FlatAll(m', l) == FlatAll(m, l)
  {
    hide CopiesOf, Bottom;
    if l != [] { SameList(m, m', l[1..]); }
  }

  lemma PrivatePins(m: Mem, o: nat, p: nat, junk: Page, data: Page)
    requires o in m.objs && m.objs[o].kind.Shadow?
    ensures PinsKept(m, WritePage(m, o, p, junk, data))
  {
    if p !in m.objs[o].frames {
      var m1 := AddFrame(m, o, p, Frame(junk, 0));
      ReadPins(m1, m.objs[o].kind.under, p);
      ReadSteady(m1, m.objs[o].kind.under, p);
      hide LookRead;
    }
  }

  lemma PrivateStore(m: Mem, held: multiset<nat>, f: FlatSys, f': FlatSys, o: nat, p: nat, junk: Page, data: Page)
    requires StoreOk(m, f) && Inv(m, held) && Sole(m, o) && o in held && f'.store == f.store && f'.disks == f.disks
    ensures StoreOk(WritePage(m, o, p, junk, data), f')
  {
    hide Inv, WritePage, Stored;
    TopWriteForm(m, held, o, p, junk, data);
    var m' := WritePage(m, o, p, junk, data);
    forall y <- m'.objs ensures StoreAt(m', f', y) {
      assert StoreAt(m, f, y);
      if !m.objs[y].kind.Shadow? {
        forall q ensures View(m', y, q) == f'.store(y, q) { WriteIsPrivate(m, held, o, p, junk, data, y, q); }
      }
    }
  }

  lemma AnonsStay(m: Mem, m': Mem)
    requires PinsOk(m) && PinsKept(m, m') && LooseOk(m')
    ensures PinsOk(m')
  {
    forall o <- m'.objs | m'.objs[o].kind.Anon? ensures AllPinned(m'.objs[o]) { assert AllPinned(m.objs[o]); }
  }

  /** The copies after a private store, for the area and for everyone else. */
  lemma PrivateCopies(m: Mem, held: multiset<nat>, o: nat, p: nat, junk: Page, data: Page)
    requires Inv(m, held) && Sole(m, o) && o in held && PinsOk(m)
    ensures var m' := WritePage(m, o, p, junk, data);
            && CopiesOf(m', o) == CopiesOf(m, o)[p := Copy(o, Stored(m, o, p, junk, data))] && PinsOk(m')
            && (forall y <- m.objs :: Bottom(m', y) == Bottom(m, y) && (y != o ==> CopiesOf(m', y) == CopiesOf(m, y)))
            && m'.objs.Keys == m.objs.Keys && m'.next == m.next && forall y <- m.objs ::
              m'.objs[y].kind == m.objs[y].kind
  {
    hide Inv, WritePage, WellFormed, PinsKept, LooseOk, Unshadowed, View, CopiesOf;
    InvWellFormed(m, held);
    SoleIsHeldOnce(m, held, o);
    TopWriteForm(m, held, o, p, junk, data);
    var m', x := WritePage(m, o, p, junk, data), Frame(Stored(m, o, p, junk, data), PinsAfter(m, o, p));
    TopWriteFlat(m, m', o, p, x);
    forall y <- m.objs ensures Bottom(m', y) == Bottom(m, y)
      && (y != o ==> CopiesOf(m', y) == CopiesOf(m, y)) { OnlyTopFlat(m, m', o, y); }
    JunkIsAlone(m, o, p);
    LooseWrite(m, m', o, p, x);
    PrivatePins(m, o, p, junk, data);
    AnonsStay(m, m');
  }

  lemma InvWellFormed(m: Mem, held: multiset<nat>)
    requires Inv(m, held)
    ensures WellFormed(m)
  {
  }

  lemma JunkIsAlone(m: Mem, o: nat, p: nat)
    requires WellFormed(m) && o in m.objs && m.objs[o].kind.Shadow?
    ensures PinsAfter(m, o, p) == 0 ==>
              (p in m.objs[o].frames && m.objs[o].frames[p].pins == 0) || p !in CopiesOf(m, m.objs[o].kind.under)
  {
    ViewIsFlat(m, o, p);
    UnderOk(m, o);
    CopiesStep(m, o);
    hide WellFormed;
  }

  /** The area at position `k` is nowhere else. */
  lemma OnlyOnce(s: Sys, u: Layout, i: nat, k: nat, j: nat, x: nat)
    requires SysInv(s, u) && i < |s.spaces| && k < |s.spaces[i]| && s.spaces[i][k].priv
    requires j < |s.spaces| && x < |s.spaces[j]| && (j != i || x != k)
    ensures s.spaces[j][x].obj != s.spaces[i][k].obj
  {
    var a, b := s.spaces[i][k], s.spaces[j][x];
    SpaceBacked(s, u, i);
    assert a in s.spaces[i] && b in s.spaces[j];
    if j == i {
      var l := s.spaces[i];
      assert InUser(l[k], u) && InUser(l[x], u);
      assert l[if k < x then k else x].end <= l[if k < x then x else k].start;
      assert a != b;
    }
    if a.obj == b.obj { PrivateObjIsOwn(s, u, i, a, j, b); }
  }

  function FlatCopied(f: FlatSys, i: nat, k: nat, p: nat, c: Copy): FlatSys
    requires i < |f.spaces| && k < |f.spaces[i]|
  {
    f.(spaces := f.spaces[i := f.spaces[i][k := f.spaces[i][k].(copies := f.spaces[i][k].copies[p := c])]])
  }

  lemma PrivateRefines(s: Sys, u: Layout, f: FlatSys, i: nat, k: nat, p: nat, junk: Page, data: Page)
    requires Refines(s, u, f) && i < |s.spaces| && k < |s.spaces[i]| && s.spaces[i][k].priv && i < |f.spaces|
             && k < |f.spaces[i]|
    requires SysInv(s.(mem := WritePage(s.mem, s.spaces[i][k].obj, p, junk, data)), u)
    ensures var o := s.spaces[i][k].obj;
            Refines(s.(mem := WritePage(s.mem, o, p, junk, data)), u,
                    FlatCopied(f, i, k, p, Copy(o, Stored(s.mem, o, p, junk, data))))
  {
    hide SysInv, PinsOk, StoreOk, WritePage, Stored, Inv, CopiesOf, Bottom, FlatAll, StraightAll, Straight, Sole,
         Holders;
    RefinesParts(s, u, f);
    SysInvMem(s, u);
    var l, o := s.spaces[i], s.spaces[i][k].obj;
    var s', c := s.(mem := WritePage(s.mem, o, p, junk, data)), Copy(o, Stored(s.mem, o, p, junk, data));
    var f' := FlatCopied(f, i, k, p, c);
    TopOf(s, u, i, l[k]);
    PrivateCopies(s.mem, Holders(s), o, p, junk, data);
    PrivateStore(s.mem, Holders(s), f, f', o, p, junk, data);
    assert SameLists(s, s') by { SameListsAre(s, s'); }
    SameListsStraight(s, s', u);
    FlatAllAt(s.mem, l, k);
    PrivateSpace(s, s', u, i, k, CopiesOf(s.mem, o)[p := c]);
    forall j | 0 <= j < |s.spaces| && j != i ensures FlatAll(s'.mem, s'.spaces[j]) == FlatAll(s.mem, s.spaces[j]) {
      PrivateElsewhere(s, s', u, i, k, j);
    }
  }

  lemma SameListsAre(s: Sys, s': Sys)
    requires s'.spaces == s.spaces && s'.mem.next == s.mem.next && s'.mem.objs.Keys == s.mem.objs.Keys
    requires forall y <- s.mem.objs :: s'.mem.objs[y].kind == s.mem.objs[y].kind
    ensures SameLists(s, s')
  {
  }

  lemma TopOf(s: Sys, u: Layout, i: nat, a: Area)
    requires SysInv(s, u) && i < |s.spaces| && a in s.spaces[i] && a.priv
    ensures Sole(s.mem, a.obj) && a.obj in Holders(s)
  {
    AreaObjLives(s, u, i, a);
  }

  lemma PrivateSpace(s: Sys, s': Sys, u: Layout, i: nat, k: nat, c: map<nat, Copy>)
    requires SysInv(s, u) && i < |s.spaces| && k < |s.spaces[i]| && s.spaces[i][k].priv && s'.spaces == s.spaces
    requires CopiesOf(s'.mem, s.spaces[i][k].obj) == c
    requires forall y <- s.mem.objs ::
             Bottom(s'.mem, y) == Bottom(s.mem, y)
               && (y != s.spaces[i][k].obj ==> CopiesOf(s'.mem, y) == CopiesOf(s.mem, y))
    ensures FlatAll(s'.mem, s.spaces[i]) == FlatAll(s.mem, s.spaces[i])[k := Flat(s.mem, s.spaces[i][k]).(copies := c)]
  {
    hide SysInv, CopiesOf, Bottom, FlatAll, WellFormed;
    SpaceLive(s, u, i);
    var l := s.spaces[i];
    forall j | 0 <= j < |l| && j != k
      ensures CopiesOf(s'.mem, l[j].obj) == CopiesOf(s.mem, l[j].obj)
              && Bottom(s'.mem, l[j].obj) == Bottom(s.mem, l[j].obj) {
      OnlyOnce(s, u, i, k, i, j);
      assert l[j] in l;
    }
    assert l[k] in l;
    CopiedList(s.mem, s'.mem, l, k, c);
  }

  lemma PrivateElsewhere(s: Sys, s': Sys, u: Layout, i: nat, k: nat, j: nat)
    requires SysInv(s, u) && i < |s.spaces| && k < |s.spaces[i]| && s.spaces[i][k].priv && s'.spaces == s.spaces
             && j < |s.spaces| && j != i
    requires forall y <- s.mem.objs ::
             Bottom(s'.mem, y) == Bottom(s.mem, y)
               && (y != s.spaces[i][k].obj ==> CopiesOf(s'.mem, y) == CopiesOf(s.mem, y))
    ensures FlatAll(s'.mem, s.spaces[j]) == FlatAll(s.mem, s.spaces[j])
  {
    hide SysInv, CopiesOf, Bottom, FlatAll, WellFormed;
    SpaceLive(s, u, j);
    forall a <- s.spaces[j] ensures CopiesOf(s'.mem, a.obj) == CopiesOf(s.mem, a.obj)
      && Bottom(s'.mem, a.obj) == Bottom(s.mem, a.obj) {
      var x :| 0 <= x < |s.spaces[j]| && s.spaces[j][x] == a;
      OnlyOnce(s, u, i, k, j, x);
    }
    SameList(s.mem, s'.mem, s.spaces[j]);
  }

  lemma FlatWriteIs(f: FlatSys, i: nat, v: nat, junk: Page, data: Page, id: nat, k: nat)
    requires i < |f.spaces| && FlatFind(f.spaces[i], v) == Some(k)
    ensures var a := f.spaces[i][k]; var p := FlatPage(a, v);
            FlatWrite(f, i, v, junk, data, id) ==
            if a.priv then FlatCopied(f, i, k, p, Copy(id, if Content(f, a, p).Some? then data else junk))
            else FlatStored(f, a.base, p, Content(f, a, p).Some?, data)
  {
    hide FlatFind;
  }

  lemma WriteStepIs(s: Sys, u: Layout, op: Op, a: Area)
    requires u.low < u.high && op.WriteFault? && Enabled(s, u, op) && Hit(s, op.i, op.v, true) == Some(a)
             && Covers(a, op.v)
    ensures Step(s, u, op) == s.(mem := WritePage(s.mem, a.obj, PageOf(a, op.v), op.junk, op.data))
    ensures NewId(s, u, op) == a.obj
  {
    hide WritePage, Hit;
  }

  lemma WriteRefines(s: Sys, u: Layout, f: FlatSys, op: Op)
    requires u.low < u.high && Refines(s, u, f) && op.WriteFault? && Enabled(s, u, op)
    ensures Refines(Step(s, u, op), u, FlatStep(f, u, op, NewId(s, u, op)))
  {
    hide Refines, SysInv, WritePage, Hit, FlatFind, Find, Step, NewId, Enabled, FlatCopied, FlatStored, FlatWrite, View;
    RefinesParts(s, u, f);
    WriteHits(s, u, f, op);
    StepInv(s, u, op);
    var a, k := Hit(s, op.i, op.v, true).value, FlatFind(f.spaces[op.i], op.v).value;
    var p := PageOf(a, op.v);
    WriteStepIs(s, u, op, a);
    FlatWriteIs(f, op.i, op.v, op.junk, op.data, a.obj, k);
    if a.priv {
      PrivateRefines(s, u, f, op.i, k, p, op.junk, op.data);
    } else {
      SharedRefines(s, u, f, a.obj, p, op.junk, op.data);
    }
  }

  // ---------------------------------------------------------------------
  // Growing an area, and new spaces
  // ---------------------------------------------------------------------

  lemma {:induction false} ExtendFlat(m: Mem, l: seq<Area>, j: nat, end: nat)
    requires j < |l|
    ensures FlatAll(m, Extended(l, j, end)) == FlatAll(m, l)[j := FlatAll(m, l)[j].(end := end)]
    decreases |l|
  {
    hide CopiesOf, Bottom;
    if j > 0 {
      assert Extended(l, j, end)[1..] == Extended(l[1..], j - 1, end);
      ExtendFlat(m, l[1..], j - 1, end);
    } else {
      assert Extended(l, j, end)[1..] == l[1..];
    }
  }

  lemma ExtendRefines(s: Sys, u: Layout, f: FlatSys, i: nat, j: nat, end: nat)
    requires Refines(s, u, f) && i < |s.spaces| && j < |s.spaces[i]| && SysInv(ExtendStep(s, i, j, end), u)
    requires i < |f.spaces| && j < |f.spaces[i]|
    ensures Refines(ExtendStep(s, i, j, end), u,
                    f.(spaces := f.spaces[i := f.spaces[i][j := f.spaces[i][j].(end := end)]]))
  {
    hide SysInv, PinsOk, StoreOk, FlatAll;
    RefinesParts(s, u, f);
    StoreSame(s.mem, f, f.(spaces := f.spaces[i := f.spaces[i][j := f.spaces[i][j].(end := end)]]));
    var l := s.spaces[i];
    ExtendFlat(s.mem, l, j, end);
    forall a <- Extended(l, j, end) | !a.priv ensures a.obj in s.mem.objs && !s.mem.objs[a.obj].kind.Shadow? {
      assert l[j] in l;
      assert a in l || a == l[j].(end := end);
    }
  }

  lemma NewSpaceRefines(s: Sys, u: Layout, f: FlatSys)
    requires Refines(s, u, f)
    ensures Refines(s.(spaces := s.spaces + [[]]), u, f.(spaces := f.spaces + [[]]))
  {
    hide SysInv, PinsOk, StoreOk;
    RefinesParts(s, u, f);
    NewSpaceInv(s, u);
    StoreSame(s.mem, f, f.(spaces := f.spaces + [[]]));
  }

  // ---------------------------------------------------------------------
  // All steps, all runs
  // ---------------------------------------------------------------------

  lemma EvictRefines(s: Sys, u: Layout, f: FlatSys, op: Op)
    requires u.low < u.high && Refines(s, u, f) && op.EvictOp? && Enabled(s, u, op)
    ensures Refines(Step(s, u, op), u, FlatStep(f, u, op, NewId(s, u, op)))
  {
    var o, p := op.o, op.p;
    hide Refines, SysInv, EvictStep, FlatLost, FlatReread;
    StepInv(s, u, op);
    FilesKnown(s, u, f, o);
    FlatEvictIs(f, u, op, NewId(s, u, op));
    if IsFile(s.mem, o) {
      EvictFileRefines(s, u, f, o, p);
    } else {
      EvictTopRefines(s, u, f, o, p);
    }
  }

  lemma FilesKnown(s: Sys, u: Layout, f: FlatSys, o: nat)
    requires Refines(s, u, f) && o in s.mem.objs
    ensures o in f.disks <==> IsFile(s.mem, o)
  {
    assert StoreAt(s.mem, f, o);
  }

  lemma FlatEvictIs(f: FlatSys, u: Layout, op: Op, id: nat)
    requires op.EvictOp?
    ensures FlatStep(f, u, op, id) == if op.o in f.disks then FlatReread(f, op.o, op.p) else FlatLost(f, op.o, op.p)
  {
    hide Stored1, DiskPages, LostIn;
    assert FlatLost(f, op.o, op.p).spaces == seq(|f.spaces|, i
                                                 requires 0 <= i < |f.spaces| => LostIn(f.spaces[i], op.o, op.p));
  }

  /** Every operation keeps the two systems together. */
  lemma StepRefines(s: Sys, u: Layout, f: FlatSys, op: Op)
    requires u.low < u.high && Refines(s, u, f) && Enabled(s, u, op)
    ensures Refines(Step(s, u, op), u, FlatStep(f, u, op, NewId(s, u, op)))
  {
    if op.MapOp? { MapRefines(s, u, f, op); }
    else if op.WriteFault? { WriteRefines(s, u, f, op); }
    else if op.EvictOp? { EvictRefines(s, u, f, op); }
    else if op.ReadFault? { ReadRefines(s, u, f, op); FlatReadIs(f, u, op, NewId(s, u, op)); }
    else if op.OpenOp? || op.RefOp? || op.CloseOp? || op.UnlinkOp? { OutsideRefines(s, u, f, op); }
    else { ListRefines(s, u, f, op); }
  }

  lemma FlatReadIs(f: FlatSys, u: Layout, op: Op, id: nat)
    requires op.ReadFault? || op.RefOp? || op.CloseOp? || op.UnlinkOp?
    ensures FlatStep(f, u, op, id) == f
  {
  }

  lemma OpenOpRefines(s: Sys, u: Layout, f: FlatSys, disk: seq<Page>, linked: bool)
    requires u.low < u.high && Refines(s, u, f)
    ensures var op := OpenOp(disk, linked); Refines(Step(s, u, op), u, FlatStep(f, u, op, NewId(s, u, op)))
  {
    hide Refines, SysInv, StoredAll, DiskPages;
    RefinesParts(s, u, f);
    StepInv(s, u, OpenOp(disk, linked));
    OpenRefines(s, u, f, disk, linked);
  }

  lemma RefOpRefines(s: Sys, u: Layout, f: FlatSys, o: nat)
    requires u.low < u.high && Refines(s, u, f) && IsFile(s.mem, o)
    ensures Refines(Step(s, u, RefOp(o)), u, f)
  {
    hide Refines, SysInv, WellFormed, Still;
    RefinesParts(s, u, f);
    StepInv(s, u, RefOp(o));
    SysInvMem(s, u);
    AddRefStill(s.mem, o);
    StillRefines(s, RefStep(s, o), u, f);
  }

  lemma CloseOpRefines(s: Sys, u: Layout, f: FlatSys, o: nat)
    requires u.low < u.high && Refines(s, u, f) && o in s.ext
    ensures Refines(Step(s, u, CloseOp(o)), u, f)
  {
    hide Refines, SysInv, WellFormed, Still, Release;
    RefinesParts(s, u, f);
    StepInv(s, u, CloseOp(o));
    SysInvMem(s, u);
    ReleaseStill(s.mem, o);
    ReleaseTrims(s.mem, o);
    StillRefines(s, CloseStep(s, o), u, f);
  }

  lemma UnlinkOpRefines(s: Sys, u: Layout, f: FlatSys, o: nat)
    requires u.low < u.high && Refines(s, u, f) && IsFile(s.mem, o)
    ensures Refines(Step(s, u, UnlinkOp(o)), u, f)
  {
    hide Refines, SysInv, Unlinked;
    RefinesParts(s, u, f);
    StepInv(s, u, UnlinkOp(o));
    UnlinkRefines(s, u, f, o);
  }

  lemma OutsideRefines(s: Sys, u: Layout, f: FlatSys, op: Op)
    requires u.low < u.high && Refines(s, u, f) && Enabled(s, u, op)
    requires op.OpenOp? || op.RefOp? || op.CloseOp? || op.UnlinkOp?
    ensures Refines(Step(s, u, op), u, FlatStep(f, u, op, NewId(s, u, op)))
  {
    hide Refines, Step, FlatStep, NewId;
    if !op.OpenOp? { FlatReadIs(f, u, op, NewId(s, u, op)); }
    match op
    case OpenOp(disk, linked) => OpenOpRefines(s, u, f, disk, linked);
    case RefOp(o) => RefOpRefines(s, u, f, o);
    case CloseOp(o) => CloseOpRefines(s, u, f, o);
    case UnlinkOp(o) => UnlinkOpRefines(s, u, f, o);
  }

  lemma ListRefines(s: Sys, u: Layout, f: FlatSys, op: Op)
    requires u.low < u.high && Refines(s, u, f) && Enabled(s, u, op)
    requires op.NewSpace? || op.UnmapOp? || op.ForkOp? || op.DestroyOp? || op.ExtendOp?
    ensures Refines(Step(s, u, op), u, FlatStep(f, u, op, NewId(s, u, op)))
  {
    hide Refines, SysInv, UnmapStep, ForkStep, ExtendStep, FlatCutAll, FlatAll;
    RefinesParts(s, u, f);
    StepInv(s, u, op);
    match op
    case NewSpace => NewSpaceRefines(s, u, f);
    case UnmapOp(i, lo, n) => CutRefines(s, u, f, i, lo, lo + n);
    case ForkOp(i) => ForkRefines(s, u, f, i);
    case DestroyOp(i) => DestroyIsUnmap(s, u, i); CutRefines(s, u, f, i, u.low, u.high);
    case ExtendOp(i, j, end) => ExtendRefines(s, u, f, i, j, end);
  }

  lemma DestroyIsUnmap(s: Sys, u: Layout, i: nat)
    requires u.low < u.high && i < |s.spaces|
    ensures DestroyStep(s, u, i) == UnmapStep(s, i, u.low, u.high)
  {
  }

  lemma {:induction false} RunRefines(s: Sys, u: Layout, f: FlatSys, ops: seq<Op>)
    requires u.low < u.high && Refines(s, u, f)
    ensures Refines(Run(s, u, ops), u, FlatRun(f, s, u, ops))
    decreases |ops|
  {
    hide Refines, Step, FlatStep, Enabled, NewId;
    if ops != [] {
      if Enabled(s, u, ops[0]) {
        StepRefines(s, u, f, ops[0]);
        RunRefines(Step(s, u, ops[0]), u, FlatStep(f, u, ops[0], NewId(s, u, ops[0])), ops[1..]);
      } else {
        RunRefines(s, u, f, ops[1..]);
      }
    }
  }

  function FlatBoot(): FlatSys {
    FlatSys([], (o: nat, p: nat) => None, map[])
  }

  lemma BootHolds(u: Layout)
    requires u.low < u.high
    ensures Refines(Boot, u, FlatBoot())
  {
    BootInv(u);
  }

  /** Copy-on-write is copying: after every run from boot every process sees at every
      page what it would see if each area kept its own copies and fork copied them
      all at once. The flat run does what the other one does: which operations are
      enabled, and the numbers of new objects, it takes from there. */
  lemma BootRefines(u: Layout, ops: seq<Op>, i: nat, v: nat)
    requires u.low < u.high
    ensures SysAt(Run(Boot, u, ops), i, v) == FlatAt(FlatRun(FlatBoot(), Boot, u, ops), i, v)
  {
    BootHolds(u);
    RunRefines(Boot, u, FlatBoot(), ops);
    RefinesShows(Run(Boot, u, ops), u, FlatRun(FlatBoot(), Boot, u, ops), i, v);
  }
}
