/** Whole runs of the virtual memory system. */
module VmRuns {
  import opened Basics
  import opened Memory
  import opened AddressSpace
  import opened Unmap
  import opened VmSystem
  import opened VmSteps

  datatype Op =
    | NewSpace
    | MapOp(i: nat, start: nat, n: nat, prot: set<Perm>, priv: bool, file: Option<nat>, off: nat)
    | UnmapOp(i: nat, lo: nat, n: nat)
    | ForkOp(i: nat)
    | DestroyOp(i: nat)
    | ReadFault(i: nat, v: nat)
    | WriteFault(i: nat, v: nat, junk: Page, data: Page)
    | OpenOp(disk: seq<Page>, linked: bool)
    | RefOp(o: nat)
    | CloseOp(o: nat)
    | UnlinkOp(o: nat)
    | EvictOp(o: nat, p: nat)
    | ExtendOp(i: nat, j: nat, end: nat)

  /** The area a fault hits, if the access is permitted. */
  function Hit(s: Sys, i: nat, v: nat, write: bool): Option<Area> {
    if i >= |s.spaces| then None
    else match Find(s.spaces[i], v)
      case None => None
      case Some(a) => if Read in a.prot && (write ==> Write in a.prot) then Some(a) else None
  }

  lemma HitCovers(s: Sys, i: nat, v: nat, write: bool)
    ensures var h := Hit(s, i, v, write);
            h.Some? ==> i < |s.spaces| && Find(s.spaces[i], v) == h && h.value in s.spaces[i] && Covers(h.value, v)
  {
    if i < |s.spaces| { FindMember(s.spaces[i], v); }
  }

  /** May this operation happen now? What the kernel asserts of its callers, and
      what the processor checks before a store. */
  predicate Enabled(s: Sys, u: Layout, op: Op) {
    match op
    case NewSpace => true
    case MapOp(i, start, n, _, _, file, _) => MayMap(s, u, i, start, n, file)
    case UnmapOp(i, _, _) => i < |s.spaces|
    case ForkOp(i) => i < |s.spaces|
    case DestroyOp(i) => i < |s.spaces|
    case ReadFault(i, v) => Hit(s, i, v, false).Some?
    case WriteFault(i, v, _, _) => Hit(s, i, v, true).Some?
    case OpenOp(_, _) => true
    case RefOp(o) => IsFile(s.mem, o)
    case CloseOp(o) => o in s.ext
    case UnlinkOp(o) => IsFile(s.mem, o)
    case EvictOp(o, p) => o in s.mem.objs && p in s.mem.objs[o].frames && s.mem.objs[o].frames[p].pins == 0
    case ExtendOp(i, j, end) => i < |s.spaces| && MayExtend(s.spaces[i], u, j, end)
  }

  function Step(s: Sys, u: Layout, op: Op): Sys
    requires u.low < u.high && Enabled(s, u, op)
  {
    match op
    case NewSpace => s.(spaces := s.spaces + [[]])
    case MapOp(i, start, n, prot, priv, file, off) => MapStep(s, i, start, n, prot, priv, file, off)
    case UnmapOp(i, lo, n) => UnmapStep(s, i, lo, lo + n)
    case ForkOp(i) => ForkStep(s, i)
    case DestroyOp(i) => DestroyStep(s, u, i)
    case ReadFault(i, v) => HitCovers(s, i, v, false); ReadFaultStep(s, Hit(s, i, v, false).value, v)
    case WriteFault(i, v, junk, data) =>
      HitCovers(s, i, v, true); WriteFaultStep(s, Hit(s, i, v, true).value, v, junk, data)
    case OpenOp(disk, linked) => OpenStep(s, disk, linked)
    case RefOp(o) => RefStep(s, o)
    case CloseOp(o) => CloseStep(s, o)
    case UnlinkOp(o) => UnlinkFileStep(s, o)
    case EvictOp(o, p) => EvictStep(s, o, p)
    case ExtendOp(i, j, end) => ExtendStep(s, i, j, end)
  }

  const Boot: Sys := Sys(Mem(map[], 0), [], multiset{})

  /** An operation that is not enabled does not happen. */
  function Next(s: Sys, u: Layout, op: Op): Sys
    requires u.low < u.high
  {
    if Enabled(s, u, op) then Step(s, u, op) else s
  }

  function Run(s: Sys, u: Layout, ops: seq<Op>): Sys
    requires u.low < u.high
    decreases |ops|
  {
    if ops == [] then s else Run(Next(s, u, ops[0]), u, ops[1..])
  }

  lemma NewSpaceHolders(s: Sys)
    ensures Holders(s.(spaces := s.spaces + [[]])) == Holders(s)
  {
    HeldByAppend(s.spaces, []);
    assert HeldBy(s.spaces) + ObjsOf([]) == HeldBy(s.spaces);
  }

  lemma NewSpaceInv(s: Sys, u: Layout)
    requires SysInv(s, u)
    ensures SysInv(s.(spaces := s.spaces + [[]]), u)
  {
    hide Inv, Sole, Holders, IsFile;
    NewSpaceHolders(s);
  }

  /** Every operation keeps the invariant. */
  lemma StepInv(s: Sys, u: Layout, op: Op)
    requires u.low < u.high && SysInv(s, u) && Enabled(s, u, op)
    ensures SysInv(Step(s, u, op), u)
  {
    hide SysInv, SysAt, MapStep, UnmapStep, ForkStep, DestroyStep, ReadFaultStep, WriteFaultStep, OpenStep, RefStep,
         CloseStep, UnlinkFileStep,
         EvictStep, ExtendStep, Hit;
    match op
    case NewSpace => NewSpaceInv(s, u);
    case MapOp(i, start, n, prot, priv, file, off) => MapMeaning(s, u, i, start, n, prot, priv, file, off);
    case UnmapOp(i, lo, n) => UnmapMeaning(s, u, i, lo, lo + n);
    case ForkOp(i) => ForkMeaning(s, u, i);
    case DestroyOp(i) => DestroyMeaning(s, u, i);
    case ReadFault(i, v) => HitCovers(s, i, v, false); ReadFaultMeaning(s, u, i, Hit(s, i, v, false).value, v);
    case WriteFault(i, v, junk, data) =>
      HitCovers(s, i, v, true); WriteFaultInv(s, u, i, Hit(s, i, v, true).value, v, junk, data);
    case OpenOp(disk, linked) => OpenMeaning(s, u, disk, linked);
    case RefOp(o) => RefMeaning(s, u, o);
    case CloseOp(o) => CloseMeaning(s, u, o);
    case UnlinkOp(o) => UnlinkFileMeaning(s, u, o);
    case EvictOp(o, p) => EvictInv(s, u, o, p);
    case ExtendOp(i, j, end) => ExtendMeaning(s, u, i, j, end);
  }

  lemma BootInv(u: Layout)
    ensures SysInv(Boot, u)
  {
  }

  /** Exact reference accounting over every run: each object's count is its
      resident pages plus the shadows over it plus the areas and outside
      holders pointing at it, and every private area has a top of its own. */
  lemma {:induction false} RunInv(s: Sys, u: Layout, ops: seq<Op>)
    requires u.low < u.high && SysInv(s, u)
    ensures SysInv(Run(s, u, ops), u)
    decreases |ops|
  {
    hide SysInv, Step, Enabled;
    if ops != [] {
      if Enabled(s, u, ops[0]) { StepInv(s, u, ops[0]); }
      RunInv(Next(s, u, ops[0]), u, ops[1..]);
    }
  }

  lemma {:induction false} NoAreasNoHolders(ss: seq<seq<Area>>)
    requires forall i :: 0 <= i < |ss| ==> ss[i] == []
    ensures HeldBy(ss) == multiset{}
  {
    if ss != [] { NoAreasNoHolders(ss[1..]); }
  }

  /** No leak: in every run, once all address spaces are gone, no anonymous or
      shadow object is alive. */
  lemma NoLeak(u: Layout, ops: seq<Op>, o: nat)
    requires u.low < u.high
    requires var s := Run(Boot, u, ops);
             o in s.mem.objs && forall i :: 0 <= i < |s.spaces| ==> s.spaces[i] == []
    ensures Run(Boot, u, ops).mem.objs[o].kind.File?
  {
    BootInv(u);
    RunInv(Boot, u, ops);
    var s := Run(Boot, u, ops);
    hide Run;
    NoAreasNoHolders(s.spaces);
    assert Holders(s) == s.ext;
    NoHolderNoObject(s.mem, s.ext, o);
  }
}
