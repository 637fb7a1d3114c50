/** Runs from boot that end where the process table does not do what it should. */
module ProcCases {
  import opened Basics
  import opened ProcTree

  lemma {:induction false} RunTwo(t: Table, a: seq<Op>, b: seq<Op>)
    requires Ok(t)
    ensures Run(t, a + b) == Run(Run(t, a), b)
    decreases |a|
  {
    hide Ok, Next;
    if a == [] {
      assert a + b == b;
    } else {
      assert (a + b)[1..] == a[1..] + b;
      RunTwo(Next(t, a[0]), a[1..], b);
    }
  }

  // ---------------------------------------------------------------------
  // A pid given twice
  // ---------------------------------------------------------------------

  /** The idle process is made and makes `k` others. */
  ghost function Spawned(max: nat, k: nat): (t: Table)
    requires max > 0
    ensures Ok(t)
  {
    if k == 0 then After(max, [Spawn(None)]) else Next(Spawned(max, k - 1), Spawn(Some(IDLE)))
  }

  lemma {:induction false} SpawnedIsRun(max: nat, k: nat)
    requires max > 0
    ensures Spawned(max, k) == After(max, [Spawn(None)] + seq(k, _ => Spawn(Some(IDLE))))
  {
    hide Ok, Next;
    BootOk(max);
    var ops := [Spawn(None)] + seq(k, _ => Spawn(Some(IDLE)));
    if k == 0 {
      assert ops == [Spawn(None)];
    } else {
      SpawnedIsRun(max, k - 1);
      var before := [Spawn(None)] + seq(k - 1, _ => Spawn(Some(IDLE)));
      assert ops == before + [Spawn(Some(IDLE))];
      RunTwo(Boot(max), before, [Spawn(Some(IDLE))]);
      assert [Spawn(Some(IDLE))][1..] == [];
    }
  }

  /** After `k` processes, each has its serial number for a pid. */
  ghost predicate Numbered(t: Table, max: nat, k: nat) {
    && t.max == max && t.next == k + 1 && t.nextPid == (if k + 1 < max then k + 1 else 0)
    && Active(t, IDLE) && (forall p: nat :: p in t.procs <==> p <= k) && forall p <- t.procs :: t.procs[p].pid == p
  }

  lemma FirstIsFree(t: Table)
    requires t.nextPid < t.max && !Taken(t, t.nextPid)
    ensures NewPid(t) == t.nextPid
  {
    assert Candidate(t, 0) == t.nextPid;
  }

  lemma IdleNumbered(max: nat)
    requires max > 0
    ensures Numbered(Spawned(max, 0), max, 0)
  {
    BootOk(max);
    var t := Boot(max);
    FirstIsFree(t);
    assert Spawned(max, 0) == Next(t, Spawn(None));
    assert Next(t, Spawn(None)) == Place(t, None, 0);
  }

  lemma {:induction false} SpawnedNumbered(max: nat, k: nat)
    requires k < max
    ensures Numbered(Spawned(max, k), max, k)
  {
    hide Ok, Next, Numbered;
    if k == 0 {
      IdleNumbered(max);
    } else {
      SpawnedNumbered(max, k - 1);
      OneMore(Spawned(max, k - 1), max, k);
    }
  }

  lemma OneMore(t: Table, max: nat, k: nat)
    requires Ok(t) && 0 < k < max && Numbered(t, max, k - 1)
    ensures Numbered(Next(t, Spawn(Some(IDLE))), max, k)
  {
    hide Ok;
    FirstIsFree(t);
    var t' := Next(t, Spawn(Some(IDLE)));
    assert t' == Place(t, Some(IDLE), k);
    assert forall p: nat :: p in t'.procs <==> p <= k;
  }

  /** With PROC_MAX_COUNT processes about, the next two both get pid -1. */
  lemma PidGivenTwice(max: nat)
    requires max > 0
    ensures var t := After(max, [Spawn(None)] + seq(max + 1, _ => Spawn(Some(IDLE))));
            && max in t.procs && max + 1 in t.procs && t.procs[max].pid == -1 && t.procs[max + 1].pid == -1
  {
    hide Ok, Next;
    SpawnedIsRun(max, max + 1);
    var t := Spawned(max, max - 1);
    SpawnedNumbered(max, max - 1);
    assert forall pid: nat :: pid < max ==> pid in t.procs && t.procs[pid].pid == pid;
    NoneLeft(t, max);
    var t1 := Next(t, Spawn(Some(IDLE)));
    assert t1 == Spawned(max, max);
    NoneLeft(t1, max);
    assert Next(t1, Spawn(Some(IDLE))) == Spawned(max, max + 1);
  }

  lemma IdleCreates(t: Table)
    requires Ok(t) && t.nextPid < t.max && Active(t, IDLE) && t.next > 0
    ensures MayCreate(t, Some(IDLE)) && Next(t, Spawn(Some(IDLE))) == Create(t, Some(IDLE))
  {
    hide Ok, Create;
  }

  lemma CreateFields(t: Table, c: Option<nat>)
    requires Ok(t) && MayCreate(t, c)
    ensures Create(t, c).max == t.max && Create(t, c).next == t.next + 1
  {
    hide Ok, MayCreate;
  }

  lemma NoneLeft(t: Table, max: nat)
    requires Ok(t) && Active(t, IDLE) && t.max == max > 0 && t.next > 0
    requires forall pid: nat :: pid < max ==> pid in t.procs && t.procs[pid].pid == pid
    ensures var t' := Next(t, Spawn(Some(IDLE)));
            && t'.max == max && t'.next == t.next + 1 && Active(t', IDLE) && t.next in t'.procs
            && t'.procs[t.next].pid == -1
            && (forall p <- t.procs :: p in t'.procs && t'.procs[p].pid == t.procs[p].pid)
  {
    hide Ok, MayCreate, NewPid, Next, Create;
    OkNextPid(t);
    forall pid: nat | pid < max ensures Taken(t, pid) { assert pid in t.procs && t.procs[pid].pid == pid; }
    ExhaustedIff(t);
    IdleCreates(t);
    CreateFields(t, Some(IDLE));
    CreateNew(t, Some(IDLE));
    CreateOld(t, Some(IDLE), IDLE);
    forall p <- t.procs ensures p in Next(t, Spawn(Some(IDLE))).procs
      && Next(t, Spawn(Some(IDLE))).procs[p].pid == t.procs[p].pid {
      CreateOld(t, Some(IDLE), p);
    }
  }

  // ---------------------------------------------------------------------
  // Small trees
  // ---------------------------------------------------------------------

  lemma AfterMore(max: nat, ops: seq<Op>, op: Op)
    requires max > 0
    ensures After(max, ops + [op]) == Next(After(max, ops), op)
  {
    hide Ok, Next;
    BootOk(max);
    RunTwo(Boot(max), ops, [op]);
    assert [op][1..] == [];
  }

  /** proc_create when next_pid is free. */
  lemma SpawnNext(t: Table, c: nat)
    requires Ok(t) && t.next > 0 && t.nextPid < t.max && Active(t, c)
    requires (forall p <- t.procs :: t.procs[p].pid != t.nextPid) && (t.nextPid == PID_INIT ==> c == IDLE)
    ensures Next(t, Spawn(Some(c))) == Place(t, Some(c), t.nextPid)
  {
    hide Ok;
    FirstIsFree(t);
  }

  function Alive(pid: int, parent: Option<nat>, children: seq<nat>): Proc {
    Proc(pid, parent, children, Running, 0, NotWaiting)
  }

  function Young(max: nat, procs: map<nat, Proc>, n: nat): Table {
    Table(procs, seq(n, i requires 0 <= i => i), max, if n < max then n else 0, if n < 2 then None
          else Some(1), n, map[], [])
  }

  /** One more process, the last child of `c`. */
  function Added(procs: map<nat, Proc>, n: nat, c: nat): map<nat, Proc>
    requires c in procs
  {
    procs[c := procs[c].(children := procs[c].children + [n])][n := Alive(n, Some(c), [])]
  }

  lemma YoungPlace(max: nat, procs: map<nat, Proc>, n: nat, c: nat)
    requires 0 < n < max && c in procs
    ensures Place(Young(max, procs, n), Some(c), n) == Young(max, Added(procs, n, c), n + 1)
  {
    assert seq(n + 1, i requires 0 <= i => i) == seq(n, i requires 0 <= i => i) + [n];
  }

  lemma YoungSpawn(max: nat, ops: seq<Op>, procs: map<nat, Proc>, n: nat, c: nat)
    requires 0 < n < max && c in procs && procs[c] == Alive(procs[c].pid, procs[c].parent, procs[c].children)
    requires After(max, ops) == Young(max, procs, n) && (forall p <- procs :: procs[p].pid < n)
             && (n == 1 ==> c == IDLE)
    ensures After(max, ops + [Spawn(Some(c))]) == Young(max, Added(procs, n, c), n + 1)
  {
    hide Ok, Next, Place;
    AfterMore(max, ops, Spawn(Some(c)));
    SpawnNext(After(max, ops), c);
    YoungPlace(max, procs, n, c);
  }

  lemma IdleAlone(max: nat)
    requires max > 0
    ensures After(max, [Spawn(None)]) == Young(max, map[0 := Alive(0, None, [])], 1)
  {
    BootOk(max);
    FirstIsFree(Boot(max));
    AfterMore(max, [], Spawn(None));
    assert [] + [Spawn(None)] == [Spawn(None)];
    assert seq(1, i requires 0 <= i => i) == [0];
    hide Ok;
  }

  const IdleInit: seq<Op> := [Spawn(None), Spawn(Some(0))]

  function TwoProcs(): map<nat, Proc> {
    map[0 := Alive(0, None, [1]), 1 := Alive(1, Some(0), [])]
  }

  lemma IdleAndInit(max: nat)
    requires max > 1
    ensures After(max, IdleInit) == Young(max, TwoProcs(), 2)
  {
    hide Ok, After;
    IdleAlone(max);
    assert [Spawn(None)] + [Spawn(Some(0))] == IdleInit;
    assert Added(map[0 := Alive(0, None, [])], 1, 0) == TwoProcs() by { assert [] + [1] == [1]; }
    YoungSpawn(max, [Spawn(None)], map[0 := Alive(0, None, [])], 1, 0);
  }

  // ---------------------------------------------------------------------
  // Exits that break the tree
  // ---------------------------------------------------------------------

  /** Init makes a child and exits: the child keeps a dead parent. */
  lemma InitExitsWithChild(max: nat, status: int)
    requires max > 2
    ensures var t := After(max, IdleInit + [Spawn(Some(1))]); Exiting(t, 1) && !Ok(ExitStep(t, 1, status))
  {
    hide Ok, After, ExitStep;
    IdleAndInit(max);
    YoungSpawn(max, IdleInit, TwoProcs(), 2, 1);
    var t := After(max, IdleInit + [Spawn(Some(1))]);
    ExitOkIff(t, 1, status);
  }

  /** A childless process whose parent is awake just dies. */
  lemma LeafExits(t: Table, c: nat, status: int)
    requires Ok(t) && Active(t, c) && t.procs[c].pid >= 1 && t.init.Some? && t.procs[c].children == []
    requires t.procs[c].parent.Some? ==>
               t.procs[c].parent.value in t.procs && t.procs[t.procs[c].parent.value].waiting == NotWaiting
    ensures Next(t, Exit(c, status)) == Bury(t, c, status)
  {
    hide Ok, Bury;
    ExitParent(t, c);
    assert MayExit(t, c);
  }

  /** Init and 2 are children of idle, 3 is a child of 2; then init exits. */
  const WithoutInit: seq<Op> := IdleInit + [Spawn(Some(0))] + [Spawn(Some(2))] + [Exit(1, 0)]

  lemma InitIsGone(max: nat)
    requires max > 3
    ensures var t := After(max, WithoutInit);
            && 1 in t.procs && t.procs[1].state == Dead && t.init == Some(1)
            && 2 in t.procs && t.procs[2] == Alive(2, Some(0), [3])
  {
    hide Ok, After, Next;
    IdleAndInit(max);
    YoungSpawn(max, IdleInit, TwoProcs(), 2, 0);
    var procs := Added(TwoProcs(), 2, 0);
    YoungSpawn(max, IdleInit + [Spawn(Some(0))], procs, 3, 2);
    var ops := IdleInit + [Spawn(Some(0))] + [Spawn(Some(2))];
    AfterMore(max, ops, Exit(1, 0));
    var t := After(max, ops);
    assert [] + [3] == [3];
    LeafExits(t, 1, 0);
  }

  /** Then process 2 exits: its child goes to the dead init. */
  lemma ExitsAfterInit(max: nat, status: int)
    requires max > 3
    ensures var t := After(max, WithoutInit); Exiting(t, 2) && !Ok(ExitStep(t, 2, status))
  {
    hide Ok, After, ExitStep;
    InitIsGone(max);
    ExitOkIff(After(max, WithoutInit), 2, status);
  }

  // ---------------------------------------------------------------------
  // Init asleep over a zombie
  // ---------------------------------------------------------------------

  /** A line of descent from idle to 4; 4 exits, and init waits for any child. */
  const Line: seq<Op> := IdleInit + [Spawn(Some(1))] + [Spawn(Some(2))] + [Spawn(Some(3))]
  const InitWaits: seq<Op> := Line + [Exit(4, 7)] + [Wait(1, -1)]

  function LineProcs(): map<nat, Proc> {
    map[0 := Alive(0, None, [1]), 1 := Alive(1, Some(0), [2]), 2 := Alive(2, Some(1), [3]), 3 := Alive(3, Some(2), [4]),
        4 := Alive(4, Some(3), [])]
  }

  lemma LineOk(max: nat)
    requires max > 4
    ensures After(max, Line) == Young(max, LineProcs(), 5)
  {
    hide Ok, After;
    IdleAndInit(max);
    YoungSpawn(max, IdleInit, TwoProcs(), 2, 1);
    var p3 := Added(TwoProcs(), 2, 1);
    assert [] + [2] == [2] && [] + [3] == [3] && [] + [4] == [4];
    assert p3 == map[0 := Alive(0, None, [1]), 1 := Alive(1, Some(0), [2]), 2 := Alive(2, Some(1), [])];
    YoungSpawn(max, IdleInit + [Spawn(Some(1))], p3, 3, 2);
    var p4 := Added(p3, 3, 2);
    assert p4 == map[0 := Alive(0, None, [1]), 1 := Alive(1, Some(0), [2]), 2 := Alive(2, Some(1), [3]),
                     3 := Alive(3, Some(2), [])];
    YoungSpawn(max, IdleInit + [Spawn(Some(1))] + [Spawn(Some(2))], p4, 4, 3);
    assert Added(p4, 4, 3) == LineProcs();
  }

  /** When 3 exits, its zombie goes to init, which sleeps on. */
  lemma InitMissesZombie(max: nat, status: int)
    requires max > 4
    ensures var t := After(max, InitWaits); MayExit(t, 3) && Stuck(ExitStep(t, 3, status))
  {
    hide Ok, After, ExitStep;
    InitWaitsAt(max);
    var t := After(max, InitWaits);
    assert Reapable(t, 4, -1) && HasZombie(t, 3);
    StuckIff(t, 3, status);
  }

  lemma InitWaitsAt(max: nat)
    requires max > 4
    ensures var t := After(max, InitWaits);
            && t.init == Some(1) && {1, 3, 4} <= t.procs.Keys
            && t.procs[1] == Alive(1, Some(0), [2]).(waiting := Asleep(-1))
            && t.procs[3] == Alive(3, Some(2), [4]) && t.procs[4].state == Dead
  {
    hide Ok, After, Next;
    ZombieFour(max);
    AfterMore(max, Line + [Exit(4, 7)], Wait(1, -1));
    WaitSleeps(After(max, Line + [Exit(4, 7)]), 1);
  }

  lemma WaitSleeps(t: Table, c: nat)
    requires Ok(t) && Active(t, c) && |t.procs[c].children| == 1 && !Reapable(t, t.procs[c].children[0], -1)
    ensures Next(t, Wait(c, -1)) == t.(procs := t.procs[c := t.procs[c].(waiting := Asleep(-1))])
  {
    hide Ok;
    assert t.procs[c].children == [t.procs[c].children[0]];
    assert FirstReapable(t, t.procs[c].children, -1) == None;
  }

  lemma ZombieFour(max: nat)
    requires max > 4
    ensures var t := After(max, Line + [Exit(4, 7)]);
            && t.init == Some(1) && {1, 2, 3, 4} <= t.procs.Keys
            && t.procs[1] == Alive(1, Some(0), [2]) && t.procs[2] == Alive(2, Some(1), [3])
            && t.procs[3] == Alive(3, Some(2), [4]) && t.procs[4].state == Dead
  {
    hide Ok, After, Next;
    LineOk(max);
    AfterMore(max, Line, Exit(4, 7));
    LeafExits(After(max, Line), 4, 7);
  }
}
