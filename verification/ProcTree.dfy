/** The process table of proc.c: creation, exit with re-parenting, and waitpid. A
    process is named by a serial number (which record it is), never reused; its
    pid is a field. One thread per process; a step is the stretch of code between
    two calls of sched_switch. */
module ProcTree {
  import opened Basics

  const PID_IDLE := 0
  const PID_INIT := 1

  /** Serial number of the first process created. */
  const IDLE: nat := 0

  datatype PState = Running | Dead

  /** Where a process stands in do_waitpid: asleep on its own p_wait, or woken and
      about to scan its children again. */
  datatype Waiting = NotWaiting | Asleep(pid: int) | Woken(pid: int)

  datatype Proc = Proc(pid: int, parent: Option<nat>, children: seq<nat>, state: PState, status: int, waiting: Waiting)

  datatype Reaped = Reaped(who: nat, status: int)

  /** `list` is _proc_list. `next` is the next serial number; `exits` and `reaps`
      record who ever exited, with which status, and who was handed to a waiter. */
  datatype Table = Table(
    procs: map<nat, Proc>,
    list: seq<nat>,
    max: nat,
    nextPid: nat,
    init: Option<nat>,
    next: nat,
    exits: map<nat, int>,
    reaps: seq<Reaped>)

  // ---------------------------------------------------------------------
  // Free pids
  // ---------------------------------------------------------------------

  predicate Taken(t: Table, pid: int) {
    exists p :: p in t.procs && t.procs[p].pid == pid
  }

  /** The candidate `i` steps after `next_pid`. */
  function Candidate(t: Table, i: nat): int {
    if t.nextPid + i < t.max then t.nextPid + i else t.nextPid + i - t.max
  }

  /** Search from the `i`-th candidate on. */
  function FreePid(t: Table, i: nat): int
    requires i <= t.max
    decreases t.max - i
  {
    if i == t.max then -1 else if Taken(t, Candidate(t, i)) then FreePid(t, i + 1) else Candidate(t, i)
  }

  /** _proc_getid: the pid the next process gets. */
  function NewPid(t: Table): int {
    FreePid(t, 0)
  }

  lemma NewPidOk(t: Table)
    requires t.nextPid < t.max
    ensures -1 <= NewPid(t) < t.max && (NewPid(t) != -1 ==> !Taken(t, NewPid(t)))
  {
    FreePidOk(t, 0);
  }

  /** One step of the search. */
  lemma FreePidStep(t: Table, i: nat)
    requires i < t.max
    ensures FreePid(t, i) == if Taken(t, Candidate(t, i)) then FreePid(t, i + 1) else Candidate(t, i)
  {
  }

  /** After `max` candidates the search is back where it began, and fails. */
  lemma FreePidEnd(t: Table, i: nat)
    requires t.nextPid < t.max && 0 < i <= t.max
    ensures Candidate(t, i) == t.nextPid <==> i == t.max
    ensures i == t.max ==> FreePid(t, i) == -1
  {
  }

  function NextPid(t: Table, pid: int): nat
    requires -1 <= pid < t.max
  {
    if pid == -1 then t.nextPid else if pid + 1 == t.max then 0 else pid + 1
  }

  /** A pid is in range and free; it is missing only when none is free. */
  lemma {:induction false} FreePidOk(t: Table, i: nat)
    requires i <= t.max && t.nextPid < t.max
    ensures var r := FreePid(t, i);
            && -1 <= r < t.max
            && (r != -1 ==> !Taken(t, r))
            && (r == -1 <==> forall j: nat :: i <= j < t.max ==> Taken(t, Candidate(t, j)))
    decreases t.max - i
  {
    if i < t.max { FreePidOk(t, i + 1); }
  }

  /** Every pid is some candidate. */
  lemma CandidateOf(t: Table, pid: nat)
    requires pid < t.max && t.nextPid < t.max
    ensures exists j: nat :: j < t.max && Candidate(t, j) == pid
  {
    var j: nat := if pid >= t.nextPid then pid - t.nextPid else pid + t.max - t.nextPid;
    assert Candidate(t, j) == pid;
  }

  /** _proc_getid fails exactly when every pid is taken. */
  lemma ExhaustedIff(t: Table)
    requires t.nextPid < t.max
    ensures NewPid(t) == -1 <==> forall pid: nat :: pid < t.max ==> Taken(t, pid)
  {
    FreePidOk(t, 0);
    if NewPid(t) == -1 {
      forall pid: nat | pid < t.max ensures Taken(t, pid) { CandidateOf(t, pid); }
    } else {
      assert 0 <= NewPid(t) < t.max;
    }
  }

  /** The pid found comes first after `next_pid`, cyclically. */
  lemma {:induction false} FreePidFirst(t: Table, i: nat)
    requires i <= t.max && t.nextPid < t.max && FreePid(t, i) != -1
    ensures exists k: nat :: i <= k < t.max && Candidate(t, k) == FreePid(t, i) && forall j: nat :: i <= j < k ==>
            Taken(t, Candidate(t, j))
    decreases t.max - i
  {
    if Taken(t, Candidate(t, i)) {
      FreePidFirst(t, i + 1);
      var k: nat :| i + 1 <= k < t.max && Candidate(t, k) == FreePid(t, i + 1) && forall j: nat :: i + 1 <= j < k ==>
        Taken(t, Candidate(t, j));
      assert forall j: nat :: i <= j < k ==> Taken(t, Candidate(t, j));
    } else {
      assert Candidate(t, i) == FreePid(t, i);
    }
  }

  // ---------------------------------------------------------------------
  // Steps
  // ---------------------------------------------------------------------

  /** Executing: neither gone nor inside do_waitpid. */
  predicate Active(t: Table, c: nat) {
    c in t.procs && t.procs[c].state == Running && t.procs[c].waiting == NotWaiting
  }

  /** A new process with pid `pid`, last on the list and last child of `c`. */
  function Place(t: Table, c: Option<nat>, pid: int): Table
    requires -1 <= pid < t.max && (c.Some? ==> c.value in t.procs)
  {
    var linked := if pid != PID_IDLE && c.Some?
      then t.procs[c.value := t.procs[c.value].(children := t.procs[c.value].children + [t.next])] else t.procs;
    t.(procs := linked[t.next := Proc(pid, if pid != PID_IDLE then c else None, [], Running, 0, NotWaiting)],
       list := t.list + [t.next], nextPid := NextPid(t, pid), next := t.next + 1,
       init := if pid == PID_INIT then Some(t.next) else t.init)
  }

  /** proc_create's effect on the table; `c` is curproc, absent for the first. */
  function Create(t: Table, c: Option<nat>): Table
    requires Ok(t) && MayCreate(t, c)
  {
    FreePidOk(t, 0);
    Place(t, c, NewPid(t))
  }

  /** proc_cleanup wakes the parent. */
  function Wake(t: Table, q: nat): Table
    requires q in t.procs
  {
    match t.procs[q].waiting
    case Asleep(k) => t.(procs := t.procs[q := t.procs[q].(waiting := Woken(k))])
    case _ => t
  }

  /** The first `i` children of `c` handed to `h`. */
  function Moved(procs: map<nat, Proc>, c: nat, h: nat, i: nat): map<nat, Proc>
    requires c in procs && h in procs && i <= |procs[c].children|
  {
    var kids := procs[c].children;
    map p <- procs ::
      if p == c then procs[p].(children := kids[i..])
      else if p == h then procs[p].(children := procs[p].children + kids[..i])
      else if p in kids[..i] then procs[p].(parent := Some(h))
      else procs[p]
  }

  /** proc_cleanup re-parents the children to init. */
  function Adopt(t: Table, c: nat): Table
    requires c in t.procs && t.init.Some?
             && (t.procs[c].children != [] && t.init != Some(c) ==> t.init.value in t.procs)
  {
    if t.init == Some(c) || t.procs[c].children == [] then t
    else t.(procs := Moved(t.procs, c, t.init.value, |t.procs[c].children|))
  }

  function Bury(t: Table, c: nat, status: int): Table
    requires c in t.procs
  {
    t.(procs := t.procs[c := t.procs[c].(status := status, state := Dead)], exits := t.exits[c := status])
  }

  /** A child that do_waitpid(k) may reap. */
  predicate Reapable(t: Table, x: nat, k: int) {
    x in t.procs && t.procs[x].state == Dead && (k == -1 || t.procs[x].pid == k)
  }

  /** The first reapable one in a child list. */
  function FirstReapable(t: Table, l: seq<nat>, k: int): (r: Option<nat>)
    ensures r.None? ==> forall x <- l :: !Reapable(t, x, k)
    ensures r.Some? ==> r.value < |l| && Reapable(t, l[r.value], k) && forall x <- l[..r.value] :: !Reapable(t, x, k)
  {
    if l == [] then None
    else if Reapable(t, l[0], k) then Some(0)
    else
      var r := FirstReapable(t, l[1..], k);
      if r.None? then None else
        assert forall x <- l[..r.value + 1] :: x == l[0] || x in l[1..][..r.value];
        Some(r.value + 1)
  }

  /** Disposing of the `i`-th child of `c`. */
  function Dispose(t: Table, c: nat, i: nat): Table
    requires c in t.procs && i < |t.procs[c].children| && t.procs[c].children[i] in t.procs
             && t.procs[c].children[i] in t.list
  {
    var x := t.procs[c].children[i];
    t.(procs := t.procs[c := t.procs[c].(children := Without(t.procs[c].children, i), waiting := NotWaiting)] - {x},
       list := Without(t.list, IndexOf(t.list, x)),
       reaps := t.reaps + [Reaped(x, t.procs[x].status)])
  }

  /** One pass of do_waitpid's loop: reap, or sleep. */
  function Scan(t: Table, c: nat, k: int): Table
    requires Ok(t) && c in t.procs
  {
    match FirstReapable(t, t.procs[c].children, k)
    case Some(i) => KidListed(t, c, i); Dispose(t, c, i)
    case None => t.(procs := t.procs[c := t.procs[c].(waiting := Asleep(k))])
  }

  /** What the waiter is told: the pid and status of the child it reaped. */
  datatype Outcome = NoChild | Collected(pid: int, status: int) | Sleeps

  function WaitOutcome(t: Table, c: nat, k: int): Outcome
    requires c in t.procs
  {
    match FirstReapable(t, t.procs[c].children, k)
    case Some(i) => var x := t.procs[c].children[i]; Collected(t.procs[x].pid, t.procs[x].status)
    case None => Sleeps
  }

  // ---------------------------------------------------------------------
  // The invariant
  // ---------------------------------------------------------------------

  /** Idle, then init, then everyone in order of creation: parents rank below
      their children. */
  function Rank(t: Table, p: nat): nat {
    if p == IDLE then 0 else if t.init == Some(p) then 1 else p + 2
  }

  ghost predicate ParentOk(t: Table, p: nat)
    requires p in t.procs
  {
    var x := t.procs[p];
    if p == IDLE then x.parent.None? && x.state == Running
    else
      && x.parent.Some? && x.parent.value in t.procs && p in t.procs[x.parent.value].children
      && Rank(t, x.parent.value) < Rank(t, p)
  }

  ghost predicate ChildrenOk(t: Table, p: nat)
    requires p in t.procs
  {
    NoDup(t.procs[p].children) && forall x <- t.procs[p].children :: x in t.procs && t.procs[x].parent == Some(p)
  }

  ghost predicate StateOk(t: Table, p: nat)
    requires p in t.procs
  {
    var x := t.procs[p];
    && p < t.next
    && -1 <= x.pid < t.max && (x.pid == PID_IDLE <==> p == IDLE) && (x.pid == PID_INIT <==> t.init == Some(p))
    && (x.state == Running ==> p !in t.exits)
    && (x.state == Dead ==> x.children == [] && x.waiting == NotWaiting && p in t.exits && t.exits[p] == x.status)
  }

  ghost predicate HasChildPid(t: Table, p: nat, k: int)
    requires p in t.procs
  {
    exists x :: x in t.procs[p].children && x in t.procs && t.procs[x].pid == k
  }

  /** No lost wake-up: nobody sleeps in do_waitpid while there is something to
      reap, save init waiting for any child. */
  ghost predicate WaitOk(t: Table, p: nat)
    requires p in t.procs
  {
    match t.procs[p].waiting
    case NotWaiting => true
    case Asleep(k) =>
      && t.procs[p].children != [] && (k == -1 || (k > 0 && HasChildPid(t, p, k)))
      && (k != -1 || t.init != Some(p) ==> forall x <- t.procs[p].children :: !Reapable(t, x, k))
    case Woken(k) => t.procs[p].children != [] && (k == -1 || (k > 0 && HasChildPid(t, p, k)))
  }

  ghost predicate ProcOk(t: Table, p: nat)
    requires p in t.procs
  {
    ParentOk(t, p) && ChildrenOk(t, p) && StateOk(t, p) && WaitOk(t, p)
  }

  ghost predicate PidsDistinct(t: Table) {
    forall p, q :: p in t.procs && q in t.procs && p != q && t.procs[p].pid >= 0 ==> t.procs[p].pid != t.procs[q].pid
  }

  ghost predicate ListOk(t: Table) {
    NoDup(t.list) && forall p: nat :: p in t.list <==> p in t.procs
  }

  /** Everyone ever created is in the table or has been reaped; who was reaped had
      exited, is gone, was reaped once, and with the status of its own exit. */
  ghost predicate HistoryOk(t: Table) {
    && (forall p: nat :: p < t.next ==> p in t.procs || p in t.exits)
    && (forall p <- t.exits :: p < t.next && (p in t.procs || exists i :: 0 <= i < |t.reaps| && t.reaps[i].who == p))
    && (forall i :: 0 <= i < |t.reaps| ==>
        t.reaps[i].who !in t.procs && t.reaps[i].who in t.exits && t.exits[t.reaps[i].who] == t.reaps[i].status)
    && (forall i, j :: 0 <= i < j < |t.reaps| ==> t.reaps[i].who != t.reaps[j].who)
  }

  ghost predicate Ok(t: Table) {
    && t.nextPid < t.max
    && (if t.next == 0 then t.nextPid == 0 && t.procs == map[] else IDLE in t.procs)
    && (t.init.Some? ==> t.init.value < t.next)
    && (forall p <- t.procs :: ProcOk(t, p))
    && PidsDistinct(t) && ListOk(t) && HistoryOk(t)
  }

  lemma KidListed(t: Table, c: nat, i: nat)
    requires Ok(t) && c in t.procs && i < |t.procs[c].children|
    ensures t.procs[c].children[i] in t.procs && t.procs[c].children[i] in t.list
  {
    hide PidsDistinct, HistoryOk, ParentOk, StateOk, WaitOk, NoDup;
    assert ProcOk(t, c);
  }

  lemma OkProc(t: Table, p: nat)
    requires Ok(t) && p in t.procs
    ensures ProcOk(t, p)
  {
  }

  // ---------------------------------------------------------------------
  // proc_create
  // ---------------------------------------------------------------------

  /** PID_IDLE is only ever handed to the first process, as proc_create asserts. */
  lemma OnlyFirstIsIdle(t: Table)
    requires Ok(t)
    ensures NewPid(t) == PID_IDLE <==> t.next == 0
  {
    FreePidOk(t, 0);
    if t.next > 0 {
      OkProc(t, IDLE);
      assert Taken(t, PID_IDLE);
    } else {
      assert Candidate(t, 0) == 0;
    }
  }

  predicate MayCreate(t: Table, c: Option<nat>)
    requires t.nextPid < t.max
  {
    if t.next == 0 then c.None?
    else c.Some? && Active(t, c.value) && (NewPid(t) == PID_INIT ==> c.value == IDLE)
  }

  /** What proc_create leaves of an old process. */
  lemma CreateOld(t: Table, c: Option<nat>, p: nat)
    requires Ok(t) && MayCreate(t, c) && p in t.procs
    ensures var t' := Create(t, c);
            && p in t'.procs && p != t.next && t.next in t'.procs
            && t'.procs[p] == (if c == Some(p) then t.procs[p].(children := t.procs[p].children + [t.next])
                               else t.procs[p])
            && (c == Some(p) ==> Active(t, p))
            && t'.next == t.next + 1 && t'.max == t.max && t'.exits == t.exits
  {
    hide NewPid;
    OnlyFirstIsIdle(t);
    OkProc(t, p);
  }

  /** ... and where it puts the new one. */
  lemma CreateNew(t: Table, c: Option<nat>)
    requires Ok(t) && MayCreate(t, c)
    ensures var t' := Create(t, c);
            && t.next in t'.procs && t'.procs[t.next] == Proc(NewPid(t), c, [], Running, 0, NotWaiting)
            && t'.procs.Keys == t.procs.Keys + {t.next} && t.next !in t.procs
            && (forall p <- t.procs :: t.procs[p].pid != NewPid(t) || NewPid(t) == -1)
            && -1 <= NewPid(t) < t.max
            && t'.init == if NewPid(t) == PID_INIT then Some(t.next) else t.init
  {
    hide Ok, NewPid;
    OnlyFirstIsIdle(t);
    OkNextPid(t);
    NewPidOk(t);
    NextIsNew(t);
    forall p <- t.procs ensures t.procs[p].pid != NewPid(t) || NewPid(t) == -1 {
      if NewPid(t) != -1 { assert !Taken(t, NewPid(t)); }
    }
  }

  lemma NextIsNew(t: Table)
    requires Ok(t)
    ensures t.next !in t.procs && (t.next == 0 ==> t.procs == map[])
  {
    if t.next in t.procs { OkProc(t, t.next); }
  }

  lemma CreateRank(t: Table, c: Option<nat>, p: nat)
    requires Ok(t) && MayCreate(t, c) && p in t.procs
    ensures Rank(Create(t, c), p) == Rank(t, p) && p < t.next
    ensures t.init == Some(p) <==> Create(t, c).init == Some(p)
  {
    CreateNew(t, c);
    OkProc(t, p);
  }

  lemma CreateOldOk(t: Table, c: Option<nat>, p: nat)
    requires Ok(t) && MayCreate(t, c) && p in t.procs
    ensures p in Create(t, c).procs && ProcOk(Create(t, c), p)
  {
    hide Ok, MayCreate, Create, Rank, NewPid;
    var t' := Create(t, c);
    CreateOld(t, c, p);
    CreateNew(t, c);
    OkProc(t, p);
    CreateRank(t, c, p);
    var x := t.procs[p];
    if x.parent.Some? { CreateOld(t, c, x.parent.value); CreateRank(t, c, x.parent.value); }
    assert ParentOk(t', p);
    forall y <- x.children ensures y in t'.procs && y != t.next && t'.procs[y].parent == Some(p)
      && t'.procs[y].pid == t.procs[y].pid
      && t'.procs[y].state == t.procs[y].state { CreateOld(t, c, y); }
    assert ChildrenOk(t', p);
    assert StateOk(t', p);
    forall k | HasChildPid(t, p, k) ensures HasChildPid(t', p, k) {
      var y :| y in x.children && y in t.procs && t.procs[y].pid == k;
      assert y in t'.procs[p].children;
    }
    assert WaitOk(t', p);
  }

  lemma CreateNewOk(t: Table, c: Option<nat>)
    requires Ok(t) && MayCreate(t, c)
    ensures t.next in Create(t, c).procs && ProcOk(Create(t, c), t.next)
  {
    var t' := Create(t, c);
    CreateNew(t, c);
    OnlyFirstIsIdle(t);
    if c.Some? {
      CreateOld(t, c, c.value);
      CreateRank(t, c, c.value);
      OkProc(t, c.value);
    }
  }

  lemma CreatePids(t: Table, c: Option<nat>)
    requires Ok(t) && MayCreate(t, c)
    ensures PidsDistinct(Create(t, c))
  {
    hide MayCreate, Create, NewPid, ProcOk;
    CreateNew(t, c);
    forall p <- t.procs ensures p in Create(t, c).procs
      && Create(t, c).procs[p].pid == t.procs[p].pid { CreateOld(t, c, p); }
  }

  lemma CreateList(t: Table, c: Option<nat>)
    requires Ok(t) && MayCreate(t, c)
    ensures ListOk(Create(t, c))
  {
    hide MayCreate, ProcOk, NewPid, PidsDistinct, HistoryOk;
    CreateNew(t, c);
    var t' := Create(t, c);
    assert t'.list == t.list + [t.next];
    assert forall p: nat :: p in t'.list <==> p in t'.procs;
  }

  lemma CreateHistory(t: Table, c: Option<nat>)
    requires Ok(t) && MayCreate(t, c)
    ensures HistoryOk(Create(t, c))
  {
    hide MayCreate, ProcOk, NewPid, PidsDistinct, ListOk;
    CreateNew(t, c);
  }

  lemma CreateOk(t: Table, c: Option<nat>)
    requires Ok(t) && MayCreate(t, c)
    ensures Ok(Create(t, c))
  {
    hide ProcOk, MayCreate, NewPid, PidsDistinct, ListOk, HistoryOk;
    var t' := Create(t, c);
    CreateNew(t, c);
    CreateNewOk(t, c);
    CreatePids(t, c);
    CreateList(t, c);
    CreateHistory(t, c);
    forall p <- t'.procs ensures ProcOk(t', p) { if p != t.next { CreateOldOk(t, c, p); } }
    if t.next > 0 { CreateOld(t, c, IDLE); }
  }

  /** Pids stay distinct exactly while one is free, or while the -1 of a failed
      search has not been handed out before. */
  lemma CreateUniqueIff(t: Table, c: Option<nat>)
    requires Ok(t) && MayCreate(t, c)
    ensures (forall p <- t.procs :: Create(t, c).procs[t.next].pid != t.procs[p].pid)
       <==> (!(forall pid: nat :: pid < t.max ==> Taken(t, pid)) || !Taken(t, -1))
  {
    hide Ok, MayCreate, Create;
    CreateNew(t, c);
    OkNextPid(t);
    ExhaustedIff(t);
  }

  lemma OkNextPid(t: Table)
    requires Ok(t)
    ensures t.nextPid < t.max
  {
  }

  // ---------------------------------------------------------------------
  // proc_cleanup
  // ---------------------------------------------------------------------

  /** Only the waiting field of `q` differs, and the history does not. */
  ghost predicate OnlyWaiting(t: Table, t': Table, q: nat) {
    && q in t.procs && t'.procs.Keys == t.procs.Keys
    && (forall p <- t.procs :: t'.procs[p] == if p == q then t.procs[p].(waiting := t'.procs[p].waiting)
        else t.procs[p])
    && t' == t.(procs := t'.procs)
  }

  lemma OnlyWaitingOk(t: Table, t': Table, q: nat)
    requires Ok(t) && OnlyWaiting(t, t', q) && t.procs[q].state == Running
    requires WaitOk(t, q) ==> WaitOk(t', q)
    ensures Ok(t')
  {
    hide PidsDistinct, ListOk, HistoryOk;
    forall p <- t'.procs ensures ProcOk(t', p) {
      OkProc(t, p);
      OnlyWaitingProc(t, t', q, p);
    }
    OnlyWaitingRest(t, t', q);
  }

  lemma OnlyWaitingProc(t: Table, t': Table, q: nat, p: nat)
    requires OnlyWaiting(t, t', q) && t.procs[q].state == Running && p in t.procs && ProcOk(t, p)
    requires WaitOk(t, q) ==> WaitOk(t', q)
    ensures ProcOk(t', p)
  {
    assert ParentOk(t', p) && ChildrenOk(t', p) && StateOk(t', p);
    forall k | HasChildPid(t, p, k) ensures HasChildPid(t', p, k) {
      var y :| y in t.procs[p].children && y in t.procs && t.procs[y].pid == k;
    }
    assert forall x, k :: Reapable(t', x, k) <==> Reapable(t, x, k);
    assert WaitOk(t', p);
  }

  lemma OnlyWaitingRest(t: Table, t': Table, q: nat)
    requires OnlyWaiting(t, t', q) && PidsDistinct(t) && ListOk(t) && HistoryOk(t)
    ensures PidsDistinct(t') && ListOk(t') && HistoryOk(t')
  {
  }

  lemma WakeOk(t: Table, q: nat)
    requires Ok(t) && q in t.procs
    ensures Ok(Wake(t, q))
  {
    hide Ok;
    OkProc(t, q);
    if t.procs[q].waiting.Asleep? {
      var t', k := Wake(t, q), t.procs[q].waiting.pid;
      if k != -1 {
        var y :| y in t.procs[q].children && y in t.procs && t.procs[y].pid == k;
        assert y in t'.procs[q].children && y in t'.procs && t'.procs[y].pid == k;
      }
      assert WaitOk(t', q);
      OnlyWaitingOk(t, t', q);
    }
  }

  /** The children of `c`, a live process that is not waiting, can go to `h`. */
  ghost predicate Heir(t: Table, c: nat, h: nat) {
    && Active(t, c) && c != IDLE && t.init == Some(h) && h != c && h in t.procs && t.procs[h].state == Running
  }

  /** What becomes of each process when all children of `c` move to `h`. */
  lemma MovedAt(t: Table, c: nat, h: nat, p: nat)
    requires Ok(t) && Heir(t, c, h) && p in t.procs
    ensures var procs := Moved(t.procs, c, h, |t.procs[c].children|);
            && procs.Keys == t.procs.Keys
            && (p == c ==> procs[p] == t.procs[p].(children := []))
            && (p == h ==> procs[p] == t.procs[p].(children := t.procs[h].children + t.procs[c].children))
            && (p != c && p != h ==> procs[p] == if p in t.procs[c].children then t.procs[p].(parent := Some(h))
                else t.procs[p])
            && (p in t.procs[c].children <==> t.procs[p].parent == Some(c))
            && h !in t.procs[c].children && c !in t.procs[c].children
  {
    hide Ok;
    var kids := t.procs[c].children;
    assert kids[..|kids|] == kids && kids[|kids|..] == [];
    OkProc(t, c);
    OkProc(t, h);
    OkProc(t, p);
  }

  lemma AdoptParent(t: Table, c: nat, h: nat, p: nat)
    requires Ok(t) && Heir(t, c, h) && p in t.procs
    ensures var t' := t.(procs := Moved(t.procs, c, h, |t.procs[c].children|)); p in t'.procs && ParentOk(t', p)
  {
    hide Ok, Moved;
    MovedAt(t, c, h, p);
    OkProc(t, p);
    MovedAt(t, c, h, h);
    if p != IDLE {
      var q := t.procs[p].parent.value;
      MovedAt(t, c, h, q);
      OkProc(t, h);
    }
  }

  lemma NoDupConcat(a: seq<nat>, b: seq<nat>)
    requires NoDup(a) && NoDup(b) && forall x <- a :: x !in b
    ensures NoDup(a + b)
  {
    forall i, j | 0 <= i < j < |a + b| ensures (a + b)[i] != (a + b)[j] {
      if i < |a| <= j { assert a[i] in a; }
    }
  }

  lemma AdoptChildren(t: Table, c: nat, h: nat, p: nat)
    requires Ok(t) && Heir(t, c, h) && p in t.procs
    ensures var t' := t.(procs := Moved(t.procs, c, h, |t.procs[c].children|)); p in t'.procs && ChildrenOk(t', p)
  {
    hide Ok, Moved, NoDup;
    var t' := t.(procs := Moved(t.procs, c, h, |t.procs[c].children|));
    MovedAt(t, c, h, p);
    OkProc(t, p);
    OkProc(t, c);
    if p == c { EmptyNoDup(); }
    if p == h { NoDupConcat(t.procs[h].children, t.procs[c].children); }
    forall x <- t'.procs[p].children ensures x in t'.procs && t'.procs[x].parent == Some(p) {
      MovedAt(t, c, h, x);
    }
  }

  lemma EmptyNoDup()
    ensures NoDup([])
  {
  }

  lemma AdoptState(t: Table, c: nat, h: nat, p: nat)
    requires Ok(t) && Heir(t, c, h) && p in t.procs
    ensures var t' := t.(procs := Moved(t.procs, c, h, |t.procs[c].children|)); p in t'.procs && StateOk(t', p)
  {
    hide Ok, Moved;
    MovedAt(t, c, h, p);
    OkProc(t, p);
  }

  /** A process waited for by pid keeps its parent's ear: pids are distinct. */
  lemma AdoptWait(t: Table, c: nat, h: nat, p: nat)
    requires Ok(t) && Heir(t, c, h) && p in t.procs
    ensures var t' := t.(procs := Moved(t.procs, c, h, |t.procs[c].children|)); p in t'.procs && WaitOk(t', p)
  {
    hide Ok, Moved, NoDup, ParentOk, StateOk;
    var t' := t.(procs := Moved(t.procs, c, h, |t.procs[c].children|));
    MovedAt(t, c, h, p);
    OkProc(t, p);
    OkProc(t, c);
    OkPids(t);
    forall x <- t.procs ensures x in t'.procs && t'.procs[x].pid == t.procs[x].pid
      && t'.procs[x].state == t.procs[x].state { MovedAt(t, c, h, x); }
    if p != c && !t.procs[p].waiting.NotWaiting? {
      var k := t.procs[p].waiting.pid;
      if k != -1 {
        var y :| y in t.procs[p].children && y in t.procs && t.procs[y].pid == k;
        assert y in t'.procs[p].children;
      }
    }
  }

  lemma OkPids(t: Table)
    requires Ok(t)
    ensures PidsDistinct(t)
  {
  }

  lemma AdoptOk(t: Table, c: nat, h: nat)
    requires Ok(t) && Heir(t, c, h)
    ensures Ok(t.(procs := Moved(t.procs, c, h, |t.procs[c].children|)))
  {
    hide Moved, ProcOk, NoDup;
    var t' := t.(procs := Moved(t.procs, c, h, |t.procs[c].children|));
    MovedAt(t, c, h, c);
    forall p <- t'.procs ensures ProcOk(t', p) && t'.procs[p].pid == t.procs[p].pid {
      AdoptProc(t, c, h, p);
      MovedAt(t, c, h, p);
    }
  }

  lemma AdoptProc(t: Table, c: nat, h: nat, p: nat)
    requires Ok(t) && Heir(t, c, h) && p in t.procs
    ensures var t' := t.(procs := Moved(t.procs, c, h, |t.procs[c].children|)); p in t'.procs && ProcOk(t', p)
  {
    hide Ok, Moved, Heir, ParentOk, ChildrenOk, StateOk, WaitOk;
    AdoptParent(t, c, h, p);
    AdoptChildren(t, c, h, p);
    AdoptState(t, c, h, p);
    AdoptWait(t, c, h, p);
  }

  lemma BuryProc(t: Table, c: nat, status: int, p: nat)
    requires Ok(t) && Active(t, c) && t.procs[c].children == [] && c != IDLE && p in t.procs
    requires t.procs[c].parent.Some? && t.procs[c].parent.value in t.procs
             && !t.procs[t.procs[c].parent.value].waiting.Asleep?
    ensures p in Bury(t, c, status).procs && ProcOk(Bury(t, c, status), p)
  {
    hide Ok;
    var t' := Bury(t, c, status);
    OkProc(t, p);
    assert ParentOk(t', p) && ChildrenOk(t', p) && StateOk(t', p);
    if !t.procs[p].waiting.NotWaiting? {
      var k := t.procs[p].waiting.pid;
      if k != -1 {
        var y :| y in t.procs[p].children && y in t.procs && t.procs[y].pid == k;
        assert y in t'.procs[p].children && t'.procs[y].pid == k;
      }
      assert c in t.procs[p].children ==> t.procs[p].waiting.Woken?;
      assert forall x <- t.procs[p].children :: x != c ==> (Reapable(t', x, k) <==> Reapable(t, x, k));
    }
  }

  lemma BuryOk(t: Table, c: nat, status: int)
    requires Ok(t) && Active(t, c) && t.procs[c].children == [] && c != IDLE
    requires t.procs[c].parent.Some? && t.procs[c].parent.value in t.procs
             && !t.procs[t.procs[c].parent.value].waiting.Asleep?
    ensures Ok(Bury(t, c, status))
  {
    hide ProcOk;
    var t' := Bury(t, c, status);
    forall p <- t'.procs ensures ProcOk(t', p) { BuryProc(t, c, status, p); }
    RunningNotExited(t, c);
  }

  lemma RunningNotExited(t: Table, c: nat)
    requires Ok(t) && c in t.procs && t.procs[c].state == Running
    ensures c !in t.exits && c < t.next
  {
    OkProc(t, c);
  }

  /** The children of an exiting process have someone to go to. */
  ghost predicate HasHeir(t: Table, c: nat)
    requires c in t.procs
  {
    t.procs[c].children == [] || (t.init.Some? && Heir(t, c, t.init.value))
  }

  /** Who runs proc_cleanup, as it asserts; the record of init is still there to
      be linked to. */
  predicate Exiting(t: Table, c: nat) {
    && Active(t, c) && t.procs[c].pid >= 1 && t.init.Some?
    && (t.procs[c].children != [] ==> t.init.value in t.procs)
  }

  ghost predicate MayExit(t: Table, c: nat) {
    Exiting(t, c) && HasHeir(t, c)
  }

  function ExitStep(t: Table, c: nat, status: int): Table
    requires Ok(t) && Exiting(t, c)
  {
    ExitParent(t, c);
    var t1 := Wake(t, t.procs[c].parent.value);
    Bury(Adopt(t1, c), c, status)
  }

  /** The exiting process has a living parent, which is not itself. */
  lemma ExitParent(t: Table, c: nat)
    requires Ok(t) && c in t.procs && t.procs[c].pid >= 1
    ensures t.procs[c].parent.Some? && c != IDLE
    ensures var q := t.procs[c].parent.value;
            q in t.procs && q != c && t.procs[q].state == Running && c in t.procs[q].children
  {
    OkProc(t, c);
    OkProc(t, t.procs[c].parent.value);
  }

  lemma ExitOk(t: Table, c: nat, status: int)
    requires Ok(t) && MayExit(t, c)
    ensures Ok(ExitStep(t, c, status))
  {
    hide Ok, Moved;
    ExitParent(t, c);
    var q := t.procs[c].parent.value;
    var t1 := Wake(t, q);
    WakeOk(t, q);
    var t2 := Adopt(t1, c);
    if t1.procs[c].children != [] {
      var h := t.init.value;
      AdoptOk(t1, c, h);
      MovedAt(t1, c, h, c);
      MovedAt(t1, c, h, q);
    }
    BuryOk(t2, c, status);
  }

  // ---------------------------------------------------------------------
  // do_waitpid
  // ---------------------------------------------------------------------

  /** A dead child about to be disposed of by its parent `c`. */
  ghost predicate Zombie(t: Table, c: nat, i: nat) {
    && c in t.procs && t.procs[c].state == Running && i < |t.procs[c].children|
    && t.procs[c].children[i] in t.procs && t.procs[c].children[i] in t.list
    && t.procs[t.procs[c].children[i]].state == Dead
  }

  lemma DisposeAt(t: Table, c: nat, i: nat, p: nat)
    requires Ok(t) && Zombie(t, c, i) && p in t.procs && p != t.procs[c].children[i]
    ensures var x := t.procs[c].children[i]; var t' := Dispose(t, c, i);
            && t'.procs.Keys == t.procs.Keys - {x} && c != x && x != IDLE && t.procs[x].children == []
            && t.procs[x].parent == Some(c)
            && t'.procs[p] == if p == c
              then t.procs[p].(children := Without(t.procs[p].children, i), waiting := NotWaiting) else t.procs[p]
  {
    hide Ok, Without;
    OkProc(t, c);
    OkProc(t, t.procs[c].children[i]);
    assert t.procs[c].children[i] in t.procs[c].children;
  }

  lemma DisposeProc(t: Table, c: nat, i: nat, p: nat)
    requires Ok(t) && Zombie(t, c, i) && p in t.procs && p != t.procs[c].children[i]
    ensures p in Dispose(t, c, i).procs && ProcOk(Dispose(t, c, i), p)
  {
    hide Ok, Dispose, Without, NoDup;
    var x, t' := t.procs[c].children[i], Dispose(t, c, i);
    DisposeAt(t, c, i, p);
    OkProc(t, p);
    OkProc(t, c);
    DisposeFields(t, c, i);
    WithoutMembers(t.procs[c].children, i);
    if p != IDLE {
      var q := t.procs[p].parent.value;
      OkProc(t, q);
      DisposeAt(t, c, i, q);
    }
    assert ParentOk(t', p);
    forall y <- t'.procs[p].children
      ensures y != x && y in t.procs[p].children && y in t'.procs && t'.procs[y].parent == Some(p)
      && t'.procs[y].pid == t.procs[y].pid && t'.procs[y].state == t.procs[y].state {
      DisposeAt(t, c, i, y);
    }
    assert ChildrenOk(t', p) && StateOk(t', p);
    DisposeWait(t, c, i, p);
  }

  lemma DisposeFields(t: Table, c: nat, i: nat)
    requires Ok(t) && Zombie(t, c, i)
    ensures var t' := Dispose(t, c, i);
            t'.next == t.next && t'.exits == t.exits && t'.init == t.init && t'.max == t.max && t'.nextPid == t.nextPid
  {
  }

  lemma DisposeWait(t: Table, c: nat, i: nat, p: nat)
    requires Ok(t) && Zombie(t, c, i) && p in t.procs && p != t.procs[c].children[i]
    ensures p in Dispose(t, c, i).procs && WaitOk(Dispose(t, c, i), p)
  {
    hide Ok, Dispose, Without, NoDup;
    var x, t' := t.procs[c].children[i], Dispose(t, c, i);
    DisposeAt(t, c, i, p);
    DisposeFields(t, c, i);
    OkProc(t, p);
    if p != c {
      forall y <- t.procs[p].children
        ensures y in t'.procs && t'.procs[y].pid == t.procs[y].pid && t'.procs[y].state == t.procs[y].state {
        DisposeAt(t, c, i, y);
      }
      forall k | HasChildPid(t, p, k) ensures HasChildPid(t', p, k) {
        var y :| y in t.procs[p].children && y in t.procs && t.procs[y].pid == k;
        assert y in t'.procs[p].children && y in t'.procs && t'.procs[y].pid == k;
      }
    }
  }

  lemma DisposeOk(t: Table, c: nat, i: nat)
    requires Ok(t) && Zombie(t, c, i)
    ensures Ok(Dispose(t, c, i))
  {
    hide ProcOk, Without, NoDup;
    var x, t' := t.procs[c].children[i], Dispose(t, c, i);
    DisposeAt(t, c, i, c);
    DisposeFields(t, c, i);
    forall p <- t'.procs ensures ProcOk(t', p) && t'.procs[p].pid == t.procs[p].pid {
      DisposeProc(t, c, i, p);
      DisposeAt(t, c, i, p);
    }
    if t.next > 0 { DisposeAt(t, c, i, IDLE); }
    DisposeHistory(t, c, i);
    WithoutMembers(t.list, IndexOf(t.list, x));
  }

  lemma DisposeHistory(t: Table, c: nat, i: nat)
    requires Ok(t) && Zombie(t, c, i)
    ensures HistoryOk(Dispose(t, c, i))
  {
    hide Without, ParentOk, ChildrenOk, WaitOk, PidsDistinct, ListOk;
    var x, t' := t.procs[c].children[i], Dispose(t, c, i);
    OkProc(t, x);
    DisposeAt(t, c, i, c);
    var n := |t.reaps|;
    assert t'.reaps[n].who == x;
    forall p <- t'.exits ensures p in t'.procs || exists j :: 0 <= j < |t'.reaps| && t'.reaps[j].who == p {
      if p !in t.procs {
        var j :| 0 <= j < |t.reaps| && t.reaps[j].who == p;
        assert t'.reaps[j].who == p;
      }
    }
  }

  /** A waiter inside do_waitpid, or one entering it with such a child. */
  ghost predicate MayScan(t: Table, c: nat, k: int) {
    && c in t.procs && t.procs[c].state == Running && t.procs[c].children != []
    && (k == -1 || (k > 0 && HasChildPid(t, c, k)))
  }

  lemma ScanOk(t: Table, c: nat, k: int)
    requires Ok(t) && MayScan(t, c, k)
    ensures Ok(Scan(t, c, k))
  {
    hide Ok;
    match FirstReapable(t, t.procs[c].children, k) {
      case Some(i) =>
        KidListed(t, c, i);
        DisposeOk(t, c, i);
      case None =>
        var t' := Scan(t, c, k);
        if k != -1 {
          var y :| y in t.procs[c].children && y in t.procs && t.procs[y].pid == k;
          assert y in t'.procs[c].children && y in t'.procs && t'.procs[y].pid == k;
        }
        assert forall x <- t.procs[c].children :: !Reapable(t, x, k);
        assert forall x <- t'.procs[c].children :: Reapable(t', x, k) ==> Reapable(t, x, k);
        assert WaitOk(t', c);
        OnlyWaitingOk(t, t', c);
    }
  }

  /** The exiting process itself, afterwards. */
  lemma ExitSelf(t: Table, c: nat, status: int)
    requires Ok(t) && Exiting(t, c)
    ensures var t' := ExitStep(t, c, status);
            && c in t'.procs && t'.procs[c].state == Dead && t'.procs[c].status == status
            && t'.exits == t.exits[c := status]
            && t'.procs[c].parent == t.procs[c].parent && t'.init == t.init
            && t'.procs[c].children == if t.init == Some(c) then t.procs[c].children else []
  {
    hide Ok;
    ExitParent(t, c);
  }

  /** The table survives an exit exactly when there is nobody to re-parent, or a
      living init other than the process itself to re-parent to. */
  lemma ExitOkIff(t: Table, c: nat, status: int)
    requires Ok(t) && Exiting(t, c)
    ensures Ok(ExitStep(t, c, status)) <==> HasHeir(t, c)
  {
    hide Ok, ExitStep;
    if HasHeir(t, c) {
      ExitOk(t, c, status);
    } else {
      var t' := ExitStep(t, c, status);
      ExitSelf(t, c, status);
      if t.init != Some(c) { ExitHeir(t, c, status); }
      if Ok(t') {
        OkProc(t', c);
        if t.init != Some(c) { OkProc(t', t.init.value); }
      }
    }
  }

  lemma ExitHeir(t: Table, c: nat, status: int)
    requires Ok(t) && Exiting(t, c) && t.init != Some(c) && t.init.value in t.procs
    ensures var t', h := ExitStep(t, c, status), t.init.value;
            && h in t'.procs && t'.procs[h].children == t.procs[h].children + t.procs[c].children
            && t'.procs[h].state == t.procs[h].state
            && t'.procs[h].waiting ==
              (if t.procs[c].parent == Some(h) && t.procs[h].waiting.Asleep? then Woken(t.procs[h].waiting.pid)
               else t.procs[h].waiting)
  {
    hide Ok;
    ExitParent(t, c);
    var kids := t.procs[c].children;
    assert kids[..|kids|] == kids;
  }

  // ---------------------------------------------------------------------
  // Runs
  // ---------------------------------------------------------------------

  datatype Op =
    | Spawn(c: Option<nat>)
    | Exit(who: nat, status: int)
    | Wait(who: nat, k: int)
    | Resume(who: nat)

  ghost predicate Enabled(t: Table, op: Op)
    requires Ok(t)
  {
    match op
    case Spawn(c) => MayCreate(t, c)
    case Exit(c, _) => MayExit(t, c)
    case Wait(c, k) => Active(t, c) && (k == -1 || k > 0)
    case Resume(c) => c in t.procs && t.procs[c].waiting.Woken?
  }

  /** do_waitpid returns -ECHILD: no children, or none with that pid. */
  predicate NoSuchChild(t: Table, c: nat, k: int)
    requires c in t.procs
  {
    t.procs[c].children == [] || (k != -1 && forall x <- t.procs[c].children :: x in t.procs ==> t.procs[x].pid != k)
  }

  function WaitStep(t: Table, c: nat, k: int): Table
    requires Ok(t) && c in t.procs
  {
    if NoSuchChild(t, c, k) then t else Scan(t, c, k)
  }

  ghost function Step(t: Table, op: Op): Table
    requires Ok(t) && Enabled(t, op)
  {
    match op
    case Spawn(c) => Create(t, c)
    case Exit(c, status) => ExitStep(t, c, status)
    case Wait(c, k) => WaitStep(t, c, k)
    case Resume(c) => Scan(t, c, t.procs[c].waiting.pid)
  }

  lemma StepOk(t: Table, op: Op)
    requires Ok(t) && Enabled(t, op)
    ensures Ok(Step(t, op))
  {
    hide Ok, Scan, Create, ExitStep;
    match op {
      case Spawn(c) => CreateOk(t, c);
      case Exit(c, status) => ExitOk(t, c, status);
      case Wait(c, k) =>
        if !NoSuchChild(t, c, k) { ScanOk(t, c, k); }
      case Resume(c) =>
        OkProc(t, c);
        ScanOk(t, c, t.procs[c].waiting.pid);
    }
  }

  ghost function Next(t: Table, op: Op): (t': Table)
    requires Ok(t)
    ensures Ok(t')
  {
    if Enabled(t, op) then StepOk(t, op); Step(t, op) else t
  }

  ghost function Run(t: Table, ops: seq<Op>): (t': Table)
    requires Ok(t)
    ensures Ok(t')
    decreases |ops|
  {
    if ops == [] then t else Run(Next(t, ops[0]), ops[1..])
  }

  /** No process yet; `max` is PROC_MAX_COUNT. */
  function Boot(max: nat): Table {
    Table(map[], [], max, 0, None, 0, map[], [])
  }

  lemma BootOk(max: nat)
    requires max > 0
    ensures Ok(Boot(max))
  {
  }

  /** The table after a run from boot. */
  ghost function After(max: nat, ops: seq<Op>): (t: Table)
    requires max > 0
    ensures Ok(t)
  {
    BootOk(max);
    Run(Boot(max), ops)
  }

  /** After every run from boot parent pointers and child lists agree, each child is
      listed once, and pids in range are distinct. */
  lemma TreeAfterRun(max: nat, ops: seq<Op>)
    requires max > 0
    ensures var t := After(max, ops);
            && (forall p, q :: p in t.procs && q in t.procs ==>
                (t.procs[p].parent == Some(q) <==> p in t.procs[q].children))
            && (forall p <- t.procs :: NoDup(t.procs[p].children) && (t.procs[p].parent.None? <==> p == IDLE))
            && (forall p, q :: p in t.procs && q in t.procs && p != q && t.procs[p].pid >= 0 ==>
                t.procs[p].pid != t.procs[q].pid)
  {
    var t := After(max, ops);
    forall p, q | p in t.procs && q in t.procs ensures t.procs[p].parent == Some(q) <==> p in t.procs[q].children {
      OkProc(t, p);
      OkProc(t, q);
    }
    forall p <- t.procs ensures NoDup(t.procs[p].children) && (t.procs[p].parent.None? <==> p == IDLE) { OkProc(t, p); }
  }

  /** The `n`-th ancestor. */
  function Ancestor(t: Table, p: nat, n: nat): nat
    decreases n
  {
    if n == 0 || p !in t.procs || t.procs[p].parent.None? then p else Ancestor(t, t.procs[p].parent.value, n - 1)
  }

  /** Everyone descends from the idle process. */
  lemma {:induction false} RootedAtIdle(t: Table, p: nat) returns (n: nat)
    requires Ok(t) && p in t.procs
    ensures Ancestor(t, p, n) == IDLE
    decreases Rank(t, p)
  {
    hide Ok, ChildrenOk, StateOk, WaitOk;
    OkProc(t, p);
    if p == IDLE {
      n := 0;
    } else {
      n := RootedAtIdle(t, t.procs[p].parent.value);
      n := n + 1;
    }
  }

  /** After every run each process ever created is in the table or was reaped;
      whoever was reaped had exited, was reaped once, and with its own status. */
  lemma ReapedOnce(max: nat, ops: seq<Op>)
    requires max > 0
    ensures var t := After(max, ops);
            && (forall p: nat :: p < t.next ==>
                (p in t.procs <==> !exists i :: 0 <= i < |t.reaps| && t.reaps[i].who == p))
            && (forall i :: 0 <= i < |t.reaps| ==>
                t.reaps[i].who in t.exits && t.reaps[i].status == t.exits[t.reaps[i].who])
            && (forall i, j :: 0 <= i < j < |t.reaps| ==> t.reaps[i].who != t.reaps[j].who)
  {
    var t := After(max, ops);
    assert HistoryOk(t);
  }

  /** After every run nobody sleeps in do_waitpid with a child it would reap, except
      possibly init waiting for any child. */
  lemma NoLostWakeup(max: nat, ops: seq<Op>, p: nat)
    requires max > 0
    requires var t := After(max, ops); p in t.procs && t.procs[p].waiting.Asleep?
    ensures var t := After(max, ops); var k := t.procs[p].waiting.pid;
            && t.procs[p].children != []
            && (t.init != Some(p) || k != -1 ==> forall x <- t.procs[p].children :: !Reapable(t, x, k))
            && (k != -1 ==> exists x :: x in t.procs[p].children && x in t.procs && t.procs[x].pid == k)
  {
    var t := After(max, ops);
    OkProc(t, p);
    if t.procs[p].waiting.pid != -1 { assert HasChildPid(t, p, t.procs[p].waiting.pid); }
  }

  // ---------------------------------------------------------------------
  // Init and re-parented zombies
  // ---------------------------------------------------------------------

  /** Init sleeps in do_waitpid(-1) although one of its children is dead. */
  ghost predicate Stuck(t: Table) {
    && t.init.Some? && t.init.value in t.procs && t.procs[t.init.value].waiting == Asleep(-1)
    && exists x :: x in t.procs[t.init.value].children && Reapable(t, x, -1)
  }

  predicate HasZombie(t: Table, c: nat)
    requires c in t.procs
  {
    exists x :: x in t.procs[c].children && Reapable(t, x, -1)
  }

  lemma ExitStates(t: Table, c: nat, status: int, x: nat)
    requires Ok(t) && Exiting(t, c) && x in t.procs && x != c
    ensures var t' := ExitStep(t, c, status);
            x in t'.procs && t'.procs[x].state == t.procs[x].state && t'.procs[x].pid == t.procs[x].pid
  {
    hide Ok;
    ExitParent(t, c);
  }

  /** An exit leaves init stuck exactly when init already slept waiting for any
      child, the exiting process is not its child, and it was stuck before or the
      exiting process leaves it a zombie. */
  lemma StuckIff(t: Table, c: nat, status: int)
    requires Ok(t) && MayExit(t, c) && t.init != Some(c)
    ensures Stuck(ExitStep(t, c, status))
       <==> (&& t.init.value in t.procs && t.procs[t.init.value].waiting == Asleep(-1) && t.procs[c].parent != t.init
             && (Stuck(t) || HasZombie(t, c)))
  {
    hide Ok, ExitStep;
    var h, t' := t.init.value, ExitStep(t, c, status);
    ExitSelf(t, c, status);
    if h in t.procs {
      ExitHeir(t, c, status);
      OkProc(t, h);
      OkProc(t, c);
      forall x | x in t.procs && x != c
        ensures x in t'.procs && Reapable(t', x, -1) == Reapable(t, x, -1) { ExitStates(t, c, status, x); }
      if t.procs[c].parent != t.init {
        assert forall x <- t'.procs[h].children :: x in t.procs[h].children || x in t.procs[c].children;
        assert forall x <- t.procs[h].children + t.procs[c].children :: x in t.procs && x != c;
      }
    } else {
      ExitKeys(t, c, status);
    }
  }

  lemma ExitKeys(t: Table, c: nat, status: int)
    requires Ok(t) && Exiting(t, c)
    ensures ExitStep(t, c, status).procs.Keys == t.procs.Keys
  {
    hide Ok;
    ExitParent(t, c);
  }

  /** No other step gets init stuck. */
  lemma OnlyExitSticks(t: Table, op: Op)
    requires Ok(t) && Enabled(t, op) && !op.Exit? && Stuck(Step(t, op))
    ensures Stuck(t)
  {
    hide Ok, Scan, Create;
    match op {
      case Spawn(c) => CreateUnstuck(t, c);
      case Wait(c, k) =>
        if !NoSuchChild(t, c, k) { ScanUnstuck(t, c, k); }
      case Resume(c) =>
        OkProc(t, c);
        ScanUnstuck(t, c, t.procs[c].waiting.pid);
    }
  }

  lemma CreateUnstuck(t: Table, c: Option<nat>)
    requires Ok(t) && MayCreate(t, c) && Stuck(Create(t, c))
    ensures Stuck(t)
  {
    hide Ok, Create, MayCreate, NewPid;
    var t' := Create(t, c);
    CreateNew(t, c);
    var h := t'.init.value;
    assert h != t.next;
    CreateOld(t, c, h);
    OkProc(t, h);
    var x :| x in t'.procs[h].children && Reapable(t', x, -1);
    CreateOld(t, c, x);
  }

  lemma ScanUnstuck(t: Table, c: nat, k: int)
    requires Ok(t) && MayScan(t, c, k) && Stuck(Scan(t, c, k))
    ensures Stuck(t)
  {
    hide Ok, Dispose, Without;
    var t', h := Scan(t, c, k), t.init;
    match FirstReapable(t, t.procs[c].children, k) {
      case Some(i) =>
        KidListed(t, c, i);
        DisposeFields(t, c, i);
        DisposeUnstuck(t, c, i);
      case None =>
        var x :| x in t'.procs[t'.init.value].children && Reapable(t', x, -1);
        assert t'.procs[x].state == t.procs[x].state && Reapable(t, x, -1);
        assert x in t.procs[h.value].children;
    }
  }

  lemma DisposeUnstuck(t: Table, c: nat, i: nat)
    requires Ok(t) && Zombie(t, c, i) && Stuck(Dispose(t, c, i))
    ensures Stuck(t)
  {
    hide Ok, Dispose, Without;
    var t' := Dispose(t, c, i);
    DisposeFields(t, c, i);
    DisposeAt(t, c, i, c);
    var h := t'.init.value;
    DisposeAt(t, c, i, h);
    var x :| x in t'.procs[h].children && Reapable(t', x, -1);
    DisposeAt(t, c, i, x);
  }

  // ---------------------------------------------------------------------
  // What do_waitpid tells its caller
  // ---------------------------------------------------------------------

  /** A successful do_waitpid hands over the pid and the exit status of one dead
      child, the only one with that pid if it was asked for, and removes it. */
  lemma WaitCollects(t: Table, c: nat, k: int)
    requires Ok(t) && MayScan(t, c, k) && WaitOutcome(t, c, k).Collected?
    ensures exists x :: CollectedChild(t, c, k, x)
  {
    hide Ok, Dispose;
    var i := FirstReapable(t, t.procs[c].children, k).value;
    var x := t.procs[c].children[i];
    KidListed(t, c, i);
    OkProc(t, c);
    OkProc(t, x);
    DisposeAt(t, c, i, c);
    DisposeReaps(t, c, i);
    OkPids(t);
    assert CollectedChild(t, c, k, x);
  }

  lemma DisposeReaps(t: Table, c: nat, i: nat)
    requires Ok(t) && Zombie(t, c, i)
    ensures var x := t.procs[c].children[i]; Dispose(t, c, i).reaps == t.reaps + [Reaped(x, t.procs[x].status)]
  {
    hide Ok;
  }

  ghost predicate CollectedChild(t: Table, c: nat, k: int, x: nat)
    requires Ok(t) && c in t.procs
  {
    && x in t.procs[c].children && Reapable(t, x, k) && x in t.exits
    && (k != -1 ==> forall y <- t.procs[c].children :: y in t.procs && t.procs[y].pid == k ==> y == x)
    && WaitOutcome(t, c, k) == Collected(t.procs[x].pid, t.exits[x])
    && Scan(t, c, k).procs.Keys == t.procs.Keys - {x}
    && Scan(t, c, k).reaps == t.reaps + [Reaped(x, t.exits[x])]
  }

  /** It blocks exactly when none of the children asked for is dead. */
  lemma WaitSleepsIff(t: Table, c: nat, k: int)
    requires Ok(t) && MayScan(t, c, k)
    ensures WaitOutcome(t, c, k) == Sleeps <==> forall x <- t.procs[c].children :: !Reapable(t, x, k)
    ensures WaitOutcome(t, c, k) == Sleeps <==> c in Scan(t, c, k).procs && Scan(t, c, k).procs[c].waiting == Asleep(k)
  {
    hide Ok, Dispose;
    match FirstReapable(t, t.procs[c].children, k) {
      case Some(i) =>
        KidListed(t, c, i);
        assert t.procs[c].children[i] in t.procs[c].children;
        DisposeAt(t, c, i, c);
      case None =>
    }
  }
}
