/** proc.c as it runs: the process list, the child lists and next_pid changed in
    place by loops over them. */
module ProcImpl {
  import opened Basics
  import opened ProcTree

  /** The pid after `pid`, cyclically. */
  method Following(pid: nat, max: nat) returns (r: nat)
    requires pid < max
    ensures r == if pid + 1 == max then 0 else pid + 1
  {
    r := (pid + 1) % max;
  }

  lemma ListedTaken(t: Table, pid: int)
    requires ListOk(t)
    ensures Taken(t, pid) <==> exists j :: 0 <= j < |t.list| && t.list[j] in t.procs && t.procs[t.list[j]].pid == pid
  {
    if Taken(t, pid) {
      var p :| p in t.procs && t.procs[p].pid == pid;
      assert p in t.list;
    }
  }

  /** The search has come to candidate `i`, the pid `pid`, all before it taken. */
  ghost predicate Search(t: Table, i: nat, pid: int) {
    i <= t.max && pid == Candidate(t, i) && NewPid(t) == FreePid(t, i)
  }

  lemma SearchStarts(t: Table)
    requires t.nextPid < t.max
    ensures Search(t, 0, t.nextPid)
  {
  }

  lemma SearchGoes(t: Table, i: nat, pid: int)
    requires i < t.max && t.nextPid < t.max && 0 <= pid < t.max && Search(t, i, pid)
    ensures !Taken(t, pid) ==> NewPid(t) == pid
    ensures Taken(t, pid) ==>
              var next := if pid + 1 == t.max then 0 else pid + 1;
              && Search(t, i + 1, next)
              && (next == t.nextPid ==> NewPid(t) == -1)
              && (next != t.nextPid ==> i + 1 < t.max)
  {
    FreePidStep(t, i);
    FreePidEnd(t, i + 1);
    hide NewPid;
  }

  /** Handing over one more child. */
  lemma MovedNext(procs: map<nat, Proc>, c: nat, h: nat, i: nat)
    requires c in procs && h in procs && c != h && i < |procs[c].children|
    requires forall x <- procs[c].children :: x in procs && x != c && x != h
    ensures var x := procs[c].children[i]; var m := Moved(procs, c, h, i);
            var m1 := m[x := m[x].(parent := Some(h))];
            var m2 := m1[c := m1[c].(children := m1[c].children[1..])];
            m2[h := m2[h].(children := m2[h].children + [x])] == Moved(procs, c, h, i + 1)
  {
    var kids := procs[c].children;
    var x := kids[i];
    assert kids[..i + 1] == kids[..i] + [x];
    assert kids[i..][1..] == kids[i + 1..];
    assert procs[h].children + kids[..i] + [x] == procs[h].children + kids[..i + 1];
  }

  lemma MovedNone(procs: map<nat, Proc>, c: nat, h: nat)
    requires c in procs && h in procs && c != h
    ensures Moved(procs, c, h, 0) == procs
  {
    assert procs[h].children + procs[c].children[..0] == procs[h].children;
    assert procs[c].children[0..] == procs[c].children;
  }

  /** Neither the exiting process nor init is among its children. */
  lemma KidsAreOthers(t: Table, c: nat, x: nat)
    requires Ok(t) && Exiting(t, c) && x in t.procs[c].children
    ensures x in t.procs && x != c && t.init != Some(x)
  {
    OkProc(t, c);
    OkProc(t, x);
  }

  lemma {:induction false} FirstIs(t: Table, l: seq<nat>, k: int, j: nat)
    requires j < |l| && Reapable(t, l[j], k) && forall x <- l[..j] :: !Reapable(t, x, k)
    ensures FirstReapable(t, l, k) == Some(j)
  {
    if j > 0 {
      assert l[0] in l[..j];
      assert forall x <- l[1..][..j - 1] :: x in l[..j];
      FirstIs(t, l[1..], k, j - 1);
    }
  }

  class ProcTable {
    var procs: map<nat, Proc>
    var list: seq<nat>
    const max: nat
    var nextPid: nat
    var init: Option<nat>
    var next: nat
    ghost var exits: map<nat, int>
    ghost var reaps: seq<Reaped>

    ghost function T(): Table
      reads this
    {
      Table(procs, list, max, nextPid, init, next, exits, reaps)
    }

    constructor (max: nat)
      ensures T() == Boot(max)
    {
      this.max := max;
      procs, list, nextPid, init, next, exits, reaps := map[], [], 0, None, 0, map[], [];
    }

    /** _proc_getid: the first free pid at or after next_pid, cyclically, or -1. */
    method GetId() returns (pid: int)
      requires nextPid < max && ListOk(T())
      modifies `nextPid
      ensures pid == NewPid(old(T()))
      ensures -1 <= pid < max && nextPid == NextPid(old(T()), pid)
    {
      hide ListOk, Taken, Search;
      ghost var t := T();
      SearchStarts(t);
      var tryPid := nextPid;
      ghost var i: nat := 0;
      while true
        invariant i < max && 0 <= tryPid < max && Search(t, i, tryPid) && nextPid == t.nextPid
        decreases max - i
      {
        assert T() == t;
        var taken := IsListed(tryPid);
        SearchGoes(t, i, tryPid);
        var following := Following(tryPid, max);
        if !taken {
          nextPid := following;
          return tryPid;
        }
        tryPid := following;
        i := i + 1;
        if tryPid == nextPid { return -1; }
      }
    }

    /** The inner loop of _proc_getid, which is also proc_lookup's. */
    method IsListed(pid: int) returns (found: bool)
      requires ListOk(T())
      ensures found <==> Taken(T(), pid)
    {
      ListedTaken(T(), pid);
      hide ListOk, Taken;
      var j := 0;
      while j < |list|
        invariant 0 <= j <= |list|
        invariant forall i :: 0 <= i < j ==> !(list[i] in procs && procs[list[i]].pid == pid)
      {
        if list[j] in procs && procs[list[j]].pid == pid { return true; }
        j := j + 1;
      }
      return false;
    }

    /** proc_create */
    method Create(c: Option<nat>) returns (p: nat)
      requires Ok(T()) && MayCreate(T(), c)
      modifies this
      ensures T() == ProcTree.Create(old(T()), c) && p == old(next)
    {
      hide ProcOk, PidsDistinct, HistoryOk, NewPid;
      ghost var t := T();
      OnlyFirstIsIdle(t);
      FreePidOk(t, 0);
      var pid := GetId();
      p := next;
      next := next + 1;
      if pid == PID_INIT { init := Some(p); }
      if pid != PID_IDLE { procs := procs[c.value := procs[c.value].(children := procs[c.value].children + [p])]; }
      procs := procs[p := Proc(pid, if pid != PID_IDLE then c else None, [], Running, 0, NotWaiting)];
      list := list + [p];
    }

    /** proc_cleanup, from waking the parent on */
    method Cleanup(c: nat, status: int)
      requires Ok(T()) && Exiting(T(), c)
      modifies `procs, `exits
      ensures T() == ExitStep(old(T()), c, status)
    {
      hide Ok, Moved;
      ghost var t := T();
      ExitParent(t, c);
      var q := procs[c].parent.value;
      if procs[q].waiting.Asleep? { procs := procs[q := procs[q].(waiting := Woken(procs[q].waiting.pid))]; }
      ghost var t1 := T();
      assert t1 == Wake(t, q);
      if init != Some(c) && procs[c].children != [] {
        forall x <- t1.procs[c].children ensures x in t1.procs && x != c && x != init.value { KidsAreOthers(t, c, x); }
        MoveChildren(c, init.value);
      }
      assert T() == Adopt(t1, c);
      procs := procs[c := procs[c].(status := status, state := Dead)];
      exits := exits[c := status];
    }

    /** Re-parents the children of `c` one by one, from the front of its list to the
        end of the list of `h`. */
    method MoveChildren(c: nat, h: nat)
      requires c in procs && h in procs && c != h
      requires forall x <- procs[c].children :: x in procs && x != c && x != h
      modifies `procs
      ensures procs == Moved(old(procs), c, h, |old(procs)[c].children|)
      ensures procs.Keys == old(procs).Keys
    {
      ghost var old_procs, kids, i := procs, procs[c].children, 0;
      MovedNone(procs, c, h);
      while procs[c].children != []
        invariant 0 <= i <= |kids| && procs == Moved(old_procs, c, h, i)
        decreases |kids| - i
      {
        var x := procs[c].children[0];
        assert x == kids[i];
        MovedNext(old_procs, c, h, i);
        procs := procs[x := procs[x].(parent := Some(h))];
        procs := procs[c := procs[c].(children := procs[c].children[1..])];
        procs := procs[h := procs[h].(children := procs[h].children + [x])];
        i := i + 1;
      }
      assert i == |kids|;
    }

    /** One pass of do_waitpid's loop. */
    method ScanChildren(c: nat, k: int) returns (r: Outcome)
      requires Ok(T()) && c in procs
      modifies `procs, `list, `reaps
      ensures T() == Scan(old(T()), c, k)
      ensures r == WaitOutcome(old(T()), c, k)
    {
      hide Ok, Without, IndexOf;
      ghost var t := T();
      var l := procs[c].children;
      var j := 0;
      while j < |l|
        invariant 0 <= j <= |l| && T() == t
        invariant forall x <- l[..j] :: !Reapable(t, x, k)
      {
        KidListed(t, c, j);
        if procs[l[j]].state == Dead && (k == -1 || procs[l[j]].pid == k) {
          FirstIs(t, l, k, j);
          r := Collected(procs[l[j]].pid, procs[l[j]].status);
          reaps := reaps + [Reaped(l[j], procs[l[j]].status)];
          procs := procs[c := procs[c].(children := Without(l, j), waiting := NotWaiting)] - {l[j]};
          list := Without(list, IndexOf(list, l[j]));
          return;
        }
        assert l[..j + 1] == l[..j] + [l[j]];
        j := j + 1;
      }
      assert l[..j] == l;
      procs := procs[c := procs[c].(waiting := Asleep(k))];
      r := Sleeps;
    }

    /** do_waitpid, up to its return or its sleep */
    method WaitPid(c: nat, k: int) returns (r: Outcome)
      requires Ok(T()) && Active(T(), c) && (k == -1 || k > 0)
      modifies `procs, `list, `reaps
      ensures T() == WaitStep(old(T()), c, k)
      ensures r == if NoSuchChild(old(T()), c, k) then NoChild else WaitOutcome(old(T()), c, k)
    {
      hide Ok, Scan, WaitOutcome;
      ghost var t := T();
      if procs[c].children == [] { return NoChild; }
      if k != -1 {
        var l, hasChildPid, j := procs[c].children, false, 0;
        while j < |l|
          invariant 0 <= j <= |l| && T() == t
          invariant hasChildPid <==> exists i :: 0 <= i < j && l[i] in procs && procs[l[i]].pid == k
        {
          KidListed(t, c, j);
          if procs[l[j]].pid == k { hasChildPid := true; }
          j := j + 1;
        }
        if !hasChildPid { return NoChild; }
      }
      r := ScanChildren(c, k);
    }

    /** do_waitpid, from a wake-up on */
    method Resume(c: nat) returns (r: Outcome)
      requires Ok(T()) && c in procs && procs[c].waiting.Woken?
      modifies `procs, `list, `reaps
      ensures T() == Scan(old(T()), c, old(procs[c].waiting.pid))
      ensures r == WaitOutcome(old(T()), c, old(procs[c].waiting.pid)) && r != NoChild
    {
      hide Ok, Scan;
      r := ScanChildren(c, procs[c].waiting.pid);
    }
  }
}
