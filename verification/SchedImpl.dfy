/** sched.c, kmutex.c and kthread.c as they run: thread records and queue lists
    changed in place. A list is kept in the order of its links; a thread is linked
    in at the head and taken from the tail. */
module SchedImpl {
  import opened Basics
  import opened Sched

  function Reversed(l: seq<nat>): (r: seq<nat>)
    ensures |r| == |l| && forall i :: 0 <= i < |l| ==> r[i] == l[|l| - 1 - i]
  {
    seq(|l|, i requires 0 <= i < |l| => l[|l| - 1 - i])
  }

  function Queues(lists: map<nat, seq<nat>>): map<nat, seq<nat>> {
    map q <- lists :: Reversed(lists[q])
  }

  lemma QueuesSet(lists: map<nat, seq<nat>>, q: nat, l: seq<nat>)
    ensures Queues(lists[q := l]) == Queues(lists)[q := Reversed(l)]
  {
  }

  /** Linking in at the head is appending to the queue. */
  lemma HeadIsBack(l: seq<nat>, t: nat)
    ensures Reversed([t] + l) == Reversed(l) + [t]
  {
  }

  /** The tail of the list is the front of the queue. */
  lemma TailIsFront(l: seq<nat>)
    requires l != []
    ensures Reversed(l) != [] && Reversed(l)[0] == l[|l| - 1] && Reversed(l[..|l| - 1]) == Without(Reversed(l), 0)
  {
  }

  lemma ReversedHas(l: seq<nat>, t: nat)
    ensures t in l <==> t in Reversed(l)
  {
    if t in l {
      var i :| 0 <= i < |l| && l[i] == t;
      assert Reversed(l)[|l| - 1 - i] == t;
    }
  }

  /** Unlinking from the middle of the list takes the same thread off the queue. */
  lemma UnlinkedFromQueue(l: seq<nat>, t: nat)
    requires t in l && t in Reversed(l) && NoDup(Reversed(l))
    ensures Reversed(Without(l, IndexOf(l, t))) == Without(Reversed(l), IndexOf(Reversed(l), t))
  {
    var i, k := IndexOf(l, t), IndexOf(Reversed(l), t);
    assert Reversed(l)[|l| - 1 - i] == t;
    assert k == |l| - 1 - i;
  }

  /** What sched_cancel asserts: the thread is linked on the queue it names. */
  predicate OnQueue(s: State, t: nat) {
    && t in s.threads && s.threads[t].wchan.Some?
    && (var q := s.threads[t].wchan.value; q in s.queues && q in s.sizes && t in s.queues[q] && NoDup(s.queues[q]))
    && RUNQ in s.queues && RUNQ in s.sizes
  }

  function Interrupt(s: State, t: nat): State
    requires OnQueue(s, t)
  {
    var q := s.threads[t].wchan.value;
    var s1 := SetThread(s, t, s.threads[t].(cancelled := true));
    if s.threads[t].state == AsleepCancellable then Ready(Unlink(s1, q, IndexOf(s.queues[q], t)), t) else s1
  }

  lemma SleeperOnQueue(s: State, t: nat)
    requires SchedOk(s) && t in s.threads && s.threads[t].state == AsleepCancellable
    ensures OnQueue(s, t)
    ensures var s1 := SetThread(s, t, s.threads[t].(cancelled := true));
            OnQueue(s1, t) && Interrupt(s1, t) == CancelOne(s, t)
  {
    SleeperPlace(s, t);
    SizeKnown(s, s.threads[t].wchan.value);
    SizeKnown(s, RUNQ);
    assert SetThread(s, t, s.threads[t].(cancelled := true)).threads[t].(cancelled := true) ==
      s.threads[t].(cancelled := true);
    var s1 := SetThread(s, t, s.threads[t].(cancelled := true));
    assert s1.threads[t := s1.threads[t].(cancelled := true)] == s1.threads;
  }

  lemma ExitForm(s: State)
    requires Ok(s) && s.cur.Some? && s.cur.value in s.threads
    ensures Next(s, Exit) == SetThread(s, s.cur.value, s.threads[s.cur.value].(state := Exited)).(cur := None)
  {
    hide Ok;
  }

  lemma CancelForm(s: State, t: nat)
    requires Ok(s) && SchedOk(s) && t in s.threads && s.cur != Some(t)
    ensures Next(s, Cancel(t)) == CancelOne(s, t)
    ensures s.threads[t].state != AsleepCancellable ==>
            CancelOne(s, t) == SetThread(s, t, s.threads[t].(cancelled := true))
  {
    hide Ok, SchedOk;
  }

  /** What interrupts do while the run queue is empty. */
  ghost function Idled(s: State, wakes: seq<nat>): (s': State)
    requires Ok(s)
    ensures Ok(s')
    decreases |wakes|
  {
    if wakes == [] || (RUNQ in s.queues && s.queues[RUNQ] != []) then s
    else Idled(Next(s, Wakeup(wakes[0])), wakes[1..])
  }

  lemma IdledStep(s: State, wakes: seq<nat>)
    requires Ok(s) && wakes != [] && RUNQ in s.queues && s.queues[RUNQ] == []
    ensures Idled(s, wakes) == Idled(Next(s, Wakeup(wakes[0])), wakes[1..])
  {
    hide Ok, Next;
  }

  lemma IdledEnd(s: State, wakes: seq<nat>)
    requires Ok(s) && RUNQ in s.queues && (s.queues[RUNQ] != [] || wakes == [])
    ensures Idled(s, wakes) == s
  {
    hide Ok, Next;
  }

  lemma PlainPlace(s: State, q: nat)
    requires Ok(s) && Plain(s, q)
    ensures SchedOk(s) && q in s.queues && q != RUNQ
  {
    hide SchedOk;
  }

  lemma Interrupted(s: State, q: nat)
    requires Ok(s) && Plain(s, q)
    ensures SchedOk(s) && q in s.queues && q != RUNQ
    ensures Next(s, Wakeup(q)) == if s.queues[q] == [] then s else WakeOne(s, q)
  {
    hide SchedOk, WakeOne;
  }

  lemma InterruptKeeps(s: State, q: nat, x: nat)
    requires Ok(s) && Plain(s, q) && Plain(s, x)
    ensures Plain(Next(s, Wakeup(q)), x)
  {
    hide Ok, SchedOk, WakeOne;
    Interrupted(s, q);
    if s.queues[q] != [] {
      WakeOneOk(s, q);
      WakeOneFrame(s, q);
    }
  }

  lemma NothingToDispatch(s: State)
    requires Ok(s) && RUNQ in s.queues && s.queues[RUNQ] == []
    ensures Next(s, Dispatch) == s && !Enabled(s, Dispatch)
  {
    hide Ok;
  }

  class Scheduler {
    var threads: map<nat, Thread>
    var lists: map<nat, seq<nat>>
    var sizes: map<nat, int>
    var curthr: Option<nat>
    var holder: map<nat, Option<nat>>
    /** Which threads sleep inside a lock call: where their stacks stand. */
    ghost var locking: map<nat, LockCall>

    ghost function S(): State
      reads this
    {
      State(threads, Queues(lists), sizes, curthr, holder, locking)
    }

    constructor ()
      ensures S() == Boot
    {
      threads, lists, sizes, curthr, holder, locking := map[], map[RUNQ := []], map[RUNQ := 0], None, map[], map[];
      new;
      assert Reversed([]) == [];
      assert Queues(lists) == map[RUNQ := []];
    }

    /** ktqueue_enqueue */
    method Enqueue(q: nat, t: nat)
      requires q in lists && q in sizes && t in threads && threads[t].wchan == None
      modifies `threads, `lists, `sizes
      ensures S() == Sched.Enqueue(old(S()), q, t, old(threads[t].state))
      ensures lists.Keys == old(lists.Keys)
    {
      HeadIsBack(lists[q], t);
      QueuesSet(lists, q, [t] + lists[q]);
      lists := lists[q := [t] + lists[q]];
      threads := threads[t := threads[t].(wchan := Some(q))];
      sizes := sizes[q := sizes[q] + 1];
    }

    /** ktqueue_dequeue */
    method Dequeue(q: nat) returns (r: Option<nat>)
      requires q in lists && q in sizes && forall t <- lists[q] :: t in threads
      modifies `threads, `lists, `sizes
      ensures S() == if old(S()).queues[q] == [] then old(S()) else Unlink(old(S()), q, 0)
      ensures r == if old(S()).queues[q] == [] then None else Some(old(S()).queues[q][0])
      ensures lists.Keys == old(lists.Keys)
    {
      var l := lists[q];
      if l == [] { return None; }
      TailIsFront(l);
      QueuesSet(lists, q, l[..|l| - 1]);
      var t := l[|l| - 1];
      lists := lists[q := l[..|l| - 1]];
      threads := threads[t := threads[t].(wchan := None)];
      sizes := sizes[q := sizes[q] - 1];
      r := Some(t);
    }

    /** ktqueue_remove */
    method Remove(q: nat, t: nat)
      requires q in lists && q in sizes && t in threads && t in lists[q] && t in S().queues[q] && NoDup(S().queues[q])
      modifies `threads, `lists, `sizes
      ensures S() == Unlink(old(S()), q, IndexOf(old(S()).queues[q], t))
      ensures lists.Keys == old(lists.Keys)
    {
      hide Without, NoDup, IndexOf;
      var l := Without(lists[q], IndexOf(lists[q], t));
      UnlinkedFromQueue(lists[q], t);
      QueuesSet(lists, q, l);
      lists := lists[q := l];
      threads := threads[t := threads[t].(wchan := None)];
      sizes := sizes[q := sizes[q] - 1];
    }

    /** sched_make_runnable */
    method MakeRunnable(t: nat)
      requires RUNQ in lists && RUNQ in sizes && t in threads && threads[t].wchan == None
      modifies `threads, `lists, `sizes
      ensures S() == Ready(old(S()), t)
      ensures lists.Keys == old(lists.Keys)
    {
      threads := threads[t := threads[t].(state := Runnable)];
      Enqueue(RUNQ, t);
    }

    /** sched_sleep_on, up to the switch */
    method SleepOn(q: nat)
      requires SchedOk(S()) && curthr.Some? && q in lists
      modifies `threads, `lists, `sizes, `curthr
      ensures S() == Block(old(S()), q, Asleep)
    {
      hide SchedOk;
      CurIsLoose(S());
      SizeKnown(S(), q);
      var t := curthr.value;
      threads := threads[t := threads[t].(state := Asleep)];
      Enqueue(q, t);
      curthr := None;
    }

    /** sched_cancellable_sleep_on, up to the switch; `interrupted` is the -EINTR of
        a thread that was cancelled before it slept */
    method CancellableSleepOn(q: nat) returns (interrupted: bool)
      requires SchedOk(S()) && curthr.Some? && q in lists
      modifies `threads, `lists, `sizes, `curthr
      ensures old(curthr.value in threads) && interrupted == old(threads[curthr.value].cancelled)
      ensures S() == if interrupted then old(S()) else Block(old(S()), q, AsleepCancellable)
    {
      hide SchedOk;
      CurIsLoose(S());
      SizeKnown(S(), q);
      var t := curthr.value;
      if threads[t].cancelled { return true; }
      threads := threads[t := threads[t].(state := AsleepCancellable)];
      Enqueue(q, t);
      curthr := None;
      interrupted := false;
    }

    /** sched_wakeup_on */
    method WakeupOn(q: nat) returns (r: Option<nat>)
      requires SchedOk(S()) && q in lists && q != RUNQ
      modifies `threads, `lists, `sizes
      ensures SchedOk(S()) && q in lists && lists.Keys == old(lists.Keys)
      ensures S() == if old(S()).queues[q] == [] then old(S()) else WakeOne(old(S()), q)
      ensures r == if old(S()).queues[q] == [] then None else Some(old(S()).queues[q][0])
    {
      hide SchedOk;
      if lists[q] == [] { return None; }
      ghost var s := S();
      assert s.queues[q] != [];
      WakeOneOk(s, q);
      UnlinkOk(s, q, 0);
      ListedThreads(s, lists, q);
      SizeKnown(s, RUNQ);
      r := Dequeue(q);
      MakeRunnable(r.value);
    }

    /** sched_broadcast_on */
    method BroadcastOn(q: nat)
      requires SchedOk(S()) && q in lists && q != RUNQ
      modifies `threads, `lists, `sizes
      ensures S() == WakeAll(old(S()), q)
    {
      while lists[q] != []
        invariant SchedOk(S()) && q in lists
        invariant WakeAll(S(), q) == WakeAll(old(S()), q)
        invariant curthr == old(curthr) && holder == old(holder) && locking == old(locking)
        decreases |lists[q]|
      {
        ghost var s := S();
        assert s.queues[q] != [];
        WakeOneOk(s, q);
        var _ := WakeupOn(q);
        assert |S().queues[q]| == |s.queues[q]| - 1;
      }
      assert S().queues[q] == [];
    }

    /** sched_cancel */
    method CancelSleep(t: nat)
      requires OnQueue(S(), t)
      modifies `threads, `lists, `sizes
      ensures S() == Interrupt(old(S()), t)
    {
      var q := threads[t].wchan.value;
      ReversedHas(lists[q], t);
      threads := threads[t := threads[t].(cancelled := true)];
      if threads[t].state == AsleepCancellable {
        Remove(q, t);
        MakeRunnable(t);
      }
    }

    /** kthread_exit, and proc_thread_exited's switch away */
    method ThreadExit()
      requires Ok(S()) && curthr.Some?
      modifies `threads, `curthr
      ensures S() == Next(old(S()), Exit)
    {
      hide Ok, SchedOk, Next;
      OkSched(S());
      ExitForm(S());
      CurIsLoose(S());
      var t := curthr.value;
      threads := threads[t := threads[t].(state := Exited)];
      curthr := None;
    }

    /** kthread_cancel */
    method ThreadCancel(t: nat)
      requires Ok(S()) && t in threads
      modifies `threads, `lists, `sizes, `curthr
      ensures S() == Next(old(S()), if old(curthr) == Some(t) then Exit else Cancel(t))
    {
      hide Ok, SchedOk, Next, Interrupt, OnQueue;
      if curthr == Some(t) {
        ThreadExit();
      } else {
        ghost var s := S();
        OkSched(s);
        CancelForm(s, t);
        threads := threads[t := threads[t].(cancelled := true)];
        if threads[t].state == AsleepCancellable {
          SleeperOnQueue(s, t);
          CancelSleep(t);
        }
      }
    }

    /** sched_switch after the old thread has left. While the run queue is empty the
        processor waits for interrupts, which wake sleepers on the queues `wakes` in
        turn; `ok` is false if it is still waiting after the last of them. */
    method Switch(wakes: seq<nat>) returns (ok: bool)
      requires Ok(S()) && curthr.None? && RUNQ in lists && forall q <- wakes :: Plain(S(), q)
      modifies `threads, `lists, `sizes, `curthr, `locking
      ensures S() == Next(Idled(old(S()), wakes), Dispatch)
      ensures ok <==> Enabled(Idled(old(S()), wakes), Dispatch)
    {
      hide Ok, SchedOk, Next, Idled, Plain;
      ghost var s0 := S();
      var i := 0;
      assert wakes[0..] == wakes;
      while lists[RUNQ] == [] && i < |wakes|
        invariant 0 <= i <= |wakes| && Ok(S()) && curthr.None? && RUNQ in lists && holder == old(holder)
        invariant Idled(S(), wakes[i..]) == Idled(s0, wakes) && forall q <- wakes :: Plain(S(), q)
      {
        ghost var s := S();
        assert s.queues[RUNQ] == [];
        IdledStep(s, wakes[i..]);
        Interrupted(s, wakes[i]);
        forall q <- wakes ensures Plain(Next(s, Wakeup(wakes[i])), q) { InterruptKeeps(s, wakes[i], q); }
        PlainPlace(s, wakes[i]);
        var _ := WakeupOn(wakes[i]);
        assert S() == Next(s, Wakeup(wakes[i]));
        assert wakes[i..][1..] == wakes[i + 1..];
        i := i + 1;
      }
      IdledEnd(S(), wakes[i..]);
      ok := lists[RUNQ] != [];
      ghost var s := S();
      assert s.queues[RUNQ] == [] <==> lists[RUNQ] == [];
      if ok { Pick(); } else { NothingToDispatch(s); }
    }

    /** The next thread becomes current, and returns from the lock call it slept in. */
    method Pick()
      requires Ok(S()) && curthr.None? && RUNQ in lists && lists[RUNQ] != []
      modifies `threads, `lists, `sizes, `curthr, `locking
      ensures S() == Next(old(S()), Dispatch)
    {
      hide Ok, SchedOk, Next;
      ghost var s := S();
      assert s.queues[RUNQ] != [];
      OkSched(s);
      SizeKnown(s, RUNQ);
      UnlinkOk(s, RUNQ, 0);
      DispatchForm(s, s.queues[RUNQ][0]);
      ListedThreads(s, lists, RUNQ);
      var t := Dequeue(RUNQ);
      curthr := t;
      locking := locking - {t.value};
    }

    /** kmutex_lock, up to the switch */
    method Lock(m: nat)
      requires Ok(S()) && Enabled(S(), Sched.Lock(m))
      modifies `threads, `lists, `sizes, `curthr, `holder, `locking
      ensures S() == Next(old(S()), Sched.Lock(m))
    {
      hide Ok, SchedOk;
      OkSched(S());
      OkMutex(S(), m);
      if holder[m].None? {
        holder := holder[m := curthr];
      } else {
        var t := curthr.value;
        SleepOn(m);
        locking := locking[t := LockCall(m, false)];
      }
    }

    /** kmutex_lock_cancellable, up to the switch */
    method LockCancellable(m: nat) returns (interrupted: bool)
      requires Ok(S()) && Enabled(S(), Sched.LockCancellable(m))
      modifies `threads, `lists, `sizes, `curthr, `holder, `locking
      ensures S() == Next(old(S()), Sched.LockCancellable(m))
      ensures interrupted ==> S() == old(S()) && curthr != holder[m]
      ensures !interrupted && curthr.Some? ==> holder[m] == curthr
    {
      hide Ok, SchedOk;
      OkSched(S());
      OkMutex(S(), m);
      if holder[m].None? {
        holder := holder[m := curthr];
        interrupted := false;
      } else {
        var t := curthr.value;
        interrupted := CancellableSleepOn(m);
        if !interrupted { locking := locking[t := LockCall(m, true)]; }
      }
    }

    /** kmutex_unlock */
    method Unlock(m: nat)
      requires Ok(S()) && Enabled(S(), Sched.Unlock(m))
      modifies `threads, `lists, `sizes, `holder
      ensures S() == Next(old(S()), Sched.Unlock(m))
      ensures holder[m] != curthr
    {
      hide Ok, SchedOk;
      OkSched(S());
      OkMutex(S(), m);
      CurIsLoose(S());
      if lists[m] == [] {
        holder := holder[m := None];
      } else {
        assert S().queues[m] != [];
        var t := WakeupOn(m);
        holder := holder[m := t];
      }
    }
  }

  lemma CurIsLoose(s: State)
    requires SchedOk(s) && s.cur.Some?
    ensures s.cur.value in s.threads && s.threads[s.cur.value].wchan == None
  {
    assert ThreadOk(s, s.cur.value);
  }

  lemma SizeKnown(s: State, q: nat)
    requires SchedOk(s) && q in s.queues
    ensures q in s.sizes && NoDup(s.queues[q]) && RUNQ in s.queues
  {
    assert QueueOk(s, q);
  }

  lemma ListedThreads(s: State, lists: map<nat, seq<nat>>, q: nat)
    requires SchedOk(s) && q in lists && s.queues == Queues(lists)
    ensures forall t <- lists[q] :: t in s.threads
  {
    assert QueueOk(s, q);
    forall t <- lists[q] ensures t in s.threads { ReversedHas(lists[q], t); }
  }
}
