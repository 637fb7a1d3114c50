/** The non-preemptive scheduler and its mutexes. One step is the stretch of code
    between two calls of sched_switch; a thread that blocks leaves the processor
    free, and a dispatch step picks the next thread. */
module Sched {
  import opened Basics

  datatype TState = NoState | Runnable | Asleep | AsleepCancellable | Exited

  datatype Thread = Thread(state: TState, wchan: Option<nat>, cancelled: bool)

  /** A thread asleep in kmutex_lock or kmutex_lock_cancellable. */
  datatype LockCall = LockCall(mutex: nat, cancellable: bool)

  /** Queue number of the run queue. */
  const RUNQ: nat := 0

  /** Queues are listed from the next thread to be dequeued to the latest
      enqueued. `holder` is km_holder of the mutex whose wait queue has that
      number; `locking` are the threads inside a lock call that had to sleep. */
  datatype State = State(
    threads: map<nat, Thread>,
    queues: map<nat, seq<nat>>,
    sizes: map<nat, int>,
    cur: Option<nat>,
    holder: map<nat, Option<nat>>,
    locking: map<nat, LockCall>)

  // ---------------------------------------------------------------------
  // Queue operations
  // ---------------------------------------------------------------------

  function SetThread(s: State, t: nat, x: Thread): State {
    s.(threads := s.threads[t := x])
  }

  function Enqueue(s: State, q: nat, t: nat, st: TState): State
    requires q in s.queues && q in s.sizes && t in s.threads
  {
    s.(queues := s.queues[q := s.queues[q] + [t]], sizes := s.sizes[q := s.sizes[q] + 1],
       threads := s.threads[t := s.threads[t].(wchan := Some(q), state := st)])
  }

  /** Taking the thread at position `k` off queue `q`. */
  function Unlink(s: State, q: nat, k: nat): State
    requires q in s.queues && q in s.sizes && k < |s.queues[q]| && s.queues[q][k] in s.threads
  {
    var t := s.queues[q][k];
    s.(queues := s.queues[q := Without(s.queues[q], k)], sizes := s.sizes[q := s.sizes[q] - 1],
       threads := s.threads[t := s.threads[t].(wchan := None)])
  }

  // ---------------------------------------------------------------------
  // The invariant
  // ---------------------------------------------------------------------

  /** The state a thread has on queue `q`. */
  predicate Fits(x: Thread, q: nat) {
    if q == RUNQ then x.state == Runnable
    else x.state == Asleep || (x.state == AsleepCancellable && !x.cancelled)
  }

  /** Queue `q` holds each thread once, and each says so. */
  predicate QueueOk(s: State, q: nat)
    requires q in s.queues
  {
    && q in s.sizes && s.sizes[q] == |s.queues[q]|
    && NoDup(s.queues[q])
    && forall t <- s.queues[q] :: t in s.threads && s.threads[t].wchan == Some(q) && Fits(s.threads[t], q)
  }

  /** A thread is on the queue it names, or current, or not started, or gone. */
  predicate ThreadOk(s: State, t: nat)
    requires t in s.threads
  {
    match s.threads[t].wchan
    case Some(q) => q in s.queues && t in s.queues[q] && s.cur != Some(t)
    case None => if s.cur == Some(t) then s.threads[t].state == Runnable
                 else s.threads[t].state == NoState || s.threads[t].state == Exited
  }

  predicate SchedOk(s: State) {
    && RUNQ in s.queues
    && (forall q <- s.queues :: QueueOk(s, q))
    && (forall t <- s.threads :: ThreadOk(s, t))
    && (s.cur.Some? ==> s.cur.value in s.threads)
  }

  /** No started live thread is lost or duplicated: it runs, or sits exactly once
      on exactly one queue. */
  lemma NoThreadLostOrDoubled(s: State, t: nat)
    requires SchedOk(s) && t in s.threads && s.threads[t].state != NoState && s.threads[t].state != Exited
    ensures s.cur == Some(t) <==> forall q <- s.queues :: t !in s.queues[q]
    ensures forall q, q' :: q in s.queues && q' in s.queues && t in s.queues[q] && t in s.queues[q'] ==> q == q'
    ensures forall q <- s.queues :: q in s.sizes && NoDup(s.queues[q]) && s.sizes[q] == |s.queues[q]|
  {
    assert ThreadOk(s, t);
    forall q <- s.queues ensures q in s.sizes && NoDup(s.queues[q]) && s.sizes[q] == |s.queues[q]|
      && (t in s.queues[q] ==> s.threads[t].wchan == Some(q)) {
      assert QueueOk(s, q);
    }
  }

  // ---------------------------------------------------------------------
  // Queue operations keep it
  // ---------------------------------------------------------------------

  /** Off every queue: about to be put on one. */
  predicate Loose(s: State, t: nat) {
    t in s.threads && s.threads[t].wchan == None
  }

  /** `SchedOk` but for the loose thread `t`. */
  predicate SchedOkBut(s: State, t: nat) {
    && RUNQ in s.queues
    && (forall q <- s.queues :: QueueOk(s, q))
    && (forall x <- s.threads :: x != t ==> ThreadOk(s, x))
    && (s.cur.Some? ==> s.cur.value in s.threads)
    && Loose(s, t) && s.cur != Some(t)
  }

  lemma EnqueueOk(s: State, q: nat, t: nat, st: TState)
    requires SchedOkBut(s, t) && q in s.queues && Fits(s.threads[t].(state := st), q)
    ensures q in s.sizes && SchedOk(Enqueue(s, q, t, st))
  {
    assert QueueOk(s, q);
    var s' := Enqueue(s, q, t, st);
    forall x <- s'.queues ensures QueueOk(s', x) {
      assert QueueOk(s, x);
      assert t !in s.queues[x];
    }
    forall x <- s'.threads ensures ThreadOk(s', x) {
      if x != t { assert ThreadOk(s, x); }
    }
  }

  lemma UnlinkOk(s: State, q: nat, k: nat)
    requires SchedOk(s) && q in s.queues && k < |s.queues[q]|
    ensures q in s.sizes && s.queues[q][k] in s.threads && SchedOkBut(Unlink(s, q, k), s.queues[q][k])
  {
    assert QueueOk(s, q);
    var t := s.queues[q][k];
    assert t in s.queues[q];
    assert ThreadOk(s, t);
    var s' := Unlink(s, q, k);
    var l, l' := s.queues[q], s'.queues[q];
    assert forall i :: 0 <= i < |l'| ==> l'[i] == if i < k then l[i] else l[i + 1];
    forall x <- s'.queues ensures QueueOk(s', x) {
      assert QueueOk(s, x);
      if x != q { assert t !in s.queues[x]; }
    }
    forall x <- s'.threads | x != t ensures ThreadOk(s', x) {
      assert ThreadOk(s, x);
      if x in l { var i :| 0 <= i < |l| && l[i] == x; assert l'[if i < k then i else i - 1] == x; }
    }
  }

  // ---------------------------------------------------------------------
  // Mutexes
  // ---------------------------------------------------------------------

  /** A free mutex has no waiters; the holder does not wait for it; everyone
      waiting is inside a lock call, asleep the way that call sleeps. */
  predicate MutexOk(s: State, m: nat)
    requires m in s.holder
  {
    && m != RUNQ && m in s.queues
    && (s.holder[m].None? ==> s.queues[m] == [])
    && (s.holder[m].Some? ==> s.holder[m].value in s.threads && s.holder[m].value !in s.queues[m])
    && forall t <- s.queues[m] ::
         && t in s.locking && s.locking[t].mutex == m && t in s.threads
         && s.threads[t].state == if s.locking[t].cancellable then AsleepCancellable else Asleep
  }

  /** A thread inside a lock call waits for the mutex, or is on its way back: with
      the mutex, or without it because a cancellable wait was cancelled. */
  predicate CallOk(s: State, t: nat)
    requires t in s.locking
  {
    var c := s.locking[t];
    && c.mutex in s.holder && c.mutex in s.queues && t in s.threads && RUNQ in s.queues
    && (t in s.queues[c.mutex] ||
        (t in s.queues[RUNQ] && (s.holder[c.mutex] == Some(t) || (c.cancellable && s.threads[t].cancelled))))
  }

  predicate Ok(s: State) {
    SchedOk(s) && (forall m <- s.holder :: MutexOk(s, m)) && (forall t <- s.locking :: CallOk(s, t))
  }

  // ---------------------------------------------------------------------
  // Steps
  // ---------------------------------------------------------------------

  datatype Op =
    | Create(t: nat, cancelled: bool)
    | NewQueue(q: nat)
    | NewMutex(q: nat)
    | Start(t: nat)
    | Yield
    | Sleep(q: nat)
    | SleepCancellable(q: nat)
    | Wakeup(q: nat)
    | Broadcast(q: nat)
    | Cancel(t: nat)
    | Exit
    | Dispatch
    | Lock(m: nat)
    | LockCancellable(m: nat)
    | Unlock(m: nat)

  /** A plain wait queue: neither the run queue nor a mutex's. */
  predicate Plain(s: State, q: nat) {
    q in s.queues && q != RUNQ && q !in s.holder
  }

  predicate Enabled(s: State, op: Op) {
    match op
    case Create(t, _) => t !in s.threads
    case NewQueue(q) => q !in s.queues && q !in s.holder
    case NewMutex(q) => q !in s.queues && q !in s.holder
    case Start(t) => t in s.threads && s.threads[t].state == NoState
    case Yield => s.cur.Some?
    case Sleep(q) => s.cur.Some? && Plain(s, q)
    case SleepCancellable(q) => s.cur.Some? && Plain(s, q)
    case Wakeup(q) => Plain(s, q)
    case Broadcast(q) => Plain(s, q)
    case Cancel(t) => t in s.threads && s.cur != Some(t)
    case Exit => s.cur.Some?
    case Dispatch => s.cur.None? && RUNQ in s.queues && s.queues[RUNQ] != []
    case Lock(m) => s.cur.Some? && m in s.holder && s.holder[m] != s.cur
    case LockCancellable(m) => s.cur.Some? && m in s.holder && s.holder[m] != s.cur
    case Unlock(m) => s.cur.Some? && m in s.holder && s.holder[m] == s.cur
  }

  /** sched_make_runnable */
  function Ready(s: State, t: nat): State
    requires RUNQ in s.queues && RUNQ in s.sizes && t in s.threads
  {
    Enqueue(s, RUNQ, t, Runnable)
  }

  /** sched_wakeup_on of a non-empty queue */
  function WakeOne(s: State, q: nat): State
    requires SchedOk(s) && q in s.queues && s.queues[q] != [] && q != RUNQ
  {
    UnlinkOk(s, q, 0);
    var s1 := Unlink(s, q, 0);
    assert QueueOk(s1, RUNQ);
    Ready(s1, s.queues[q][0])
  }

  /** sched_broadcast_on */
  function WakeAll(s: State, q: nat): State
    requires SchedOk(s) && q in s.queues && q != RUNQ
    decreases |s.queues[q]|
  {
    if s.queues[q] == [] then s
    else
      WakeOneOk(s, q);
      WakeAll(WakeOne(s, q), q)
  }

  lemma WakeOneOk(s: State, q: nat)
    requires SchedOk(s) && q in s.queues && s.queues[q] != [] && q != RUNQ
    ensures SchedOk(WakeOne(s, q))
    ensures WakeOne(s, q).queues == s.queues[q := s.queues[q][1..]][RUNQ := s.queues[RUNQ] + [s.queues[q][0]]]
  {
    UnlinkOk(s, q, 0);
    EnqueueOk(Unlink(s, q, 0), RUNQ, s.queues[q][0], Runnable);
    assert Without(s.queues[q], 0) == s.queues[q][1..];
  }

  /** sched_cancel, through kthread_cancel of a thread that is not running */
  function CancelOne(s: State, t: nat): State
    requires SchedOk(s) && t in s.threads
  {
    assert ThreadOk(s, t);
    var s1 := SetThread(s, t, s.threads[t].(cancelled := true));
    if s.threads[t].state == AsleepCancellable then
      var q := s.threads[t].wchan.value;
      assert QueueOk(s, q);
      assert QueueOk(s, RUNQ);
      Ready(Unlink(s1, q, IndexOf(s.queues[q], t)), t)
    else s1
  }

  /** The current thread goes to sleep on `q` and leaves the processor. */
  function Block(s: State, q: nat, st: TState): State
    requires SchedOk(s) && s.cur.Some? && q in s.queues
  {
    assert QueueOk(s, q);
    Enqueue(s, q, s.cur.value, st).(cur := None)
  }

  function LockStep(s: State, m: nat, cancellable: bool): State
    requires Ok(s) && s.cur.Some? && m in s.holder
  {
    assert MutexOk(s, m);
    if s.holder[m].None? then s.(holder := s.holder[m := s.cur])
    else if cancellable && s.threads[s.cur.value].cancelled then s
    else
      Block(s, m, if cancellable then AsleepCancellable else Asleep)
        .(locking := s.locking[s.cur.value := LockCall(m, cancellable)])
  }

  function UnlockStep(s: State, m: nat): State
    requires Ok(s) && m in s.holder
  {
    assert MutexOk(s, m);
    if s.queues[m] == [] then s.(holder := s.holder[m := None])
    else WakeOne(s, m).(holder := s.holder[m := Some(s.queues[m][0])])
  }

  /** sched_switch's second half: the head of the run queue becomes current, and a
      thread that slept in a lock call returns from it. */
  function DispatchStep(s: State): State
    requires SchedOk(s) && s.queues[RUNQ] != []
  {
    UnlinkOk(s, RUNQ, 0);
    var t := s.queues[RUNQ][0];
    Unlink(s, RUNQ, 0).(cur := Some(t), locking := s.locking - {t})
  }

  function Step(s: State, op: Op): State
    requires Ok(s) && Enabled(s, op)
  {
    match op
    case Create(t, c) => SetThread(s, t, Thread(NoState, None, c))
    case NewQueue(q) => s.(queues := s.queues[q := []], sizes := s.sizes[q := 0])
    case NewMutex(q) => s.(queues := s.queues[q := []], sizes := s.sizes[q := 0], holder := s.holder[q := None])
    case Start(t) => assert QueueOk(s, RUNQ); Ready(s, t)
    case Yield => Block(s, RUNQ, Runnable)
    case Sleep(q) => Block(s, q, Asleep)
    case SleepCancellable(q) => if s.threads[s.cur.value].cancelled then s else Block(s, q, AsleepCancellable)
    case Wakeup(q) => if s.queues[q] == [] then s else WakeOne(s, q)
    case Broadcast(q) => WakeAll(s, q)
    case Cancel(t) => CancelOne(s, t)
    case Exit => SetThread(s, s.cur.value, s.threads[s.cur.value].(state := Exited)).(cur := None)
    case Dispatch => DispatchStep(s)
    case Lock(m) => LockStep(s, m, false)
    case LockCancellable(m) => LockStep(s, m, true)
    case Unlock(m) => UnlockStep(s, m)
  }

  // ---------------------------------------------------------------------
  // Every step keeps the scheduler part
  // ---------------------------------------------------------------------

  lemma BlockOk(s: State, q: nat, st: TState)
    requires SchedOk(s) && s.cur.Some? && q in s.queues && Fits(s.threads[s.cur.value].(state := st), q)
    ensures SchedOk(Block(s, q, st))
  {
    var t := s.cur.value;
    assert ThreadOk(s, t) && QueueOk(s, q);
    var s1 := s.(cur := None);
    forall x <- s1.queues ensures QueueOk(s1, x) { assert QueueOk(s, x); }
    forall x <- s1.threads | x != t ensures ThreadOk(s1, x) { assert ThreadOk(s, x); }
    EnqueueOk(s1, q, t, st);
  }

  lemma StartOk(s: State, t: nat)
    requires SchedOk(s) && t in s.threads && s.threads[t].state == NoState
    ensures RUNQ in s.sizes && SchedOk(Ready(s, t))
  {
    assert ThreadOk(s, t);
    forall q <- s.queues ensures t !in s.queues[q] { assert QueueOk(s, q); }
    EnqueueOk(s, RUNQ, t, Runnable);
  }

  lemma SetCancelledOk(s: State, t: nat)
    requires SchedOk(s) && t in s.threads && s.threads[t].state != AsleepCancellable
    ensures SchedOk(SetThread(s, t, s.threads[t].(cancelled := true)))
  {
    var s' := SetThread(s, t, s.threads[t].(cancelled := true));
    forall q <- s'.queues ensures QueueOk(s', q) { assert QueueOk(s, q); }
    forall x <- s'.threads ensures ThreadOk(s', x) { assert ThreadOk(s, x); }
  }

  /** The cancelled flag of a loose thread does not matter. */
  lemma LooseCancelled(s: State, t: nat)
    requires SchedOkBut(s, t)
    ensures SchedOkBut(SetThread(s, t, s.threads[t].(cancelled := true)), t)
  {
    var s' := SetThread(s, t, s.threads[t].(cancelled := true));
    forall q <- s'.queues ensures QueueOk(s', q) { assert QueueOk(s, q); }
    forall x <- s'.threads | x != t ensures ThreadOk(s', x) { assert ThreadOk(s, x); }
  }

  /** Where a cancellable sleeper is. */
  lemma SleeperPlace(s: State, t: nat)
    requires SchedOk(s) && t in s.threads && s.threads[t].state == AsleepCancellable
    ensures s.threads[t].wchan.Some?
    ensures var q := s.threads[t].wchan.value; q != RUNQ && q in s.queues && t in s.queues[q] && q in s.sizes
    ensures RUNQ in s.queues && RUNQ in s.sizes
  {
    assert ThreadOk(s, t);
    assert QueueOk(s, s.threads[t].wchan.value) && QueueOk(s, RUNQ);
  }

  /** Cancelling a cancellable sleeper puts it at the end of the run queue. */
  lemma CancelSleeperForm(s: State, t: nat)
    requires SchedOk(s) && t in s.threads && s.threads[t].state == AsleepCancellable
    requires s.threads[t].wchan.Some?
    requires var q := s.threads[t].wchan.value; q != RUNQ && q in s.queues && t in s.queues[q] && q in s.sizes
    requires RUNQ in s.queues && RUNQ in s.sizes
    ensures var s' := CancelOne(s, t); var q := s.threads[t].wchan.value; var k := IndexOf(s.queues[q], t);
            && s'.queues == s.queues[q := Without(s.queues[q], k)][RUNQ := s.queues[RUNQ] + [t]]
            && s'.threads == s.threads[t := Thread(Runnable, Some(RUNQ), true)]
            && s'.holder == s.holder && s'.locking == s.locking && s'.cur == s.cur
            && s'.sizes == s.sizes[q := s.sizes[q] - 1][RUNQ := s.sizes[RUNQ] + 1]
  {
    hide SchedOk;
    assert CancelOne(s, t).threads == s.threads[t := Thread(Runnable, Some(RUNQ), true)];
  }

  lemma CancelSleeperOk(s: State, t: nat)
    requires SchedOk(s) && t in s.threads && s.threads[t].state == AsleepCancellable
    ensures SchedOk(CancelOne(s, t))
  {
    hide SchedOk, SchedOkBut, CancelOne, Without;
    SleeperPlace(s, t);
    CancelSleeperForm(s, t);
    var q := s.threads[t].wchan.value;
    var k := IndexOf(s.queues[q], t);
    UnlinkOk(s, q, k);
    var s1 := Unlink(s, q, k);
    LooseCancelled(s1, t);
    var s2 := SetThread(s1, t, s1.threads[t].(cancelled := true));
    EnqueueOk(s2, RUNQ, t, Runnable);
    assert Enqueue(s2, RUNQ, t, Runnable).threads == s.threads[t := Thread(Runnable, Some(RUNQ), true)];
  }

  lemma AppendOneMore(qs: map<nat, seq<nat>>, q: nat)
    requires q in qs && RUNQ in qs && q != RUNQ && qs[q] != []
    ensures var qs1 := qs[q := qs[q][1..]][RUNQ := qs[RUNQ] + [qs[q][0]]];
            qs1[q := []][RUNQ := qs1[RUNQ] + qs1[q]] == qs[q := []][RUNQ := qs[RUNQ] + qs[q]]
  {
    assert qs[RUNQ] + [qs[q][0]] + qs[q][1..] == qs[RUNQ] + qs[q];
  }

  /** A broadcast appends the whole queue to the run queue, in order. */
  lemma {:induction false} WakeAllOk(s: State, q: nat)
    requires SchedOk(s) && q in s.queues && q != RUNQ && RUNQ in s.queues
    ensures SchedOk(WakeAll(s, q))
    ensures WakeAll(s, q).queues == s.queues[q := []][RUNQ := s.queues[RUNQ] + s.queues[q]]
    decreases |s.queues[q]|
  {
    hide SchedOk, WakeOne;
    if s.queues[q] == [] {
      WakeNone(s, q);
    } else {
      WakeOneOk(s, q);
      WakeAllOk(WakeOne(s, q), q);
      AppendOneMore(s.queues, q);
    }
  }

  lemma {:induction false} WakeAllFrame(s: State, q: nat)
    requires SchedOk(s) && q in s.queues && q != RUNQ
    ensures WakeAll(s, q).holder == s.holder && WakeAll(s, q).locking == s.locking && WakeAll(s, q).cur == s.cur
    ensures WakeAll(s, q).threads.Keys == s.threads.Keys
    ensures forall t <- s.threads :: t !in s.queues[q] ==> WakeAll(s, q).threads[t] == s.threads[t]
    ensures forall t <- s.threads :: WakeAll(s, q).threads[t].cancelled == s.threads[t].cancelled
    decreases |s.queues[q]|
  {
    hide SchedOk, WakeOne;
    if s.queues[q] != [] {
      WakeOneOk(s, q);
      WakeOneFrame(s, q);
      WakeAllFrame(WakeOne(s, q), q);
    }
  }

  lemma WakeNone(s: State, q: nat)
    requires SchedOk(s) && q in s.queues && s.queues[q] == [] && q != RUNQ
    ensures s.queues[q := []][RUNQ := s.queues[RUNQ] + s.queues[q]] == s.queues
  {
    assert s.queues[RUNQ] + [] == s.queues[RUNQ];
  }

  lemma WakeOneFrame(s: State, q: nat)
    requires SchedOk(s) && q in s.queues && s.queues[q] != [] && q != RUNQ
    ensures var s' := WakeOne(s, q); var t := s.queues[q][0];
            && t in s.threads && RUNQ in s.queues
            && s'.threads == s.threads[t := s.threads[t].(wchan := Some(RUNQ), state := Runnable)]
            && s'.holder == s.holder && s'.locking == s.locking && s'.cur == s.cur
  {
    UnlinkOk(s, q, 0);
    assert WakeOne(s, q).threads ==
      s.threads[s.queues[q][0] := s.threads[s.queues[q][0]].(wchan := Some(RUNQ), state := Runnable)];
  }

  lemma DispatchOk(s: State)
    requires SchedOk(s) && s.queues[RUNQ] != [] && s.cur.None?
    ensures SchedOk(DispatchStep(s))
  {
    UnlinkOk(s, RUNQ, 0);
    var t := s.queues[RUNQ][0];
    assert QueueOk(s, RUNQ);
    var s1 := Unlink(s, RUNQ, 0);
    var s' := DispatchStep(s);
    forall q <- s'.queues ensures QueueOk(s', q) { assert QueueOk(s1, q); }
    forall x <- s'.threads ensures ThreadOk(s', x) {
      if x != t { assert ThreadOk(s1, x); }
    }
  }

  // ---------------------------------------------------------------------
  // ... and the mutex part
  // ---------------------------------------------------------------------

  /** Threads inside lock calls, mutexes and their queues are left alone; the run
      queue only grows at its end. */
  predicate Aside(s: State, s': State) {
    && s'.holder == s.holder && s'.locking == s.locking && s.threads.Keys <= s'.threads.Keys
    && RUNQ in s.queues && RUNQ in s'.queues && s.queues[RUNQ] <= s'.queues[RUNQ]
    && (forall m <- s.holder :: m in s.queues && m in s'.queues && s'.queues[m] == s.queues[m])
    && (forall t <- s.locking :: t in s.threads && s'.threads[t].state == s.threads[t].state
                                 && (s.threads[t].cancelled ==> s'.threads[t].cancelled))
  }

  lemma AsideOk(s: State, s': State)
    requires Ok(s) && SchedOk(s') && Aside(s, s')
    ensures Ok(s')
  {
    hide SchedOk;
    forall m <- s'.holder ensures MutexOk(s', m) { assert MutexOk(s, m); }
    forall t <- s'.locking ensures CallOk(s', t) { assert CallOk(s, t); }
  }

  /** A thread inside a lock call is on that mutex's queue or the run queue, so
      nowhere else. */
  lemma LockerPlace(s: State, t: nat)
    requires Ok(s) && t in s.locking
    ensures t in s.threads && s.cur != Some(t) && s.threads[t].state != NoState
    ensures forall q <- s.queues :: t in s.queues[q] ==> q == RUNQ || q == s.locking[t].mutex
    ensures s.locking[t].mutex in s.holder
  {
    assert CallOk(s, t);
    assert ThreadOk(s, t);
    forall q <- s.queues | t in s.queues[q]
      ensures s.threads[t].wchan == Some(q) && s.threads[t].state != NoState { assert QueueOk(s, q); }
    assert QueueOk(s, RUNQ) && QueueOk(s, s.locking[t].mutex);
  }

  lemma HolderQueues(s: State)
    requires Ok(s)
    ensures forall m <- s.holder :: m in s.queues && m != RUNQ
  {
    forall m <- s.holder ensures m in s.queues && m != RUNQ { assert MutexOk(s, m); }
  }

  lemma LockersOff(s: State, q: nat)
    requires Ok(s) && Plain(s, q)
    ensures forall t <- s.locking :: t in s.threads && t !in s.queues[q]
  {
    forall t <- s.locking ensures t in s.threads && t !in s.queues[q] { LockerPlace(s, t); }
  }

  lemma LockersOffCpu(s: State)
    requires Ok(s)
    ensures forall t <- s.locking :: t in s.threads && s.cur != Some(t) && s.threads[t].state != NoState
  {
    forall t <- s.locking ensures t in s.threads && s.cur != Some(t)
      && s.threads[t].state != NoState { LockerPlace(s, t); }
  }

  lemma OkSched(s: State)
    requires Ok(s)
    ensures SchedOk(s) && RUNQ in s.queues && (s.cur.Some? ==> s.cur.value in s.threads)
  {
  }

  lemma OkIs(s: State)
    requires SchedOk(s) && (forall m <- s.holder :: MutexOk(s, m)) && forall t <- s.locking :: CallOk(s, t)
    ensures Ok(s)
  {
  }

  lemma BlockAside(s: State, q: nat, st: TState)
    requires Ok(s) && s.cur.Some? && s.cur.value in s.threads
    requires (Plain(s, q) || q == RUNQ) && Fits(s.threads[s.cur.value].(state := st), q)
    ensures SchedOk(s) && q in s.queues && Ok(Block(s, q, st))
  {
    hide Ok, SchedOk;
    OkSched(s);
    HolderQueues(s);
    LockersOffCpu(s);
    BlockOk(s, q, st);
    AsideOk(s, Block(s, q, st));
  }

  lemma WakeAside(s: State, q: nat)
    requires Ok(s) && Plain(s, q)
    ensures SchedOk(s) && Ok(WakeAll(s, q))
  {
    hide Ok, SchedOk, WakeAll;
    OkSched(s);
    HolderQueues(s);
    LockersOff(s, q);
    WakeAllOk(s, q);
    WakeAllFrame(s, q);
    AsideOk(s, WakeAll(s, q));
  }

  lemma WakeOneAside(s: State, q: nat)
    requires Ok(s) && Plain(s, q) && s.queues[q] != []
    ensures SchedOk(s) && Ok(WakeOne(s, q))
  {
    hide Ok, SchedOk, WakeOne;
    OkSched(s);
    HolderQueues(s);
    LockersOff(s, q);
    WakeOneOk(s, q);
    WakeOneFrame(s, q);
    AsideOk(s, WakeOne(s, q));
  }

  lemma StartAside(s: State, t: nat)
    requires Ok(s) && t in s.threads && s.threads[t].state == NoState
    ensures RUNQ in s.sizes && Ok(Ready(s, t))
  {
    HolderQueues(s);
    StartOk(s, t);
    forall x <- s.locking ensures x in s.threads && x != t { LockerPlace(s, x); }
    AsideOk(s, Ready(s, t));
  }

  lemma ExitOk(s: State)
    requires Ok(s) && s.cur.Some?
    ensures Ok(SetThread(s, s.cur.value, s.threads[s.cur.value].(state := Exited)).(cur := None))
  {
    var t := s.cur.value;
    var s' := SetThread(s, t, s.threads[t].(state := Exited)).(cur := None);
    assert ThreadOk(s, t);
    forall q <- s'.queues ensures QueueOk(s', q) { assert QueueOk(s, q); }
    forall x <- s'.threads ensures ThreadOk(s', x) { assert ThreadOk(s, x); }
    HolderQueues(s);
    forall x <- s.locking ensures x in s.threads && x != t { LockerPlace(s, x); }
    AsideOk(s, s');
  }

  lemma FreshSched(s: State, op: Op)
    requires Ok(s) && Enabled(s, op) && (op.Create? || op.NewQueue? || op.NewMutex?)
    ensures SchedOk(Step(s, op))
  {
    var s' := Step(s, op);
    forall q <- s'.queues ensures QueueOk(s', q) { if q in s.queues { assert QueueOk(s, q); } }
    forall x <- s'.threads ensures ThreadOk(s', x) { if x in s.threads { assert ThreadOk(s, x); } }
  }

  lemma OkMutex(s: State, m: nat)
    requires Ok(s) && m in s.holder
    ensures MutexOk(s, m)
  {
  }

  lemma OkCall(s: State, t: nat)
    requires Ok(s) && t in s.locking
    ensures CallOk(s, t)
  {
  }

  lemma FreshOk(s: State, op: Op)
    requires Ok(s) && Enabled(s, op) && (op.Create? || op.NewQueue? || op.NewMutex?)
    ensures Ok(Step(s, op))
  {
    var s' := Step(s, op);
    FreshSched(s, op);
    OkSched(s);
    if op.NewMutex? {
      NewMutexOk(s, op.q);
    } else {
      HolderQueues(s);
      LockersOffCpu(s);
      hide Ok, SchedOk;
      AsideOk(s, s');
    }
  }

  lemma NewMutexOk(s: State, q: nat)
    requires Ok(s) && q !in s.queues && q !in s.holder
    requires SchedOk(s.(queues := s.queues[q := []], sizes := s.sizes[q := 0], holder := s.holder[q := None]))
    ensures Ok(s.(queues := s.queues[q := []], sizes := s.sizes[q := 0], holder := s.holder[q := None]))
  {
    hide Ok, SchedOk;
    var s' := s.(queues := s.queues[q := []], sizes := s.sizes[q := 0], holder := s.holder[q := None]);
    OkSched(s);
    forall m <- s'.holder ensures MutexOk(s', m) { if m in s.holder { OkMutex(s, m); } }
    forall t <- s'.locking ensures CallOk(s', t) { OkCall(s, t); }
    OkIs(s');
  }

  // ---------------------------------------------------------------------
  // Cancel, lock, unlock, dispatch
  // ---------------------------------------------------------------------

  /** `t` was taken off queue `q`, marked cancelled, and put on the run queue. */
  ghost predicate Cancelled(s: State, s': State, q: nat, t: nat) {
    && q in s.queues && t in s.queues[q] && q != RUNQ && RUNQ in s.queues && t in s.threads
    && s.threads[t].state == AsleepCancellable && s.threads[t].wchan == Some(q)
    && s'.queues.Keys == s.queues.Keys && s'.queues[RUNQ] == s.queues[RUNQ] + [t]
    && (forall x <- s.queues :: x != RUNQ && x != q ==> s'.queues[x] == s.queues[x])
    && (forall x :: x in s'.queues[q] <==> x in s.queues[q] && x != t)
    && s'.threads == s.threads[t := Thread(Runnable, Some(RUNQ), true)]
    && s'.holder == s.holder && s'.locking == s.locking
  }

  lemma CancelIsCancelled(s: State, t: nat)
    requires SchedOk(s) && t in s.threads && s.threads[t].state == AsleepCancellable
    ensures s.threads[t].wchan.Some? && Cancelled(s, CancelOne(s, t), s.threads[t].wchan.value, t)
  {
    SleeperPlace(s, t);
    CancelSleeperForm(s, t);
    var q := s.threads[t].wchan.value;
    assert QueueOk(s, q);
    WithoutMembers(s.queues[q], IndexOf(s.queues[q], t));
    hide SchedOk, CancelOne, Without;
  }

  lemma Elsewhere(s: State, t: nat, q: nat, q': nat)
    requires Ok(s) && t in s.threads && s.threads[t].wchan == Some(q) && q' in s.queues && q' != q
    ensures t !in s.queues[q']
  {
    assert QueueOk(s, q');
  }

  lemma CancelMutex(s: State, s': State, q: nat, t: nat, m: nat)
    requires Ok(s) && Cancelled(s, s', q, t) && m in s.holder
    ensures MutexOk(s', m)
  {
    hide Ok;
    OkMutex(s, m);
    if m != q { Elsewhere(s, t, q, m); }
  }

  lemma CancelCall(s: State, s': State, q: nat, t: nat, x: nat)
    requires Ok(s) && Cancelled(s, s', q, t) && x in s.locking
    ensures CallOk(s', x)
  {
    hide Ok;
    OkCall(s, x);
    HolderQueues(s);
    if x == t {
      LockerPlace(s, t);
      OkMutex(s, q);
    }
  }

  /** Cancelling a waiter of a mutex, or any other thread that is not running. */
  lemma CancelOk(s: State, t: nat)
    requires Ok(s) && t in s.threads && s.cur != Some(t)
    ensures SchedOk(s) && Ok(CancelOne(s, t))
  {
    OkSched(s);
    if s.threads[t].state != AsleepCancellable {
      FlagOk(s, t);
    } else {
      CancelSleeperOk(s, t);
      CancelIsCancelled(s, t);
      var q, s' := s.threads[t].wchan.value, CancelOne(s, t);
      assert s'.holder == s.holder && s'.locking == s.locking;
      assert Ok(s') by {
        hide Cancelled, SchedOk, CancelOne, MutexOk, CallOk;
        forall m <- s'.holder ensures MutexOk(s', m) { CancelMutex(s, s', q, t, m); }
        forall x <- s'.locking ensures CallOk(s', x) { CancelCall(s, s', q, t, x); }
      }
    }
  }

  lemma FlagOk(s: State, t: nat)
    requires Ok(s) && SchedOk(s) && t in s.threads && s.threads[t].state != AsleepCancellable
    ensures Ok(CancelOne(s, t))
  {
    hide Ok, SchedOk;
    OkSched(s);
    HolderQueues(s);
    LockersOffCpu(s);
    SetCancelledOk(s, t);
    AsideOk(s, CancelOne(s, t));
  }

  lemma HeadOf(s: State, q: nat)
    requires SchedOk(s) && q in s.queues && s.queues[q] != []
    ensures var t := s.queues[q][0]; t in s.threads && s.threads[t].wchan == Some(q) && t !in s.queues[q][1..]
    ensures forall x :: x in s.queues[q][1..] <==> x in s.queues[q] && x != s.queues[q][0]
  {
    assert QueueOk(s, q);
    var l := s.queues[q];
    assert l[0] in l;
    assert forall i :: 0 <= i < |l[1..]| ==> l[1..][i] == l[i + 1];
    assert l == [l[0]] + l[1..];
  }

  /** The mutex goes straight to the head of its queue. */
  ghost predicate Handed(s: State, s': State, m: nat, t: nat) {
    && m in s.holder && m in s.queues && m != RUNQ && RUNQ in s.queues && t in s.queues[m] && t in s.threads
    && s.threads[t].wchan == Some(m)
    && s'.queues.Keys == s.queues.Keys && s'.queues[RUNQ] == s.queues[RUNQ] + [t]
    && (forall x <- s.queues :: x != RUNQ && x != m ==> s'.queues[x] == s.queues[x])
    && (forall x :: x in s'.queues[m] <==> x in s.queues[m] && x != t)
    && s'.threads == s.threads[t := s.threads[t].(wchan := Some(RUNQ), state := Runnable)]
    && s'.holder == s.holder[m := Some(t)] && s'.locking == s.locking
    && (forall x <- s.locking :: s.holder[m] != Some(x))
  }

  lemma UnlockHands(s: State, m: nat)
    requires Ok(s) && m in s.holder && s.holder[m] == s.cur && s.cur.Some? && m in s.queues && s.queues[m] != []
    ensures SchedOk(UnlockStep(s, m)) && Handed(s, UnlockStep(s, m), m, s.queues[m][0])
  {
    hide Ok, SchedOk, WakeOne;
    OkSched(s);
    HolderQueues(s);
    LockersOffCpu(s);
    HeadOf(s, m);
    WakeOneOk(s, m);
    WakeOneFrame(s, m);
    HolderChange(WakeOne(s, m), s.holder[m := Some(s.queues[m][0])]);
  }

  lemma HolderChange(s: State, h: map<nat, Option<nat>>)
    requires SchedOk(s)
    ensures SchedOk(s.(holder := h))
  {
    forall q <- s.queues ensures QueueOk(s.(holder := h), q) { assert QueueOk(s, q); }
    forall t <- s.threads ensures ThreadOk(s.(holder := h), t) { assert ThreadOk(s, t); }
  }

  lemma HandedMutex(s: State, s': State, m: nat, t: nat, x: nat)
    requires Ok(s) && Handed(s, s', m, t) && x in s.holder
    ensures MutexOk(s', x)
  {
    hide Ok;
    OkMutex(s, x);
    if x != m { Elsewhere(s, t, m, x); }
  }

  lemma HandedCall(s: State, s': State, m: nat, t: nat, x: nat)
    requires Ok(s) && Handed(s, s', m, t) && x in s.locking
    ensures CallOk(s', x)
  {
    hide Ok;
    OkCall(s, x);
    HolderQueues(s);
    if x == t {
      LockerPlace(s, t);
      OkMutex(s, m);
    }
  }

  lemma UnlockOk(s: State, m: nat)
    requires Ok(s) && m in s.holder && s.holder[m] == s.cur && s.cur.Some?
    ensures Ok(UnlockStep(s, m))
  {
    OkMutex(s, m);
    var s' := UnlockStep(s, m);
    if s.queues[m] == [] {
      FreeOk(s, m, None);
    } else {
      hide Ok, SchedOk, WakeOne, MutexOk;
      UnlockHands(s, m);
      HandedOk(s, s', m, s.queues[m][0]);
    }
  }

  lemma HandedOk(s: State, s': State, m: nat, t: nat)
    requires Ok(s) && SchedOk(s') && Handed(s, s', m, t)
    ensures Ok(s')
  {
    assert s'.holder.Keys == s.holder.Keys && s'.locking == s.locking;
    hide Ok, Handed, SchedOk, MutexOk, CallOk;
    forall x <- s'.holder ensures MutexOk(s', x) { HandedMutex(s, s', m, t, x); }
    forall x <- s'.locking ensures CallOk(s', x) { HandedCall(s, s', m, t, x); }
    OkIs(s');
  }

  lemma FreeMutex(s: State, m: nat, h: Option<nat>, x: nat)
    requires Ok(s) && m in s.holder && m in s.queues && s.queues[m] == [] && (h.None? || h == s.cur) && x in s.holder
    ensures MutexOk(s.(holder := s.holder[m := h]), x)
  {
    hide Ok, SchedOk;
    OkSched(s);
    OkMutex(s, x);
  }

  /** Taking or giving up a mutex nobody waits for. */
  lemma FreeOk(s: State, m: nat, h: Option<nat>)
    requires Ok(s) && m in s.holder && m in s.queues && s.queues[m] == [] && (h.None? || h == s.cur)
    requires s.holder[m].None? || s.holder[m] == s.cur
    ensures Ok(s.(holder := s.holder[m := h]))
  {
    hide Ok, SchedOk;
    var s' := s.(holder := s.holder[m := h]);
    OkSched(s);
    LockersOffCpu(s);
    HolderChange(s, s.holder[m := h]);
    forall x <- s'.holder ensures MutexOk(s', x) { FreeMutex(s, m, h, x); }
    forall x <- s'.locking ensures CallOk(s', x) { OkCall(s, x); }
    OkIs(s');
  }

  /** The current thread `c` waits for mutex `m`. */
  ghost predicate Queued(s: State, s': State, m: nat, c: nat, cancellable: bool) {
    && m in s.holder && m in s.queues && m != RUNQ && s.holder[m].Some? && s.holder[m] != Some(c) && c in s.threads
    && s.cur == Some(c) && RUNQ in s.queues && (forall q <- s.queues :: c !in s.queues[q])
    && s'.queues == s.queues[m := s.queues[m] + [c]]
    && s'.threads == s.threads[c := s.threads[c].(wchan := Some(m), state := if cancellable then AsleepCancellable
                                                  else Asleep)]
    && s'.holder == s.holder && s'.locking == s.locking[c := LockCall(m, cancellable)]
  }

  lemma QueuedMutex(s: State, s': State, m: nat, c: nat, cancellable: bool, x: nat)
    requires Ok(s) && Queued(s, s', m, c, cancellable) && x in s.holder
    ensures MutexOk(s', x)
  {
    hide Ok;
    OkMutex(s, x);
  }

  lemma QueuedCall(s: State, s': State, m: nat, c: nat, cancellable: bool, x: nat)
    requires Ok(s) && Queued(s, s', m, c, cancellable) && x in s.locking + map[c := LockCall(m, cancellable)]
    ensures x in s'.locking && CallOk(s', x)
  {
    hide Ok;
    if x != c { OkCall(s, x); }
  }

  lemma LockQueues(s: State, m: nat, cancellable: bool)
    requires Ok(s) && s.cur.Some? && m in s.holder && s.holder[m].Some? && s.holder[m] != s.cur
    requires s.cur.value in s.threads && !(cancellable && s.threads[s.cur.value].cancelled)
    ensures SchedOk(LockStep(s, m, cancellable)) && Queued(s, LockStep(s, m, cancellable), m, s.cur.value, cancellable)
  {
    hide Ok, SchedOk;
    OkSched(s);
    OkMutex(s, m);
    var st := if cancellable then AsleepCancellable else Asleep;
    BlockOk(s, m, st);
    var c := s.cur.value;
    LockingChange(Block(s, m, st), s.locking[c := LockCall(m, cancellable)]);
    forall q <- s.queues ensures c !in s.queues[q] { CurOffQueues(s, q); }
  }

  lemma LockWaitOk(s: State, m: nat, cancellable: bool)
    requires Ok(s) && s.cur.Some? && m in s.holder && s.holder[m].Some? && s.holder[m] != s.cur
    requires s.cur.value in s.threads && !(cancellable && s.threads[s.cur.value].cancelled)
    ensures Ok(LockStep(s, m, cancellable))
  {
    var c, s' := s.cur.value, LockStep(s, m, cancellable);
    LockQueues(s, m, cancellable);
    assert s'.holder == s.holder && s'.locking.Keys == s.locking.Keys + {c};
    assert Ok(s') by {
      hide Ok, Queued, SchedOk, LockStep, MutexOk, CallOk;
      forall x <- s'.holder ensures MutexOk(s', x) { QueuedMutex(s, s', m, c, cancellable, x); }
      forall x <- s'.locking ensures CallOk(s', x) { QueuedCall(s, s', m, c, cancellable, x); }
      OkIs(s');
    }
  }

  lemma LockingChange(s: State, l: map<nat, LockCall>)
    requires SchedOk(s)
    ensures SchedOk(s.(locking := l))
  {
    forall q <- s.queues ensures QueueOk(s.(locking := l), q) { assert QueueOk(s, q); }
    forall t <- s.threads ensures ThreadOk(s.(locking := l), t) { assert ThreadOk(s, t); }
  }

  lemma CurOffQueues(s: State, q: nat)
    requires SchedOk(s) && s.cur.Some? && q in s.queues
    ensures s.cur.value !in s.queues[q]
  {
    assert QueueOk(s, q);
    assert ThreadOk(s, s.cur.value);
  }

  lemma DispatchMutex(s: State, m: nat)
    requires Ok(s) && SchedOk(s) && RUNQ in s.queues && s.queues[RUNQ] != [] && m in s.holder
    ensures MutexOk(DispatchStep(s), m)
  {
    hide Ok, SchedOk;
    OkMutex(s, m);
    HeadOf(s, RUNQ);
    Elsewhere(s, s.queues[RUNQ][0], RUNQ, m);
  }

  lemma DispatchCall(s: State, x: nat)
    requires Ok(s) && SchedOk(s) && RUNQ in s.queues && s.queues[RUNQ] != [] && x in s.locking && x != s.queues[RUNQ][0]
    ensures x in DispatchStep(s).locking && CallOk(DispatchStep(s), x)
  {
    hide Ok, SchedOk;
    OkCall(s, x);
    HeadOf(s, RUNQ);
    HolderQueues(s);
    assert Without(s.queues[RUNQ], 0) == s.queues[RUNQ][1..];
  }

  lemma DispatchAllOk(s: State)
    requires Ok(s) && s.cur.None? && RUNQ in s.queues && s.queues[RUNQ] != []
    ensures SchedOk(s) && Ok(DispatchStep(s))
  {
    OkSched(s);
    DispatchOk(s);
    var s' := DispatchStep(s);
    assert s'.holder == s.holder && s'.locking == s.locking - {s.queues[RUNQ][0]};
    assert Ok(s') by {
      hide SchedOk, DispatchStep, MutexOk, CallOk;
      forall m <- s'.holder ensures MutexOk(s', m) { DispatchMutex(s, m); }
      forall x <- s'.locking ensures CallOk(s', x) { DispatchCall(s, x); }
    }
  }

  // ---------------------------------------------------------------------
  // Runs
  // ---------------------------------------------------------------------

  /** Every step keeps the scheduler and the mutexes in order. */
  lemma StepOk(s: State, op: Op)
    requires Ok(s) && Enabled(s, op)
    ensures Ok(Step(s, op))
  {
    OkSched(s);
    match op
    case Create(_, _) => FreshOk(s, op);
    case NewQueue(_) => FreshOk(s, op);
    case NewMutex(_) => FreshOk(s, op);
    case Start(t) => StartAside(s, t);
    case Yield => BlockAside(s, RUNQ, Runnable);
    case Sleep(q) => BlockAside(s, q, Asleep);
    case SleepCancellable(q) => if !s.threads[s.cur.value].cancelled { BlockAside(s, q, AsleepCancellable); }
    case Wakeup(q) => if s.queues[q] != [] { WakeOneAside(s, q); }
    case Broadcast(q) => WakeAside(s, q);
    case Cancel(t) => CancelOk(s, t);
    case Exit => ExitOk(s);
    case Dispatch => DispatchAllOk(s);
    case Lock(m) => LockOk(s, m, false);
    case LockCancellable(m) => LockOk(s, m, true);
    case Unlock(m) => UnlockOk(s, m);
  }

  lemma LockOk(s: State, m: nat, cancellable: bool)
    requires Ok(s) && s.cur.Some? && m in s.holder && s.holder[m] != s.cur
    ensures Ok(LockStep(s, m, cancellable))
  {
    OkSched(s);
    OkMutex(s, m);
    if s.holder[m].None? { FreeOk(s, m, s.cur); }
    else if !(cancellable && s.threads[s.cur.value].cancelled) { LockWaitOk(s, m, cancellable); }
  }

  function Next(s: State, op: Op): (s': State)
    requires Ok(s)
    ensures Ok(s')
  {
    if Enabled(s, op) then StepOk(s, op); Step(s, op) else s
  }

  function Run(s: State, ops: seq<Op>): (s': State)
    requires Ok(s)
    ensures Ok(s')
    decreases |ops|
  {
    if ops == [] then s else Run(Next(s, ops[0]), ops[1..])
  }

  const Boot: State := State(map[], map[RUNQ := []], map[RUNQ := 0], None, map[], map[])

  /** A dispatch, spelt out. */
  lemma DispatchForm(s: State, t: nat)
    requires Ok(s) && RUNQ in s.queues && RUNQ in s.sizes && s.queues[RUNQ] != [] && s.queues[RUNQ][0] == t
             && t in s.threads && s.cur.None?
    ensures Next(s, Dispatch) == Unlink(s, RUNQ, 0).(cur := Some(t), locking := s.locking - {t})
  {
    hide Ok, SchedOk;
    OkSched(s);
  }

  /** In every run from boot, no thread is lost or doubled, queue sizes are right,
      and the mutexes are in order. */
  lemma BootRunOk(ops: seq<Op>)
    ensures Ok(Boot) && Ok(Run(Boot, ops))
  {
    assert QueueOk(Boot, RUNQ);
  }

  // ---------------------------------------------------------------------
  // First come, first dispatched
  // ---------------------------------------------------------------------

  /** The run queue loses its head to a dispatch and otherwise only grows at its end. */
  lemma RunqAfter(s: State, op: Op)
    requires Ok(s) && Enabled(s, op)
    ensures RUNQ in s.queues && RUNQ in Step(s, op).queues
    ensures op.Dispatch? ==>
              && s.queues[RUNQ] != [] && Step(s, op).queues[RUNQ] == s.queues[RUNQ][1..]
              && Step(s, op).cur == Some(s.queues[RUNQ][0])
    ensures !op.Dispatch? ==> s.queues[RUNQ] <= Step(s, op).queues[RUNQ]
  {
    hide Ok, SchedOk, WakeOne, WakeAll;
    OkSched(s);
    match op
    case Wakeup(q) => if s.queues[q] != [] { WakeOneOk(s, q); }
    case Broadcast(q) => WakeAllOk(s, q);
    case Cancel(t) => if s.threads[t].state == AsleepCancellable { SleeperPlace(s, t); CancelSleeperForm(s, t); }
    case Unlock(m) => OkMutex(s, m); if s.queues[m] != [] { WakeOneOk(s, m); }
    case Lock(m) => OkMutex(s, m);
    case LockCancellable(m) => OkMutex(s, m);
    case Dispatch => assert Without(s.queues[RUNQ], 0) == s.queues[RUNQ][1..];
    case _ =>
  }

  /** How many dispatches a run makes. */
  function Dispatches(s: State, ops: seq<Op>): nat
    requires Ok(s)
    decreases |ops|
  {
    if ops == [] then 0
    else (if ops[0].Dispatch? && Enabled(s, ops[0]) then 1 else 0) + Dispatches(Next(s, ops[0]), ops[1..])
  }

  /** A thread with `k` others ahead of it on the run queue has moved up by one for
      every dispatch, and the dispatch after `k` of them picks it. */
  lemma {:induction false} DispatchedInTurn(s: State, ops: seq<Op>, k: nat, t: nat)
    requires Ok(s) && RUNQ in s.queues && k < |s.queues[RUNQ]| && s.queues[RUNQ][k] == t && Dispatches(s, ops) <= k
    ensures var s' := Run(s, ops); var d := Dispatches(s, ops);
            && RUNQ in s'.queues && k - d < |s'.queues[RUNQ]| && s'.queues[RUNQ][k - d] == t
            && (d == k && s'.cur.None? ==> Enabled(s', Dispatch) && Step(s', Dispatch).cur == Some(t))
    decreases |ops|
  {
    hide Ok, Step, Enabled;
    if ops == [] {
      if k == 0 && s.cur.None? { DispatchHead(s); }
    } else {
      if Enabled(s, ops[0]) { RunqAfter(s, ops[0]); }
      var k' := if ops[0].Dispatch? && Enabled(s, ops[0]) then k - 1 else k;
      DispatchedInTurn(Next(s, ops[0]), ops[1..], k', t);
    }
  }

  lemma DispatchHead(s: State)
    requires Ok(s) && s.cur.None? && RUNQ in s.queues && s.queues[RUNQ] != []
    ensures Enabled(s, Dispatch) && Step(s, Dispatch).cur == Some(s.queues[RUNQ][0])
  {
  }

  // ---------------------------------------------------------------------
  // Lock hand-off
  // ---------------------------------------------------------------------

  /** What a lock call that slept returns when its thread is dispatched. */
  function LockResult(s: State, t: nat): bool
    requires t in s.locking && t in s.threads
  {
    !(s.locking[t].cancellable && s.threads[t].cancelled)
  }

  /** A lock call returns success only to the holder; the uncancellable one always
      returns success. */
  lemma LockReturnsToHolder(s: State)
    requires Ok(s) && Enabled(s, Dispatch) && s.queues[RUNQ][0] in s.locking
    ensures var t := s.queues[RUNQ][0]; var c := s.locking[t];
            && t in s.threads && c.mutex in s.holder
            && (LockResult(s, t) ==> s.holder[c.mutex] == Some(t))
            && (!c.cancellable ==> LockResult(s, t))
  {
    var t := s.queues[RUNQ][0];
    OkSched(s);
    OkCall(s, t);
    HeadOf(s, RUNQ);
    Elsewhere2(s, t, s.locking[t].mutex);
  }

  lemma Elsewhere2(s: State, t: nat, m: nat)
    requires Ok(s) && RUNQ in s.queues && t in s.queues[RUNQ] && m in s.holder
    ensures m in s.queues && t !in s.queues[m]
  {
    OkMutex(s, m);
    assert QueueOk(s, RUNQ);
    Elsewhere(s, t, RUNQ, m);
  }

  /** The queue of mutex `m` after a step: a lock request joins at the end, an
      unlock takes the head, a cancel takes its thread, nothing else touches it. */
  ghost predicate QueueMoves(s: State, s': State, op: Op, m: nat) {
    && m in s.queues && m in s'.queues && m in s'.holder
    && if op == Unlock(m) then s.queues[m] != [] ==>
      s'.queues[m] == s.queues[m][1..] && s'.holder[m] == Some(s.queues[m][0])
       else if op.Cancel? && op.t in s.queues[m] then
         s'.queues[m] == s.queues[m] || s'.queues[m] == Without(s.queues[m], IndexOf(s.queues[m], op.t))
       else s.queues[m] <= s'.queues[m]
  }

  lemma WakeMoves(s: State, op: Op, m: nat)
    requires Ok(s) && Enabled(s, op) && m in s.holder && (op.Wakeup? || op.Broadcast?)
    ensures QueueMoves(s, Step(s, op), op, m)
  {
    hide Ok, SchedOk, WakeOne, WakeAll;
    OkSched(s);
    OkMutex(s, m);
    if op.Broadcast? {
      WakeAllOk(s, op.q);
      WakeAllFrame(s, op.q);
    } else if s.queues[op.q] != [] {
      WakeOneOk(s, op.q);
      WakeOneFrame(s, op.q);
    }
  }

  lemma UnlockMoves(s: State, op: Op, m: nat)
    requires Ok(s) && Enabled(s, op) && m in s.holder && op.Unlock?
    ensures QueueMoves(s, Step(s, op), op, m)
  {
    hide Ok, SchedOk, WakeOne;
    OkSched(s);
    OkMutex(s, m);
    OkMutex(s, op.m);
    if s.queues[op.m] != [] { WakeOneOk(s, op.m); }
  }

  lemma LockMoves(s: State, op: Op, m: nat)
    requires Ok(s) && Enabled(s, op) && m in s.holder && (op.Lock? || op.LockCancellable?)
    ensures QueueMoves(s, Step(s, op), op, m)
  {
    hide Ok, SchedOk;
    OkSched(s);
    OkMutex(s, m);
    OkMutex(s, op.m);
  }

  lemma MutexQueueAfter(s: State, op: Op, m: nat)
    requires Ok(s) && Enabled(s, op) && m in s.holder
    ensures QueueMoves(s, Step(s, op), op, m)
  {
    if op.Wakeup? || op.Broadcast? { WakeMoves(s, op, m); }
    else if op.Unlock? { UnlockMoves(s, op, m); }
    else if op.Lock? || op.LockCancellable? { LockMoves(s, op, m); }
    else if op.Cancel? {
      OkSched(s);
      OkMutex(s, m);
      hide Ok, SchedOk, MutexOk, CancelOne;
      CancelQueues(s, op.t, m);
    } else {
      OtherMoves(s, op, m);
    }
  }

  lemma OtherMoves(s: State, op: Op, m: nat)
    requires Ok(s) && Enabled(s, op) && m in s.holder
    requires !(op.Wakeup? || op.Broadcast? || op.Unlock? || op.Lock? || op.LockCancellable? || op.Cancel?)
    ensures QueueMoves(s, Step(s, op), op, m)
  {
    hide Ok, SchedOk;
    OkSched(s);
    OkMutex(s, m);
  }

  lemma CancelQueues(s: State, t: nat, m: nat)
    requires Ok(s) && SchedOk(s) && t in s.threads && m in s.holder && m in s.queues
    ensures var s' := CancelOne(s, t);
            && m in s'.queues && m in s'.holder
            && (t !in s.queues[m] ==> s'.queues[m] == s.queues[m])
            && (t in s.queues[m] ==>
                  || s'.queues[m] == s.queues[m]
                  || s'.queues[m] == Without(s.queues[m], IndexOf(s.queues[m], t)))
  {
    OkMutex(s, m);
    if s.threads[t].state == AsleepCancellable {
      SleeperPlace(s, t);
      CancelSleeperForm(s, t);
      hide CancelOne, Ok, SchedOk;
      var q := s.threads[t].wchan.value;
      if q != m { Elsewhere(s, t, q, m); }
    }
  }

  /** `t` waits at position `k` of mutex `m`. */
  predicate WaitsAt(s: State, m: nat, t: nat, k: nat) {
    m in s.holder && m in s.queues && k < |s.queues[m]| && s.queues[m][k] == t
  }

  /** Everyone ahead of position `k'` in `l'` was ahead of position `k` in `l`. */
  predicate NoneOvertook(l: seq<nat>, k: nat, l': seq<nat>, k': nat) {
    k <= |l| && k' <= |l'| && forall x <- l'[..k'] :: x in l[..k]
  }

  /** One step of a waiter nobody cancels: the lock is its own, or it waits with
      nobody new ahead, and one fewer after an unlock. */
  lemma WaitStep(s: State, op: Op, m: nat, t: nat, k: nat) returns (k': nat)
    requires Ok(s) && Enabled(s, op) && WaitsAt(s, m, t, k) && op != Cancel(t)
    ensures var s' := Step(s, op);
            if op == Unlock(m) && k == 0 then m in s'.holder && s'.holder[m] == Some(t)
            else && WaitsAt(s', m, t, k') && NoneOvertook(s.queues[m], k, s'.queues[m], k')
                 && (if op == Unlock(m) then k' < k else k' <= k)
  {
    hide Ok, Step, Enabled;
    MutexQueueAfter(s, op, m);
    var l, l' := s.queues[m], Step(s, op).queues[m];
    k' := k;
    if op == Unlock(m) {
      if k > 0 { k' := k - 1; HeadGone(l, k); }
    } else if op.Cancel? && op.t in l {
      var i := IndexOf(l, op.t);
      if l' != l {
        AheadAfterRemoval(l, i, k);
        if i < k { k' := k - 1; }
      }
    } else {
      assert l'[..k] == l[..k];
    }
  }

  lemma HeadGone(l: seq<nat>, k: nat)
    requires 0 < k < |l|
    ensures NoneOvertook(l, k, l[1..], k - 1) && l[1..][k - 1] == l[k]
  {
    assert l[1..][..k - 1] == l[..k][1..];
  }

  lemma AheadAfterRemoval(l: seq<nat>, i: nat, k: nat)
    requires i < |l| && k < |l| && i != k
    ensures var k' := if i < k then k - 1 else k;
            k' <= |Without(l, i)| && forall x <- Without(l, i)[..k'] :: x in l[..k]
  {
    var k' := if i < k then k - 1 else k;
    var r := Without(l, i);
    forall x <- r[..k'] ensures x in l[..k] {
      var j :| 0 <= j < k' && r[j] == x;
      assert l[..k][if j < i then j else j + 1] == x;
    }
  }

  /** How often mutex `m` is unlocked in a run. */
  function Unlocks(s: State, ops: seq<Op>, m: nat): nat
    requires Ok(s)
    decreases |ops|
  {
    if ops == [] then 0
    else (if ops[0] == Unlock(m) && Enabled(s, ops[0]) then 1 else 0) + Unlocks(Next(s, ops[0]), ops[1..], m)
  }

  /** Does `t` hold `m` at some point of the run? */
  predicate Acquires(s: State, ops: seq<Op>, m: nat, t: nat)
    requires Ok(s)
    decreases |ops|
  {
    (m in s.holder && s.holder[m] == Some(t)) || (ops != [] && Acquires(Next(s, ops[0]), ops[1..], m, t))
  }

  /** Bounded waiting: a waiter with `k` threads ahead that nobody cancels has held
      the lock by the time the mutex was unlocked `k + 1` times. */
  lemma {:induction false} BoundedWaiting(s: State, ops: seq<Op>, m: nat, t: nat, k: nat)
    requires Ok(s) && WaitsAt(s, m, t, k) && Cancel(t) !in ops && Unlocks(s, ops, m) > k
    ensures Acquires(s, ops, m, t)
    decreases |ops|
  {
    hide Ok, Step, Enabled;
    if Enabled(s, ops[0]) {
      var k' := WaitStep(s, ops[0], m, t, k);
      if ops[0] == Unlock(m) && k == 0 {
        var s' := Next(s, ops[0]);
        assert Acquires(s', ops[1..], m, t);
      } else {
        BoundedWaiting(Next(s, ops[0]), ops[1..], m, t, k');
      }
    } else {
      BoundedWaiting(s, ops[1..], m, t, k);
    }
  }

  /** Until `t` holds `m`, it is held by someone in `who`. */
  predicate HeldOnlyBy(s: State, ops: seq<Op>, m: nat, t: nat, who: set<nat>)
    requires Ok(s)
    decreases |ops|
  {
    && m in s.holder && s.holder[m].Some?
    && (s.holder[m] == Some(t)
        || (s.holder[m].value in who && (ops == [] || HeldOnlyBy(Next(s, ops[0]), ops[1..], m, t, who))))
  }

  /** Who may hold a mutex before the waiter at position `k`: its holder, and those
      ahead. */
  function Ahead(s: State, m: nat, k: nat): set<nat>
    requires m in s.holder && m in s.queues && k <= |s.queues[m]|
  {
    (set x | x in s.queues[m][..k]) + (if s.holder[m].Some? then {s.holder[m].value} else {})
  }

  /** No later request overtakes, over whole runs: until a waiter nobody cancels
      holds the mutex, only its holder and the threads that were ahead do. */
  lemma {:induction false} NoOvertaking(s: State, ops: seq<Op>, m: nat, t: nat, k: nat, who: set<nat>)
    requires Ok(s) && WaitsAt(s, m, t, k) && Cancel(t) !in ops && Ahead(s, m, k) <= who
    ensures HeldOnlyBy(s, ops, m, t, who)
    decreases |ops|
  {
    hide Ok, Step, Enabled;
    OkMutex(s, m);
    if ops != [] {
      if Enabled(s, ops[0]) {
        var k' := WaitStep(s, ops[0], m, t, k);
        var s' := Next(s, ops[0]);
        if ops[0] == Unlock(m) && k == 0 {
          assert HeldOnlyBy(s', ops[1..], m, t, who);
        } else {
          AheadAfter(s, ops[0], m, t, k, k');
          NoOvertaking(s', ops[1..], m, t, k', who);
        }
      } else {
        NoOvertaking(s, ops[1..], m, t, k, who);
      }
    }
  }

  lemma AheadAfter(s: State, op: Op, m: nat, t: nat, k: nat, k': nat)
    requires Ok(s) && Enabled(s, op) && WaitsAt(s, m, t, k) && WaitsAt(Step(s, op), m, t, k')
    requires NoneOvertook(s.queues[m], k, Step(s, op).queues[m], k') && (op == Unlock(m) ==> k > 0)
    ensures Ahead(Step(s, op), m, k') <= Ahead(s, m, k)
  {
    hide Ok, Step, Enabled;
    OkMutex(s, m);
    HolderAfter(s, op, m);
    if op == Unlock(m) { assert s.queues[m][0] in s.queues[m][..k]; }
  }

  // ---------------------------------------------------------------------
  // An interrupted lock call
  // ---------------------------------------------------------------------

  /** A step that changes who holds `m`. */
  lemma HolderAfter(s: State, op: Op, m: nat)
    requires Ok(s) && Enabled(s, op) && m in s.holder
    ensures m in Step(s, op).holder && m in s.queues
    ensures Step(s, op).holder[m] == s.holder[m]
            || (op == Unlock(m) && s.holder[m] == s.cur
                && (Step(s, op).holder[m].None?
                    || (s.queues[m] != [] && Step(s, op).holder[m] == Some(s.queues[m][0]))))
            || ((op == Lock(m) || op == LockCancellable(m)) && s.holder[m].None? && Step(s, op).holder[m] == s.cur)
  {
    hide Ok, SchedOk, WakeOne, WakeAll, CancelOne;
    OkSched(s);
    OkMutex(s, m);
    match op
    case Wakeup(q) => WakeFrame(s, op);
    case Broadcast(q) => WakeFrame(s, op);
    case Cancel(t) => WakeFrame(s, op);
    case _ =>
  }

  /** Once off the mutex's queue, a lock call's fate is settled: until its thread is
      dispatched it neither gains nor loses the mutex. */
  lemma FateStep(s: State, op: Op, t: nat)
    requires Ok(s) && Enabled(s, op) && t in s.locking && RUNQ in s.queues && t in s.queues[RUNQ]
             && t in Step(s, op).locking
    ensures var s' := Step(s, op); var m := s.locking[t].mutex;
            && RUNQ in s'.queues && t in s'.queues[RUNQ] && s'.locking[t] == s.locking[t]
            && m in s.holder && m in s'.holder && (s'.holder[m] == Some(t) <==> s.holder[m] == Some(t))
  {
    hide Ok;
    LockerPlace(s, t);
    RunqAfter(s, op);
    var m := s.locking[t].mutex;
    HolderAfter(s, op, m);
    Elsewhere2(s, t, m);
    LockingAfter(s, op, t);
    hide Step, Enabled;
    if op.Dispatch? { assert s.queues[RUNQ] == [s.queues[RUNQ][0]] + s.queues[RUNQ][1..]; }
  }

  /** Only its dispatch ends a lock call, and only the current thread starts one. */
  /** Waking and cancelling threads changes no mutex and no lock call, and clears no flag. */
  lemma WakeFrame(s: State, op: Op)
    requires Ok(s) && Enabled(s, op) && (op.Wakeup? || op.Broadcast? || op.Cancel?)
    ensures Step(s, op).holder == s.holder && Step(s, op).locking == s.locking
    ensures forall t <- s.threads ::
              t in Step(s, op).threads && (s.threads[t].cancelled ==> Step(s, op).threads[t].cancelled)
  {
    hide Ok, SchedOk, WakeOne, WakeAll;
    OkSched(s);
    match op
    case Wakeup(q) => if s.queues[q] != [] { WakeOneFrame(s, q); }
    case Broadcast(q) => WakeAllFrame(s, q);
    case Cancel(x) => if s.threads[x].state == AsleepCancellable { SleeperPlace(s, x); CancelSleeperForm(s, x); }
  }

  /** A lock call stays until its thread is dispatched. */
  predicate LockingKept(s: State, s': State, op: Op, t: nat)
    requires t in s.locking
  {
    if op.Dispatch? && RUNQ in s.queues && s.queues[RUNQ] != [] && s.queues[RUNQ][0] == t then t !in s'.locking
    else t in s'.locking && s'.locking[t] == s.locking[t]
  }

  lemma LockingAfter(s: State, op: Op, t: nat)
    requires Ok(s) && Enabled(s, op) && t in s.locking && s.cur != Some(t)
    ensures LockingKept(s, Step(s, op), op, t)
  {
    hide Ok, SchedOk, WakeOne, WakeAll, CancelOne;
    OkSched(s);
    match op
    case Wakeup(q) => WakeFrame(s, op);
    case Broadcast(q) => WakeFrame(s, op);
    case Cancel(x) => WakeFrame(s, op);
    case Unlock(m) => OkMutex(s, m); if s.queues[m] != [] { WakeOneFrame(s, m); }
    case _ =>
  }

  /** A thread once cancelled stays so. */
  lemma CancelledAfter(s: State, op: Op, t: nat)
    requires Ok(s) && Enabled(s, op) && t in s.threads && s.threads[t].cancelled
    ensures t in Step(s, op).threads && Step(s, op).threads[t].cancelled
  {
    hide Ok, SchedOk, WakeOne, WakeAll, CancelOne;
    OkSched(s);
    match op
    case Wakeup(q) => WakeFrame(s, op);
    case Broadcast(q) => WakeFrame(s, op);
    case Cancel(x) => WakeFrame(s, op);
    case Unlock(m) => OkMutex(s, m); if s.queues[m] != [] { WakeOneFrame(s, m); }
    case _ =>
  }

  /** `t` is not dispatched during the run. */
  predicate StaysOut(s: State, ops: seq<Op>, t: nat)
    requires Ok(s)
    decreases |ops|
  {
    t in s.locking && (ops == [] || StaysOut(Next(s, ops[0]), ops[1..], t))
  }

  lemma {:induction false} FateRun(s: State, ops: seq<Op>, t: nat)
    requires Ok(s) && StaysOut(s, ops, t) && RUNQ in s.queues && t in s.queues[RUNQ] && t in s.threads
             && s.threads[t].cancelled
    ensures var s' := Run(s, ops); var m := s.locking[t].mutex;
            && t in s'.locking && s'.locking[t] == s.locking[t] && t in s'.threads && s'.threads[t].cancelled
            && m in s.holder && m in s'.holder && (s'.holder[m] == Some(t) <==> s.holder[m] == Some(t))
    decreases |ops|
  {
    if ops == [] {
      LockerPlace(s, t);
    } else {
      hide Ok, Step, Enabled;
      if Enabled(s, ops[0]) { FateStep(s, ops[0], t); CancelledAfter(s, ops[0], t); }
      FateRun(Next(s, ops[0]), ops[1..], t);
    }
  }

  /** kmutex_lock_cancellable promises that a caller told -EINTR does not hold the
      mutex. That is so exactly when the cancel found it still waiting: a thread
      cancelled after the hand-off gets -EINTR and the mutex. */
  lemma InterruptedHoldsIff(s: State, t: nat, ops: seq<Op>)
    requires Ok(s) && t in s.locking && s.locking[t].cancellable && Enabled(s, Cancel(t))
    requires StaysOut(Next(s, Cancel(t)), ops, t)
    ensures var s' := Run(Next(s, Cancel(t)), ops); var m := s.locking[t].mutex;
            && t in s'.locking && t in s'.threads && m in s.holder && m in s'.holder
            && !LockResult(s', t)
            && (s'.holder[m] == Some(t) <==> s.holder[m] == Some(t))
  {
    var s1 := Next(s, Cancel(t));
    LockerPlace(s, t);
    LockingAfter(s, Cancel(t), t);
    HolderAfter(s, Cancel(t), s.locking[t].mutex);
    CancelledIsReady(s, t);
    hide Ok, Step, Enabled;
    FateRun(s1, ops, t);
  }

  lemma CancelledIsReady(s: State, t: nat)
    requires Ok(s) && t in s.locking && s.locking[t].cancellable && Enabled(s, Cancel(t))
    ensures var s1 := Next(s, Cancel(t));
            RUNQ in s1.queues && t in s1.queues[RUNQ] && t in s1.threads && s1.threads[t].cancelled
  {
    OkSched(s);
    OkCall(s, t);
    OkMutex(s, s.locking[t].mutex);
    if s.threads[t].state == AsleepCancellable { SleeperPlace(s, t); CancelSleeperForm(s, t); }
  }

  lemma HandOffState(s: State, m: nat)
    requires Ok(s) && Enabled(s, Unlock(m)) && m in s.queues && s.queues[m] != []
    ensures var s1 := Next(s, Unlock(m)); var t := s.queues[m][0];
            && s1.locking == s.locking && m in s1.holder && s1.holder[m] == Some(t) && t in s1.locking
            && t in s1.threads
            && s1.locking[t].mutex == m
  {
    hide Ok, SchedOk, WakeOne;
    UnlockHands(s, m);
    OkMutex(s, m);
  }

  /** Hand-off, then cancel: the new holder will be told -EINTR. */
  lemma HandOffThenCancel(s: State, m: nat)
    requires Ok(s) && Enabled(s, Unlock(m)) && m in s.queues && s.queues[m] != []
    requires var t := s.queues[m][0]; t in s.locking && s.locking[t].cancellable
    ensures var t := s.queues[m][0]; var s' := Next(Next(s, Unlock(m)), Cancel(t));
            t in s'.locking && t in s'.threads && m in s'.holder && !LockResult(s', t) && s'.holder[m] == Some(t)
  {
    hide Ok, Step;
    var s1, t := Next(s, Unlock(m)), s.queues[m][0];
    HandOffState(s, m);
    LockerPlace(s1, t);
    LockingAfter(s1, Cancel(t), t);
    InterruptedHoldsIff(s1, t, []);
  }
}
