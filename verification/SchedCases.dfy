/** A run from boot in which a thread is told -EINTR and holds the mutex. */
module SchedCases {
  import opened Basics
  import opened Sched

  lemma {:induction false} RunMore(s: State, ops: seq<Op>, op: Op)
    requires Ok(s)
    ensures Run(s, ops + [op]) == Next(Run(s, ops), op)
    decreases |ops|
  {
    hide Ok, Next;
    if ops == [] {
      assert ops + [op] == [op] && [op][1..] == [];
    } else {
      assert (ops + [op])[1..] == ops[1..] + [op];
      RunMore(Next(s, ops[0]), ops[1..], op);
    }
  }

  /** Threads `a` and `b`, mutex `m`. */
  function World(a: nat, b: nat, m: nat, x: Thread, y: Thread, runq: seq<nat>, waitq: seq<nat>, cur: Option<nat>,
                 holder: Option<nat>,
                 locking: map<nat, LockCall>): State {
    State(map[a := x, b := y], map[RUNQ := runq, m := waitq], map[RUNQ := |runq|, m := |waitq|], cur,
          map[m := holder], locking)
  }

  const Fresh := Thread(NoState, None, false)
  const Queued := Thread(Runnable, Some(RUNQ), false)
  const Current := Thread(Runnable, None, false)

  function Making(a: nat, b: nat, m: nat): seq<Op> {
    [Create(a, false), Create(b, false), NewMutex(m)]
  }

  lemma Made(a: nat, b: nat, m: nat)
    requires a != b && m != RUNQ && Ok(Boot)
    ensures Run(Boot, Making(a, b, m)) == World(a, b, m, Fresh, Fresh, [], [], None, None, map[])
  {
    hide Ok;
    var none: seq<Op> := [];
    RunMore(Boot, none, Create(a, false));
    assert none + [Create(a, false)] == [Create(a, false)];
    RunMore(Boot, [Create(a, false)], Create(b, false));
    var two := [Create(a, false), Create(b, false)];
    assert [Create(a, false)] + [Create(b, false)] == two;
    assert Run(Boot, two).threads == map[a := Fresh, b := Fresh];
    RunMore(Boot, two, NewMutex(m));
    assert two + [NewMutex(m)] == Making(a, b, m);
  }

  lemma StartForm(s: State, t: nat)
    requires Ok(s) && RUNQ in s.queues && RUNQ in s.sizes && t in s.threads && s.threads[t].state == NoState
    ensures Next(s, Start(t)) == Ready(s, t)
  {
    hide Ok;
  }

  lemma YieldForm(s: State, t: nat)
    requires Ok(s) && s.cur == Some(t) && t in s.threads && RUNQ in s.queues && RUNQ in s.sizes
    ensures Next(s, Yield) == Enqueue(s, RUNQ, t, Runnable).(cur := None)
  {
    hide Ok, SchedOk;
    OkSched(s);
  }

  lemma LockForm(s: State, m: nat)
    requires Ok(s) && s.cur.Some? && m in s.holder && s.holder[m] == None
    ensures Next(s, Lock(m)) == s.(holder := s.holder[m := s.cur])
  {
    hide Ok, SchedOk;
    OkSched(s);
  }

  lemma WaitForm(s: State, m: nat, t: nat)
    requires Ok(s) && s.cur == Some(t) && t in s.threads && !s.threads[t].cancelled
    requires m in s.holder && s.holder[m].Some? && s.holder[m] != s.cur && m in s.queues && m in s.sizes
    ensures Next(s, LockCancellable(m)) ==
            Enqueue(s, m, t, AsleepCancellable).(cur := None, locking := s.locking[t := LockCall(m, true)])
  {
    hide Ok, SchedOk;
    OkSched(s);
  }

  lemma PutFirst<V>(a: nat, b: nat, x: V, y: V, z: V)
    requires a != b
    ensures map[a := x, b := y][a := z] == map[a := z, b := y]
    ensures map[a := x, b := y][b := z] == map[a := x, b := z]
  {
  }

  /** A thread of two joins a queue of two. */
  lemma Joins(a: nat, b: nat, m: nat, x: Thread, y: Thread, runq: seq<nat>, waitq: seq<nat>, cur: Option<nat>,
              h: Option<nat>,
              l: map<nat, LockCall>, t: nat, q: nat, st: TState)
    requires a != b && m != RUNQ && (t == a || t == b) && (q == RUNQ || q == m)
    ensures var z := (if t == a then x else y).(wchan := Some(q), state := st);
            Enqueue(World(a, b, m, x, y, runq, waitq, cur, h, l), q, t, st) ==
            World(a, b, m, if t == a then z else x, if t == b then z else y,
                  if q == RUNQ then runq + [t] else runq, if q == m then waitq + [t] else waitq, cur, h, l)
  {
    var z := (if t == a then x else y).(wchan := Some(q), state := st);
    PutFirst(a, b, x, y, z);
    PutFirst(RUNQ, m, runq, waitq, (if q == RUNQ then runq else waitq) + [t]);
    PutFirst(RUNQ, m, |runq|, |waitq|, |if q == RUNQ then runq else waitq| + 1);
  }

  /** The first of two threads is dispatched. */
  lemma Leaves(a: nat, b: nat, m: nat, x: Thread, y: Thread, runq: seq<nat>, waitq: seq<nat>, h: Option<nat>,
               l: map<nat, LockCall>, t: nat)
    requires a != b && m != RUNQ && (t == a || t == b) && runq != [] && runq[0] == t && t !in l
    ensures var z := (if t == a then x else y).(wchan := None);
            Unlink(World(a, b, m, x, y, runq, waitq, None, h, l), RUNQ, 0).(cur := Some(t), locking := l - {t}) ==
            World(a, b, m, if t == a then z else x, if t == b then z else y, runq[1..], waitq, Some(t), h, l)
  {
    var z := (if t == a then x else y).(wchan := None);
    PutFirst(a, b, x, y, z);
    assert Without(runq, 0) == runq[1..];
    PutFirst(RUNQ, m, runq, waitq, runq[1..]);
    PutFirst(RUNQ, m, |runq|, |waitq|, |runq| - 1);
    assert l - {t} == l;
  }

  lemma BothStart(a: nat, b: nat, m: nat, s: State)
    requires a != b && m != RUNQ && Ok(s) && s == World(a, b, m, Fresh, Fresh, [], [], None, None, map[])
    ensures Next(Next(s, Start(a)), Start(b)) == World(a, b, m, Queued, Queued, [a, b], [], None, None, map[])
  {
    hide Ok, Next, Enqueue;
    assert [] + [a] == [a] && [a] + [b] == [a, b];
    StartForm(s, a);
    Joins(a, b, m, Fresh, Fresh, [], [], None, None, map[], a, RUNQ, Runnable);
    StartForm(Next(s, Start(a)), b);
    Joins(a, b, m, Queued, Fresh, [a], [], None, None, map[], b, RUNQ, Runnable);
  }

  lemma FirstLocks(a: nat, b: nat, m: nat, s: State)
    requires a != b && m != RUNQ && Ok(s) && s == World(a, b, m, Queued, Queued, [a, b], [], None, None, map[])
    ensures Next(Next(s, Dispatch), Lock(m)) == World(a, b, m, Current, Queued, [b], [], Some(a), Some(a), map[])
  {
    hide Ok, Next, Unlink;
    DispatchForm(s, a);
    assert [a, b][1..] == [b];
    Leaves(a, b, m, Queued, Queued, [a, b], [], None, map[], a);
    LockForm(Next(s, Dispatch), m);
    assert map[m := None][m := Some(a)] == map[m := Some(a)];
  }

  lemma FirstYields(a: nat, b: nat, m: nat, s: State)
    requires a != b && m != RUNQ && Ok(s) && s == World(a, b, m, Current, Queued, [b], [], Some(a), Some(a), map[])
    ensures Next(Next(s, Yield), Dispatch) == World(a, b, m, Queued, Current, [a], [], Some(b), Some(a), map[])
  {
    hide Ok, Next, Unlink, Enqueue;
    assert [b] + [a] == [b, a] && [b, a][1..] == [a];
    YieldForm(s, a);
    Joins(a, b, m, Current, Queued, [b], [], Some(a), Some(a), map[], a, RUNQ, Runnable);
    DispatchForm(Next(s, Yield), b);
    Leaves(a, b, m, Queued, Queued, [b, a], [], Some(a), map[], b);
  }

  lemma SecondWaits(a: nat, b: nat, m: nat, s: State)
    requires a != b && m != RUNQ && Ok(s) && s == World(a, b, m, Queued, Current, [a], [], Some(b), Some(a), map[])
    ensures Next(Next(s, LockCancellable(m)), Dispatch) ==
            World(a, b, m, Current, Thread(AsleepCancellable, Some(m), false), [], [b], Some(a), Some(a),
                  map[b := LockCall(m, true)])
  {
    hide Ok, Next, Unlink, Enqueue;
    var call := map[b := LockCall(m, true)];
    assert [] + [b] == [b] && [a][1..] == [];
    WaitForm(s, m, b);
    Joins(a, b, m, Queued, Current, [a], [], Some(b), Some(a), map[], b, m, AsleepCancellable);
    DispatchForm(Next(s, LockCancellable(m)), a);
    Leaves(a, b, m, Queued, Thread(AsleepCancellable, Some(m), false), [a], [b], Some(a), call, a);
  }

  /** `a` locks the mutex and yields; `b` waits for it, cancellably; `a` runs again,
      unlocks, and cancels `b`. */
  function Unlucky(a: nat, b: nat, m: nat): seq<Op> {
    Making(a, b, m) + [Start(a)] + [Start(b)] + [Dispatch] + [Lock(m)] + [Yield] + [Dispatch] + [LockCancellable(m)]
      + [Dispatch]
      + [Unlock(m)] + [Cancel(b)]
  }

  lemma RunTwoMore(ops: seq<Op>, x: Op, y: Op)
    requires Ok(Boot)
    ensures Run(Boot, ops + [x] + [y]) == Next(Next(Run(Boot, ops), x), y)
  {
    hide Ok, Next;
    RunMore(Boot, ops, x);
    RunMore(Boot, ops + [x], y);
  }

  /** In that run `b` is told -EINTR and holds the mutex. */
  lemma InterruptedHolder(a: nat, b: nat, m: nat)
    requires a != b && m != RUNQ
    ensures Ok(Boot)
    ensures var s := Run(Boot, Unlucky(a, b, m));
            b in s.locking && b in s.threads && m in s.holder && !LockResult(s, b) && s.holder[m] == Some(b)
  {
    hide Ok, Next, Run;
    BootRunOk([]);
    Made(a, b, m);
    var ops := Making(a, b, m);
    RunTwoMore(ops, Start(a), Start(b));
    BothStart(a, b, m, Run(Boot, ops));
    var ops1 := ops + [Start(a)] + [Start(b)];
    RunTwoMore(ops1, Dispatch, Lock(m));
    FirstLocks(a, b, m, Run(Boot, ops1));
    var ops2 := ops1 + [Dispatch] + [Lock(m)];
    RunTwoMore(ops2, Yield, Dispatch);
    FirstYields(a, b, m, Run(Boot, ops2));
    var ops3 := ops2 + [Yield] + [Dispatch];
    RunTwoMore(ops3, LockCancellable(m), Dispatch);
    SecondWaits(a, b, m, Run(Boot, ops3));
    var ops4 := ops3 + [LockCancellable(m)] + [Dispatch];
    RunTwoMore(ops4, Unlock(m), Cancel(b));
    HandOffThenCancel(Run(Boot, ops4), m);
  }
}
