/**
  What a monitor built on a condition variable may rely on: a condition that nobody waits on
  with a time-out changes only by the monitor's own waits, signals and broadcasts.
 */
module CondClients {
  import opened Options
  import opened DeltaList
  import opened Scheduler
  import opened SchedulerInvariant
  import opened SchedulerEffects
  import opened SchedulerRuns

  /** Does the call leave condition c alone? */
  predicate Spares(op: Op, c: nat) {
    match op
    case OpCondWait(k) => k != c
    case OpCondTimedWait(k, _) => k != c
    case OpCondSignal(k) => k != c
    case OpCondBroadcast(k) => k != c
    case _ => true
  }

  predicate OnCond(s: State, c: nat, t: Tid) {
    t in s.tasks && s.tasks[t].place == On(CondQ(c))
  }

  predicate IsReady(s: State, t: Tid) {
    t in s.tasks && s.tasks[t].place == On(Ready)
  }

  /** Every waiter on c waits without a time-out. */
  ghost predicate Untimed(s: State, c: nat) {
    forall t :: OnCond(s, c, t) ==> !s.tasks[t].flags.timeout
  }

  /** A task parked on c without a timer stays parked through any call that spares c. */
  lemma StaysParked(s: State, op: Op, c: nat, t: Tid)
    requires Inv(s) && Enabled(s, op) && Spares(op, c) && OnCond(s, c, t) && !s.tasks[t].flags.timeout
    ensures OnCond(Step(s, op), c, t) && !Step(s, op).tasks[t].flags.timeout
  {
    NotRunning(s, t);
    StepTcb(s, op, t);
    if t in Readied(s, op) { ReadiedFromCond(s, op, t, c); }
    hide Inv, Step, Readied;
  }

  lemma NotRunning(s: State, t: Tid)
    requires Inv(s) && t in s.tasks && s.tasks[t].place != On(Ready)
    ensures t != s.current
  {
    RunningIsReady(s);
  }

  lemma ReadiedFromCond(s: State, op: Op, t: Tid, c: nat)
    requires Inv(s) && Enabled(s, op) && OnCond(s, c, t) && t in Readied(s, op)
    ensures !Spares(op, c) || (op.OpTickle? && s.tasks[t].flags.timeout)
  {
    WaiterReadied(s, op, t, CondQ(c));
    hide Inv;
  }

  /** Nobody joins c, and nobody already elsewhere appears on it. */
  lemma NobodyJoins(s: State, op: Op, c: nat, t: Tid)
    requires Inv(s) && Enabled(s, op) && Spares(op, c) && OnCond(Step(s, op), c, t)
    ensures OnCond(s, c, t) && Step(s, op).tasks[t].flags == s.tasks[t].flags
  {
    hide Core, Step, TcbAfter;
    if t in s.tasks && !(op == OpExit && t == s.current) {
      StepTcb(s, op, t);
      PlaceAfter(s, op, t, c);
    } else {
      NotCreated(s, op, t);
    }
  }

  lemma PlaceAfter(s: State, op: Op, t: Tid, c: nat)
    requires Spares(op, c) && TcbAfter(s, op, t).place == On(CondQ(c))
    ensures Task(s, t).place == On(CondQ(c)) && TcbAfter(s, op, t).flags == Task(s, t).flags
  {
    hide Readied, Satisfied;
  }

  lemma NotCreated(s: State, op: Op, t: Tid)
    requires Inv(s) && Enabled(s, op) && t in Step(s, op).tasks
    requires t !in s.tasks || (op == OpExit && t == s.current)
    ensures IsReady(Step(s, op), t) && op.OpCreate?
  {
    StepTasks(s, op);
  }

  function KeysAfter(s: State, op: Op): set<Tid> {
    match op
    case OpCreate(t, _) => s.tasks.Keys + {t}
    case OpExit => s.tasks.Keys - {s.current}
    case _ => s.tasks.Keys
  }

  /** The set of tasks changes only by creation and exit. */
  lemma StepTasks(s: State, op: Op)
    requires Inv(s) && Enabled(s, op)
    ensures Step(s, op).tasks.Keys == KeysAfter(s, op)
  {
    hide Core, Park, Woken, Sched;
    if Blocks(s, op) {
      BlockingTasks(s, op);
    } else {
      match op
      case OpCondBroadcast(c) => SignalsTasks(s, c, |Queue(s, CondQ(c))|);
      case OpTickle(gap) => TickleTasks(s, gap);
      case OpCondSignal(c) => if Queue(s, CondQ(c)) != [] { SignalTasks(s, c); }
      case OpMutexUnlock(m) => UnlockTasks(s, m);
      case OpSemPost(x) => PostTasks(s, x);
      case OpEventWait(ev, any, timeout) => RunningIsReady(s);
      case OpResume(t) => WokenKeys(s, t, Task(s, t).(flags := Task(s, t).flags.(suspended := false)), s.wadog);
      case OpEventPost(t, ev) => EventPostTasks(s, t, ev);
      case OpSchedYield => YieldTasks(s);
      case _ =>
    }
  }

  lemma YieldTasks(s: State)
    ensures SchedYield(s).tasks == s.tasks
  {
  }

  lemma WokenKeys(s: State, t: Tid, tcb: Tcb, w: seq<Entry>)
    requires t in s.tasks
    ensures Woken(s, t, tcb, w).tasks.Keys == s.tasks.Keys
  {
  }

  lemma BlockingTasks(s: State, op: Op)
    requires Inv(s) && Blocks(s, op)
    ensures Step(s, op).tasks.Keys == s.tasks.Keys
  {
    BlockingIsPark(s, op);
    RunningIsReady(s);
    hide Step, Inv, ParkTcb, Without, Before, Inserted;
  }

  lemma EventPostTasks(s: State, t: Tid, events: set<nat>)
    requires t in s.tasks
    ensures EventPost(s, t, events).tasks.Keys == s.tasks.Keys
  {
  }

  lemma UnlockTasks(s: State, m: nat)
    requires Inv(s) && m in s.mutexes
    ensures MutexUnlock(s, m).tasks.Keys == s.tasks.Keys
  {
    if s.mutexes[m] == Mutex(Some(s.current), 1) && s.queues[MutexQ(m)] != [] { HandoffWakes(s, m); }
  }

  lemma PostTasks(s: State, x: nat)
    requires Inv(s) && x in s.sems
    ensures SemPost(s, x).tasks.Keys == s.tasks.Keys
  {
    if s.queues[SemQ(x)] != [] { GrantWakes(s, x); }
  }

  lemma {:induction false} SignalsTasks(s: State, c: nat, n: nat)
    requires Inv(s) && CondQ(c) in s.queues && n <= |s.queues[CondQ(c)]|
    ensures Signals(s, c, n).tasks.Keys == s.tasks.Keys
    decreases n
  {
    hide Core;
    if n > 0 {
      CondSignalShrinks(s, c);
      SignalTasks(s, c);
      SignalsTasks(CondSignal(s, c), c, n - 1);
    }
  }

  lemma SignalTasks(s: State, c: nat)
    requires Inv(s) && CondQ(c) in s.queues && s.queues[CondQ(c)] != []
    ensures CondSignal(s, c).tasks.Keys == s.tasks.Keys
  {
    CondSignalMoves(s, c);
  }

  lemma {:induction false} TickleTasks(s: State, gap: int)
    requires Inv(s)
    ensures Tickle(s, gap).tasks.Keys == s.tasks.Keys
    decreases |s.wadog|
  {
    hide Core;
    if s.wadog != [] && s.wadog[0].delta <= gap {
      FireTasks(s);
      hide Fire;
      TickleTasks(Fire(s), gap);
    }
  }

  lemma FireTasks(s: State)
    requires Inv(s) && s.wadog != []
    ensures Inv(Fire(s)) && Fire(s).tasks.Keys == s.tasks.Keys && Fire(s).wadog == s.wadog[1..]
  {
    FireInv(s);
    assert Has(s.wadog, s.wadog[0].task);
  }

  /** So the whole queue of c is untouched by such a call. */
  lemma SparedQueue(s: State, op: Op, c: nat)
    requires Inv(s) && Enabled(s, op) && Spares(op, c) && CondQ(c) in s.queues && Untimed(s, c)
    ensures CondQ(c) in Step(s, op).queues && Step(s, op).queues[CondQ(c)] == s.queues[CondQ(c)]
    ensures Untimed(Step(s, op), c)
  {
    StepQueue(s, op, CondQ(c));
    hide Core, Step;
    if op.OpTickle? { NoneExpire(s, op.gap, c); }
    forall t | OnCond(Step(s, op), c, t) ensures !Step(s, op).tasks[t].flags.timeout {
      NobodyJoins(s, op, c, t);
    }
  }

  lemma {:induction false} NoneExpire(s: State, gap: int, c: nat)
    requires Inv(s) && Untimed(s, c)
    ensures Expired(s, gap, CondQ(c)) == []
    decreases |s.wadog|
  {
    hide Core;
    if s.wadog != [] && s.wadog[0].delta <= gap {
      FireUntimed(s, c);
      hide Fire;
      NoneExpire(Fire(s), gap, c);
    }
  }

  lemma FireUntimed(s: State, c: nat)
    requires Inv(s) && Untimed(s, c) && s.wadog != []
    ensures Inv(Fire(s)) && Untimed(Fire(s), c) && |Fire(s).wadog| < |s.wadog|
    ensures Task(s, s.wadog[0].task).place != On(CondQ(c))
  {
    FireInv(s);
    FireTasks(s);
    var h := s.wadog[0].task;
    assert Has(s.wadog, h);
    assert !OnCond(s, c, h);
    forall t | OnCond(Fire(s), c, t) ensures !Fire(s).tasks[t].flags.timeout {
      FireTcb(s, t);
      assert OnCond(s, c, t);
    }
  }

  // ----- the monitor's own calls ------------------------------------------------------

  /** A wait moves the caller, and only it, from the ready list to the condition. */
  lemma WaitEffect(s: State, c: nat, t: Tid)
    requires Inv(s) && s.current != s.main && CondQ(c) in s.queues
    ensures var r := Step(s, OpCondWait(c));
      && (IsReady(r, t) <==> IsReady(s, t) && t != s.current)
      && (forall k :: OnCond(r, k, t) <==> OnCond(s, k, t) || (t == s.current && k == c))
      && (t in r.tasks && t != s.current ==> t in s.tasks && r.tasks[t] == s.tasks[t])
      && (t == s.current ==> t in r.tasks && !r.tasks[t].flags.timeout)
  {
    StepTasks(s, OpCondWait(c));
    RunningIsReady(s);
    if t in s.tasks { StepTcb(s, OpCondWait(c), t); }
    hide Core, Step;
  }

  /** A signal moves the first waiter, and only it, to the ready list. */
  lemma SignalEffect(s: State, c: nat, t: Tid)
    requires Inv(s) && CondQ(c) in s.queues
    ensures var r := Step(s, OpCondSignal(c));
            var first := s.queues[CondQ(c)] != [] && t == s.queues[CondQ(c)][0];
      && (first ==> OnCond(s, c, t))
      && (IsReady(r, t) <==> IsReady(s, t) || first)
      && (forall k :: OnCond(r, k, t) <==> OnCond(s, k, t) && !first)
      && (t in r.tasks && !first ==> t in s.tasks && r.tasks[t] == s.tasks[t])
  {
    StepTasks(s, OpCondSignal(c));
    if s.queues[CondQ(c)] != [] {
      var h := s.queues[CondQ(c)][0];
      assert OnCond(s, c, h);
    }
    if t in s.tasks { StepTcb(s, OpCondSignal(c), t); }
    hide Core, Step;
  }

  /** A broadcast moves every waiter to the ready list. */
  lemma BroadcastEffect(s: State, c: nat, t: Tid)
    requires Inv(s) && CondQ(c) in s.queues
    ensures var r := Step(s, OpCondBroadcast(c));
      && (IsReady(r, t) <==> IsReady(s, t) || OnCond(s, c, t))
      && (forall k :: OnCond(r, k, t) <==> OnCond(s, k, t) && k != c)
      && (t in r.tasks && !OnCond(s, c, t) ==> t in s.tasks && r.tasks[t] == s.tasks[t])
  {
    StepTasks(s, OpCondBroadcast(c));
    assert t in s.queues[CondQ(c)] <==> OnCond(s, c, t);
    if t in s.tasks { StepTcb(s, OpCondBroadcast(c), t); }
    hide Core, Step;
  }
}
