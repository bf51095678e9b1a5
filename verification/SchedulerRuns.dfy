/**
  Theorems over every run of the 1:N run-time system: where tasks are, bounded bypass,
  what an unlucky yield does, return codes, and the end of the scheduler loop.
 */
module SchedulerRuns {
  import opened Options
  import opened DeltaList
  import opened Scheduler
  import opened SchedulerInvariant
  import opened SchedulerEffects

  // ----- flags tell where a task is -------------------------------------------

  /** The flags of t say exactly which chain holds it, and whether a timer does. */
  ghost predicate Located(s: State, t: Tid)
    requires t in s.tasks
  {
    var f := s.tasks[t].flags;
    && (t in Queue(s, Ready) <==> f == READY)
    && ((exists m :: t in Queue(s, MutexQ(m))) <==> f.mutex)
    && ((exists x :: t in Queue(s, SemQ(x))) <==> f.sem)
    && ((exists c :: t in Queue(s, CondQ(c))) <==> f.cond)
    && (f.suspended || f.usleep || f.event ==> forall q :: t !in Queue(s, q))
    && (forall p, q :: t in Queue(s, p) && t in Queue(s, q) ==> p == q)
    && (Has(s.wadog, t) <==> f.timeout)
    && (f.timeout ==> Wakeable(f))
  }

  lemma InvLocates(s: State, t: Tid)
    requires Inv(s) && t in s.tasks
    ensures Located(s, t)
  {
    var k := s.tasks[t];
    assert Agree(k);
    forall q ensures t in Queue(s, q) <==> k.place == On(q) { }
    if k.place.On? {
      var q := k.place.q;
      assert t in Queue(s, q);
      match q
      case MutexQ(m) => assert t in Queue(s, MutexQ(m));
      case SemQ(x) => assert t in Queue(s, SemQ(x));
      case CondQ(c) => assert t in Queue(s, CondQ(c));
      case Ready =>
    }
  }

  /** In every reachable state every live task is exactly where its flags say. */
  lemma ReachableLocated(main: Tid, stale: Tcb, ops: seq<Op>, t: Tid)
    requires EnabledRun(Boot(main, stale), ops) && t in Run(Boot(main, stale), ops).tasks
    ensures Located(Run(Boot(main, stale), ops), t)
  {
    BootInv(main, stale);
    RunInv(Boot(main, stale), ops);
    hide Inv, Located;
    InvLocates(Run(Boot(main, stale), ops), t);
  }

  /** In every reachable state the maintask closes the ready list and the running task is on it. */
  lemma ReachableMainLast(main: Tid, stale: Tcb, ops: seq<Op>)
    requires EnabledRun(Boot(main, stale), ops)
    ensures var s := Run(Boot(main, stale), ops);
      && Queue(s, Ready) == Others(s) + [s.main] && s.main !in Others(s)
      && s.current in Queue(s, Ready)
  {
    BootInv(main, stale);
    RunInv(Boot(main, stale), ops);
    hide Run, EnabledRun, Boot, Inv;
    MainIsLast(Run(Boot(main, stale), ops));
  }

  lemma MainIsLast(s: State)
    requires Inv(s)
    ensures Queue(s, Ready) == Others(s) + [s.main] && s.main !in Others(s) && s.current in Queue(s, Ready)
  {
    OthersNoDup(s);
  }

  /** The scheduler loop leaves only when the maintask is the last live task. */
  lemma LoopExitsAlone(main: Tid, stale: Tcb, ops: seq<Op>)
    requires EnabledRun(Boot(main, stale), ops)
    ensures var s := Run(Boot(main, stale), ops);
      s.nLocal == 1 <==> s.tasks.Keys == {s.main}
  {
    BootInv(main, stale);
    RunInv(Boot(main, stale), ops);
    hide Run, EnabledRun, Boot, Inv;
    AloneIff(Run(Boot(main, stale), ops));
  }

  lemma AloneIff(s: State)
    requires Inv(s)
    ensures s.nLocal == 1 <==> s.tasks.Keys == {s.main}
  {
    assert s.main in s.queues[Ready];
    var rest := s.tasks.Keys - {s.main};
    assert |s.tasks.Keys| == |rest| + 1;
    assert |rest| == 0 <==> rest == {};
  }

  // ----- yielding -----------------------------------------------------------------

  /**
    A yield hands the processor to another task iff another fiber is ready. In particular a
    fiber alone with the maintask keeps running, so the watchdog is not ticked meanwhile.
   */
  lemma YieldSwitchesIff(s: State)
    requires Inv(s)
    ensures SchedYield(s).current != s.current <==> exists t :: t in Others(s) && t != s.current
  {
    YieldRotates(s);
    NotMainAll(s);
    WithoutEmptyIff(Others(s), s.current);
    hide Inv, SchedYield, Others, Without;
  }

  lemma NotMainAll(s: State)
    requires Inv(s)
    ensures s.main !in Others(s) && NoDup(Others(s))
    ensures s.current == s.main ==> Without(Others(s), s.current) == Others(s)
  {
    OthersNoDup(s);
    if s.current == s.main { WithoutMissing(Others(s), s.main); }
  }

  lemma {:induction false} WithoutMissing(q: seq<Tid>, t: Tid)
    requires t !in q
    ensures Without(q, t) == q
  {
    if q != [] { WithoutMissing(q[1..], t); }
  }

  lemma WithoutEmptyIff(q: seq<Tid>, t: Tid)
    requires NoDup(q)
    ensures Without(q, t) != [] <==> exists x :: x in q && x != t
    ensures Without(q, t) != [] ==> Without(q, t)[0] != t
  {
    WithoutFacts(q, t);
    var w := Without(q, t);
    hide Without;
    if w != [] { assert w[0] in w; }
    if x :| x in q && x != t { assert x in w; }
  }

  /** The comment in fiber_sched claims the opposite: here the caller is not the maintask. */
  lemma LoneFiberKeepsRunning()
    ensures var s := Run(Boot(0, BLANK), [OpCreate(1, BLANK), OpSchedYield]);
      && EnabledRun(Boot(0, BLANK), [OpCreate(1, BLANK), OpSchedYield, OpSchedYield])
      && s.current == 1 && s.main == 0
      && SchedYield(s) == s
  {
    var b := Boot(0, BLANK);
    var ops := [OpCreate(1, BLANK), OpSchedYield, OpSchedYield];
    var c := Create(b, 1, BLANK);
    assert c.queues[Ready] == [1, 0];
    assert [1, 0][1..] == [0];
    var d := SchedYield(c);
    assert Without([1, 0], 0) == [1] + Without([0], 0) == [1];
    assert [1] + [0] == [1, 0];
    assert d.current == 1 && d.queues[Ready] == Before([0], 0, 1) == [1, 0];
    assert Without([1, 0], 1) == [0];
    assert d.queues[Ready := [1, 0]] == d.queues;
    assert ops[1..] == [OpSchedYield, OpSchedYield] && ops[1..][1..] == [OpSchedYield] && ops[1..][1..][1..] == [];
    var o2 := [OpCreate(1, BLANK), OpSchedYield];
    assert o2[1..] == [OpSchedYield] && o2[1..][1..] == [];
    assert EnabledRun(SchedYield(d), []);
    assert EnabledRun(d, [OpSchedYield]);
    assert EnabledRun(c, ops[1..]);
    assert Run(c, o2[1..]) == Run(d, []) == d;
    assert Run(b, o2) == d;
  }

  // ----- bounded bypass --------------------------------------------------------------

  function Idx(q: seq<Tid>, t: Tid): nat {
    if q == [] || q[0] == t then 0 else 1 + Idx(q[1..], t)
  }

  lemma {:induction false} IdxAppend(q: seq<Tid>, r: seq<Tid>, t: Tid)
    requires t in q
    ensures Idx(q + r, t) == Idx(q, t)
  {
    if q[0] != t {
      IdxAppend(q[1..], r, t);
      assert (q + r)[1..] == q[1..] + r;
    }
  }

  lemma {:induction false} IdxWithout(q: seq<Tid>, c: Tid, t: Tid)
    requires t in q && c != t
    ensures t in Without(q, c) && Idx(Without(q, c), t) <= Idx(q, t)
  {
    if q[0] != t && q[0] != c {
      IdxWithout(q[1..], c, t);
      assert Without(q, c)[1..] == Without(q[1..], c);
    }
  }

  /**
    One call, seen by a ready task t that is not running: either t runs next, or it is
    still ready and no further back; if the call reschedules, it is strictly nearer the front.
   */
  lemma BypassStep(s: State, op: Op, t: Tid)
    requires Inv(s) && Enabled(s, op) && t in Others(s) && t != s.current
    ensures var r := Step(s, op);
      || r.current == t
      || (t in Others(r) && t != r.current && Idx(Others(r), t) <= Idx(Others(s), t) &&
          (CallsSched(s, op) ==> Idx(Others(r), t) < Idx(Others(s), t)))
  {
    hide Core;
    if CallsSched(s, op) {
      StepRotates(s, op);
      IdxWithout(Others(s), s.current, t);
      var o := Lineup(s, op);
      IdxAppend(Without(Others(s), s.current), [s.current], t);
      hide Step, Others, Lineup, Blocks;
      assert t in o && Idx(o, t) <= Idx(Others(s), t);
      if o[0] != t {
        IdxAppend(o[1..], [o[0]], t);
      }
    } else if op == OpExit {
      ExitReady(s);
      IdxWithout(Others(s), s.current, t);
      NotMain(s, t);
    } else {
      StepReady(s, op);
      IdxAppend(Others(s), Readied(s, op), t);
    }
  }

  lemma NotMain(s: State, t: Tid)
    requires Inv(s) && t in Others(s)
    ensures t != s.main
  {
    OthersNoDup(s);
  }

  function SchedCalls(s: State, ops: seq<Op>): nat
    decreases |ops|
  {
    if ops == [] then 0
    else (if CallsSched(s, ops[0]) then 1 else 0) + SchedCalls(Step(s, ops[0]), ops[1..])
  }

  /**
    Bounded bypass: whatever is created, woken, blocked or ended meanwhile, a ready fiber at
    position i runs before i+1 rescheduling calls have gone by.
   */
  lemma {:induction false} BoundedBypass(s: State, ops: seq<Op>, t: Tid)
    requires Inv(s) && EnabledRun(s, ops) && t in Others(s) && t != s.current
    requires SchedCalls(s, ops) > Idx(Others(s), t)
    ensures exists k :: 0 < k <= |ops| && Run(s, ops[..k]).current == t
    decreases |ops|
  {
    hide Inv, CallsSched, Others, Idx;
    BypassStep(s, ops[0], t);
    StepInv(s, ops[0]);
    var r := Step(s, ops[0]);
    hide Step;
    if r.current == t {
      assert ops[..1] == [ops[0]] && ops[..1][1..] == [];
      assert Run(s, ops[..1]) == Run(r, []);
      assert Run(s, ops[..1]).current == t;
    } else {
      BoundedBypass(r, ops[1..], t);
      var k :| 0 < k <= |ops[1..]| && Run(r, ops[1..][..k]).current == t;
      assert ops[..k + 1][1..] == ops[1..][..k];
      assert Run(s, ops[..k + 1]).current == t;
    }
  }

  // ----- return codes -------------------------------------------------------------------

  predicate InTimedWait(s: State, t: Tid, q: Qid) {
    t in s.tasks && s.tasks[t].flags.timeout && s.tasks[t].place == On(q)
  }

  /** A timed waiter on a semaphore or condition is released with code 1, timed out with code 0. */
  lemma WakeCode(s: State, op: Op, t: Tid, q: Qid)
    requires Inv(s) && Enabled(s, op) && InTimedWait(s, t, q)
    requires t in Step(s, op).tasks && Step(s, op).tasks[t].place == On(Ready)
    ensures op.OpTickle? <==> Step(s, op).tasks[t].code == 0
    ensures op.OpTickle? || Step(s, op).tasks[t].code == 1
    ensures !Has(Step(s, op).wadog, t)
  {
    hide Core, Step, Enabled;
    AgreeAt(s, t);
    WaitStep(s, op, t, q);
    StepInv(s, op);
    ReadyIsUnarmed(Step(s, op), t);
  }

  lemma ReadyIsUnarmed(s: State, t: Tid)
    requires Inv(s) && t in s.tasks && s.tasks[t].place == On(Ready)
    ensures !Has(s.wadog, t)
  {
    assert Agree(s.tasks[t]);
  }

  lemma ReadiedPlace(s: State, op: Op, t: Tid)
    requires Inv(s) && Enabled(s, op) && t in s.tasks && t in Readied(s, op)
    ensures s.tasks[t].place != On(Ready)
    ensures op.OpMutexUnlock? ==> s.tasks[t].place == On(MutexQ(op.m))
    ensures op.OpResume? ==> s.tasks[t].place == Off
  {
    hide Core;
    AgreeAt(s, t);
    match op {
      case OpTickle(gap) => FiredIsArmed(s, gap, t);
      case OpMutexUnlock(m) => QueuedAt(s, MutexQ(m), t);
      case OpSemPost(x) => QueuedAt(s, SemQ(x), t);
      case OpCondSignal(c) => QueuedAt(s, CondQ(c), t);
      case OpCondBroadcast(c) => QueuedAt(s, CondQ(c), t);
      case _ =>
    }
  }

  /** A ready task that is not running keeps its whole control block but the event mailbox. */
  lemma ReadyUntouched(s: State, op: Op, t: Tid)
    requires Inv(s) && Enabled(s, op) && t in s.queues[Ready] && t != s.current
    ensures var r := Step(s, op);
      && Inv(r) && t in r.queues[Ready] && t in r.tasks && t in s.tasks
      && r.tasks[t] == s.tasks[t].(pending := r.tasks[t].pending)
  {
    StepInv(s, op);
    hide Step;
    ReadyTcb(s, op, t);
    var r := Step(s, op);
    assert r.tasks[t].place == On(Ready);
    assert t in r.queues[Ready];
  }

  lemma ReadyTcb(s: State, op: Op, t: Tid)
    requires Inv(s) && Enabled(s, op) && t in s.queues[Ready] && t != s.current
    ensures var r := Step(s, op);
      t in r.tasks && t in s.tasks && s.tasks[t].place == On(Ready) &&
      r.tasks[t] == s.tasks[t].(pending := r.tasks[t].pending)
  {
    assert s.tasks[t].place == On(Ready) && Agree(s.tasks[t]);
    StepTcb(s, op, t);
    if t in Readied(s, op) { ReadiedPlace(s, op, t); }
    hide Inv, Step, Readied;
  }

  /** Is t never running before the last state of the run? */
  ghost predicate NeverRuns(s: State, ops: seq<Op>, t: Tid)
    decreases |ops|
  {
    ops == [] || (s.current != t && NeverRuns(Step(s, ops[0]), ops[1..], t))
  }

  /** So the code a waiter was woken with is the code its call returns when it runs again. */
  lemma {:induction false} CodeKeptUntilRun(s: State, ops: seq<Op>, t: Tid)
    requires Inv(s) && EnabledRun(s, ops) && t in s.queues[Ready] && t in s.tasks && NeverRuns(s, ops, t)
    ensures t in Run(s, ops).tasks
    ensures Run(s, ops).tasks[t].code == s.tasks[t].code && Run(s, ops).tasks[t].seized == s.tasks[t].seized
    decreases |ops|
  {
    hide Core;
    if ops != [] {
      ReadyUntouched(s, ops[0], t);
      CodeKeptUntilRun(Step(s, ops[0]), ops[1..], t);
    }
  }

  // ----- what a blocked call returns ----------------------------------------------------

  /** The first call of the run that takes t off q. */
  ghost function Releaser(s: State, ops: seq<Op>, t: Tid, q: Qid): Option<Op>
    decreases |ops|
  {
    if ops == [] then None
    else if Task(Step(s, ops[0]), t).place != On(q) then Some(ops[0])
    else Releaser(Step(s, ops[0]), ops[1..], t, q)
  }

  /** The calls that release a waiter of q. */
  predicate Releases(op: Op, q: Qid) {
    match q
    case SemQ(x) => op == OpSemPost(x)
    case CondQ(c) => op == OpCondSignal(c) || op == OpCondBroadcast(c)
    case _ => false
  }

  predicate WaitsOn(s: State, t: Tid, q: Qid) {
    t in s.tasks && s.tasks[t].place == On(q) && (q.SemQ? || q.CondQ?)
  }

  /** One step of a wait: it goes on unchanged, or a release or, if timed, a tick makes it ready. */
  predicate WaitGoesOn(k: Tcb, op: Op, q: Qid, k2: Tcb) {
    if k2.place == On(q) then k2.flags == k.flags
    else
      && k2.place == On(Ready)
      && (Releases(op, q) || (op.OpTickle? && k.flags.timeout))
      && k2.code == if op.OpTickle? then 0 else 1
  }

  /** A call's effect on a task that is neither running nor waiting for events. */
  lemma TcbOfWaiter(s: State, op: Op, t: Tid)
    requires t in s.tasks && t != s.current && !s.tasks[t].flags.event
    ensures var k, k2 := s.tasks[t], TcbAfter(s, op, t);
      if t in Readied(s, op) then
        k2.place == On(Ready) && k2.code == if op.OpSemPost? || op.OpCondSignal? || op.OpCondBroadcast? then 1 else k.code
      else k2.place == k.place && k2.flags == k.flags
  {
    hide Satisfied, MoveOn;
  }

  lemma WaitTcb(s: State, op: Op, t: Tid, q: Qid)
    requires Inv(s) && Enabled(s, op) && WaitsOn(s, t, q)
    ensures t != s.current && WaitGoesOn(s.tasks[t], op, q, TcbAfter(s, op, t))
  {
    hide Core, Enabled;
    RunningIsReady(s);
    AgreeAt(s, t);
    TcbOfWaiter(s, op, t);
    if t in Readied(s, op) { WaiterReadied(s, op, t, q); }
    hide Readied, TcbAfter;
  }

  lemma WaitStep(s: State, op: Op, t: Tid, q: Qid)
    requires Inv(s) && Enabled(s, op) && WaitsOn(s, t, q)
    ensures var r := Step(s, op);
      && t in r.tasks && WaitGoesOn(s.tasks[t], op, q, r.tasks[t])
      && (r.tasks[t].place == On(Ready) ==> t in Queue(r, Ready))
  {
    WaitTcb(s, op, t, q);
    StepTcb(s, op, t);
    StepInv(s, op);
    hide Step, TcbAfter, Enabled, WaitGoesOn;
    PlacedOnReady(Step(s, op), t);
    hide Inv;
  }

  lemma PlacedOnReady(s: State, t: Tid)
    requires Inv(s) && t in s.tasks
    ensures s.tasks[t].place == On(Ready) ==> t in Queue(s, Ready)
  {
  }

  lemma WaiterReadied(s: State, op: Op, t: Tid, q: Qid)
    requires Inv(s) && Enabled(s, op) && WaitsOn(s, t, q) && t in Readied(s, op)
    ensures Releases(op, q) || (op.OpTickle? && s.tasks[t].flags.timeout)
  {
    hide Core;
    ReadiedPlace(s, op, t);
    AgreeAt(s, t);
    match op {
      case OpTickle(gap) => FiredIsArmed(s, gap, t);
      case OpSemPost(x) => QueuedAt(s, SemQ(x), t);
      case OpCondSignal(c) => QueuedAt(s, CondQ(c), t);
      case OpCondBroadcast(c) => QueuedAt(s, CondQ(c), t);
      case _ =>
    }
  }

  lemma FiredIsArmed(s: State, gap: int, t: Tid)
    requires Inv(s) && t in Readied(s, OpTickle(gap))
    ensures t in s.tasks && s.tasks[t].flags.timeout
  {
    OrderHas(Fired(s.wadog, gap), t);
    TickAt(s.wadog, gap, t);
  }

  lemma {:induction false} WaitReturns(s: State, ops: seq<Op>, t: Tid, q: Qid)
    requires Inv(s) && EnabledRun(s, ops) && WaitsOn(s, t, q) && NeverRuns(s, ops, t) && Run(s, ops).current == t
    ensures Releaser(s, ops, t, q).Some? && t in Run(s, ops).tasks
    ensures var end := Releaser(s, ops, t, q).value;
      && (Releases(end, q) <==> Run(s, ops).tasks[t].code == 1)
      && (end.OpTickle? <==> Run(s, ops).tasks[t].code == 0)
      && (end.OpTickle? ==> s.tasks[t].flags.timeout)
    decreases |ops|
  {
    RunningIsReady(s);
    if ops != [] {
      WaitStep(s, ops[0], t, q);
      StepInv(s, ops[0]);
      var r := Step(s, ops[0]);
      hide Inv, Step, Enabled;
      if r.tasks[t].place == On(q) {
        WaitReturns(r, ops[1..], t, q);
      } else {
        QueueOfReady(r);
        CodeKeptUntilRun(r, ops[1..], t);
      }
    }
  }

  /** The queue a timed wait joins. */
  function WaitQueue(op: Op): Qid
    requires op.OpSemTimedWait? || op.OpCondTimedWait?
  {
    if op.OpSemTimedWait? then SemQ(op.x) else CondQ(op.c)
  }

  lemma TimedCallParks(s: State, op: Op)
    requires Inv(s) && Enabled(s, op) && Blocks(s, op) && (op.OpSemTimedWait? || op.OpCondTimedWait?)
    ensures WaitsOn(Step(s, op), s.current, WaitQueue(op))
    ensures Step(s, op).tasks[s.current].flags.timeout <==> op.timeout > 0
  {
    RunningIsReady(s);
    StepTcb(s, op, s.current);
    hide Step, Inv;
  }

  /**
    A timed wait that blocks, from the call to its return: when the caller runs again it finds code
    1 iff a post, signal or broadcast on its object released it, and code 0 iff a tick did, which a
    call without a positive timeout never sees.
   */
  lemma TimedCallReturns(s: State, op: Op, ops: seq<Op>)
    requires Inv(s) && Enabled(s, op) && Blocks(s, op) && (op.OpSemTimedWait? || op.OpCondTimedWait?)
    requires var r := Step(s, op);
      EnabledRun(r, ops) && NeverRuns(r, ops, s.current) && Run(r, ops).current == s.current
    ensures var r, q := Step(s, op), WaitQueue(op);
      && Releaser(r, ops, s.current, q).Some? && s.current in Run(r, ops).tasks
      && (Releases(Releaser(r, ops, s.current, q).value, q) <==> Run(r, ops).tasks[s.current].code == 1)
      && (Releaser(r, ops, s.current, q).value.OpTickle? <==> Run(r, ops).tasks[s.current].code == 0)
      && (Releaser(r, ops, s.current, q).value.OpTickle? ==> op.timeout > 0)
  {
    TimedCallParks(s, op);
    StepInv(s, op);
    hide Inv, Step, Enabled, Blocks, Run, EnabledRun, NeverRuns;
    WaitReturns(Step(s, op), ops, s.current, WaitQueue(op));
  }

  // ----- what a blocked event wait returns ------------------------------------------------

  predicate WaitsForEvents(s: State, t: Tid) { t in s.tasks && s.tasks[t].flags.event }

  /** One step of an event wait: it goes on, or a post delivers a satisfying set, or a tick ends it with none. */
  predicate EventGoesOn(k: Tcb, op: Op, t: Tid, k2: Tcb) {
    if k2.flags.event then k2.wanted == k.wanted && k2.any == k.any && k2.flags == k.flags
    else
      && k2.place == On(Ready)
      && if op.OpTickle? then k.flags.timeout && k2.seized == {}
         else op.OpEventPost? && op.t == t && Delivers(k2.seized, k.wanted, k.any)
  }

  /** A non-empty part of the wanted set, all of it unless any bit will do. */
  predicate Delivers(seized: set<nat>, wanted: set<nat>, any: bool) {
    seized != {} && seized <= wanted && (seized == wanted || any)
  }

  lemma EventReadied(s: State, op: Op, t: Tid)
    requires Inv(s) && Enabled(s, op) && WaitsForEvents(s, t) && t in Readied(s, op)
    ensures (op.OpTickle? && s.tasks[t].flags.timeout) || (op.OpEventPost? && op.t == t)
  {
    hide Core;
    AgreeAt(s, t);
    match op {
      case OpTickle(gap) => FiredIsArmed(s, gap, t);
      case OpMutexUnlock(m) => QueuedAt(s, MutexQ(m), t);
      case OpSemPost(x) => QueuedAt(s, SemQ(x), t);
      case OpCondSignal(c) => QueuedAt(s, CondQ(c), t);
      case OpCondBroadcast(c) => QueuedAt(s, CondQ(c), t);
      case _ =>
    }
  }

  /** A call's effect on a task that waits for events and is not running. */
  lemma TcbOfEventWaiter(s: State, op: Op, t: Tid)
    requires WaitsForEvents(s, t) && t != s.current && s.tasks[t].seized == {}
    requires t in Readied(s, op) ==> (op.OpTickle? && s.tasks[t].flags.timeout) || (op.OpEventPost? && op.t == t)
    ensures EventGoesOn(s.tasks[t], op, t, TcbAfter(s, op, t))
  {
    if op.OpEventPost? && op.t == t {
      var k := s.tasks[t];
      var p := k.pending + op.events;
      assert Satisfied(p, k.wanted, k.any) ==> Delivers(p * k.wanted, k.wanted, k.any);
    }
    hide Satisfied, MoveOn;
  }

  lemma EventWaitStep(s: State, op: Op, t: Tid)
    requires Inv(s) && Enabled(s, op) && WaitsForEvents(s, t)
    ensures var r := Step(s, op);
      && t in r.tasks && EventGoesOn(s.tasks[t], op, t, r.tasks[t])
      && (r.tasks[t].place == On(Ready) ==> t in Queue(r, Ready))
  {
    hide Core, Step, Enabled, EventGoesOn, TcbAfter, Readied;
    RunningIsReady(s);
    AgreeAt(s, t);
    EventWaiterIs(s.tasks[t]);
    if t in Readied(s, op) { EventReadied(s, op, t); }
    TcbOfEventWaiter(s, op, t);
    StepTcb(s, op, t);
    StepInv(s, op);
    PlacedOnReady(Step(s, op), t);
  }

  lemma EventWaiterIs(k: Tcb)
    requires Agree(k) && k.flags.event
    ensures k.seized == {} && k.place == Off && k.flags != READY
  {
  }

  /** The first call of the run that ends the event wait of t. */
  ghost function EventEnder(s: State, ops: seq<Op>, t: Tid): Option<Op>
    decreases |ops|
  {
    if ops == [] then None
    else if !Task(Step(s, ops[0]), t).flags.event then Some(ops[0])
    else EventEnder(Step(s, ops[0]), ops[1..], t)
  }

  predicate PostsTo(op: Op, t: Tid) { op.OpEventPost? && op.t == t }

  lemma {:induction false} EventWaitReturns(s: State, ops: seq<Op>, t: Tid)
    requires Inv(s) && EnabledRun(s, ops) && WaitsForEvents(s, t) && NeverRuns(s, ops, t) && Run(s, ops).current == t
    ensures EventEnder(s, ops, t).Some? && t in Run(s, ops).tasks
    ensures var end, got := EventEnder(s, ops, t).value, Run(s, ops).tasks[t].seized;
      && (PostsTo(end, t) <==> got != {})
      && (end.OpTickle? <==> got == {})
      && (got != {} ==> Delivers(got, s.tasks[t].wanted, s.tasks[t].any))
      && (end.OpTickle? ==> s.tasks[t].flags.timeout)
    decreases |ops|
  {
    RunningIsReady(s);
    if ops != [] {
      EventWaitStep(s, ops[0], t);
      StepInv(s, ops[0]);
      var r := Step(s, ops[0]);
      hide Inv, Step, Enabled;
      if r.tasks[t].flags.event {
        EventWaitReturns(r, ops[1..], t);
      } else {
        QueueOfReady(r);
        CodeKeptUntilRun(r, ops[1..], t);
      }
    }
  }

  /**
    An event wait that blocks, from the call to its return: the caller finds a seized set that
    satisfies its request iff a post to it ended the wait, and none iff a tick did, which a call
    without a positive timeout never sees.
   */
  lemma EventCallReturns(s: State, op: Op, ops: seq<Op>)
    requires Inv(s) && op.OpEventWait? && Enabled(s, op) && Blocks(s, op)
    requires var r := Step(s, op);
      EnabledRun(r, ops) && NeverRuns(r, ops, s.current) && Run(r, ops).current == s.current
    ensures var r, t := Step(s, op), s.current;
      && EventEnder(r, ops, t).Some? && t in Run(r, ops).tasks
      && (PostsTo(EventEnder(r, ops, t).value, t) <==> Run(r, ops).tasks[t].seized != {})
      && (EventEnder(r, ops, t).value.OpTickle? <==> Run(r, ops).tasks[t].seized == {})
      && (Run(r, ops).tasks[t].seized != {} ==> Delivers(Run(r, ops).tasks[t].seized, op.events, op.any))
      && (EventEnder(r, ops, t).value.OpTickle? ==> op.timeout > 0)
  {
    EventCallParks(s, op);
    StepInv(s, op);
    hide Inv, Step, Enabled, Blocks, Run, EnabledRun, NeverRuns;
    EventWaitReturns(Step(s, op), ops, s.current);
  }

  lemma EventCallParks(s: State, op: Op)
    requires Inv(s) && op.OpEventWait? && Enabled(s, op) && Blocks(s, op)
    ensures WaitsForEvents(Step(s, op), s.current)
    ensures var k := Step(s, op).tasks[s.current];
      k.wanted == op.events && k.any == op.any && (k.flags.timeout <==> op.timeout > 0)
  {
    RunningIsReady(s);
    StepTcb(s, op, s.current);
    hide Step, Inv;
  }

  lemma QueueOfReady(s: State)
    requires Inv(s)
    ensures Ready in s.queues && Queue(s, Ready) == s.queues[Ready]
  {
  }
}
