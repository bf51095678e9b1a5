/**
  What each call does, in terms of its own arguments and the fields it finds: when it blocks, which timer
  it arms, which events it takes or delivers, and what creation, exit and initialisation leave behind.
 */
module CallLaws {
  import opened Options
  import opened DeltaList
  import opened Scheduler
  import opened SchedulerInvariant
  import opened SchedulerEffects
  import opened SchedulerRuns

  // ----- events, in sets --------------------------------------------------------------------

  /** Some wanted bit is there, and all of them unless any will do. */
  predicate Meets(pending: set<nat>, wanted: set<nat>, any: bool) { !(pending !! wanted) && (any || wanted <= pending) }

  lemma SatisfiedInSets(pending: set<nat>, wanted: set<nat>, any: bool)
    ensures Satisfied(pending, wanted, any) <==> Meets(pending, wanted, any)
    ensures !Satisfied(pending, wanted, any) <==>
            if any then pending !! wanted else wanted == {} || exists b :: b in wanted && b !in pending
  {
    if !(pending !! wanted) {
      var b :| b in pending && b in wanted;
      assert b in pending * wanted;
    }
    if wanted != {} && wanted <= pending {
      var b :| b in wanted;
      assert b in pending * wanted;
    }
  }

  /** A wait takes at once exactly the wanted pending bits, iff they satisfy it; a poll leaves everything. */
  lemma EventWaitExactly(s: State, ev: set<nat>, any: bool, timeout: int)
    requires Inv(s) && Enabled(s, OpEventWait(ev, any, timeout))
    ensures var k := s.tasks[s.current];
            var r := Step(s, OpEventWait(ev, any, timeout));
            var now := Meets(k.pending, ev, any);
      && s.current in s.tasks && s.current in r.tasks
      && (now ==> r == s.(tasks := s.tasks[s.current := k.(pending := k.pending - ev)]))
      && (!now && timeout == 0 ==> r == s)
      && (!now && timeout != 0 ==>
            var j := r.tasks[s.current];
            && j.flags.event && j.place == Off && j.wanted == ev && j.any == any && j.seized == {} && j.pending == k.pending
            && (j.flags.timeout <==> timeout > 0)
            && r.wadog == if timeout > 0 then Inserted(s.wadog, s.current, timeout) else s.wadog)
  {
    RunningIsReady(s);
    SatisfiedInSets(Cur(s).pending, ev, any);
    StepTcb(s, OpEventWait(ev, any, timeout), s.current);
    if Blocks(s, OpEventWait(ev, any, timeout)) { TimersExactly(s, OpEventWait(ev, any, timeout)); }
    hide Core, Satisfied, Park, Inserted;
  }

  /** A post adds its bits, and wakes exactly a waiter they now satisfy, with exactly its wanted pending bits. */
  lemma EventPostExactly(s: State, t: Tid, ev: set<nat>)
    requires Inv(s) && t in s.tasks
    ensures var k := s.tasks[t];
            var r := Step(s, OpEventPost(t, ev));
            var p := k.pending + ev;
            var wakes := k.flags.event && Meets(p, k.wanted, k.any);
      && t in r.tasks
      && (wakes ==> r.tasks[t] == k.(pending := p - k.wanted, seized := p * k.wanted, flags := READY, place := On(Ready))
                    && Others(r) == Others(s) + [t] && !Has(r.wadog, t))
      && (!wakes ==> r == s.(tasks := s.tasks[t := k.(pending := p)]))
  {
    var k := s.tasks[t];
    SatisfiedInSets(k.pending + ev, k.wanted, k.any);
    StepTcb(s, OpEventPost(t, ev), t);
    StepReady(s, OpEventPost(t, ev));
    StepInv(s, OpEventPost(t, ev));
    var r := Step(s, OpEventPost(t, ev));
    if r.tasks[t].place == On(Ready) { ReadyIsUnarmed(r, t); }
    hide Core, Satisfied, Woken, Disarmed, Others;
  }

  /** A control block after a post to it: the bits are added, or delivered to the waiter they satisfy. */
  predicate Delivered(k: Tcb, ev: set<nat>, k2: Tcb) {
    var p := k.pending + ev;
    k2 == if k.flags.event && Meets(p, k.wanted, k.any)
          then k.(pending := p - k.wanted, seized := p * k.wanted, flags := READY, place := On(Ready))
          else k.(pending := p)
  }

  lemma EventPostDelivers(s: State, t: Tid, ev: set<nat>)
    requires Inv(s) && t in s.tasks
    ensures Delivered(Task(s, t), ev, Task(EventPost(s, t, ev), t))
  {
    EventPostExactly(s, t, ev);
    hide Inv, Meets, EventPost;
  }

  // ----- blocking and timers -------------------------------------------------------------------

  /** The conditions under which a call takes its caller off the ready list. */
  predicate MustWait(s: State, op: Op)
    requires s.current in s.tasks && Enabled(s, op)
  {
    match op
    case OpYield(_) => true
    case OpUsleep(_) => true
    case OpCondWait(_) => true
    case OpCondTimedWait(_, timeout) => timeout != 0
    case OpSemWait(x) => s.sems[x] <= 0
    case OpSemTimedWait(x, timeout) => s.sems[x] <= 0 && timeout != 0
    case OpMutexLock(m) => s.mutexes[m].holder != None && s.mutexes[m].holder != Some(s.current)
    case OpEventWait(ev, any, timeout) =>
      timeout != 0 && !Meets(s.tasks[s.current].pending, ev, any)
    case _ => false
  }

  /** The caller leaves the ready list exactly under those conditions. */
  lemma WaitsExactly(s: State, op: Op)
    requires Inv(s) && Enabled(s, op) && op != OpExit
    ensures s.current in s.tasks && s.current in Step(s, op).tasks
    ensures MustWait(s, op) <==> Step(s, op).tasks[s.current].place != On(Ready)
    ensures MustWait(s, op) <==> Blocks(s, op)
  {
    hide Core, Enabled, Blocks, Step, TcbAfter, MustWait;
    RunningIsReady(s);
    MustWaitIsBlocks(s, op);
    StepTcb(s, op, s.current);
    if Blocks(s, op) { ParkedPlace(s, op); } else { UnparkedPlace(s, op); }
  }

  lemma MustWaitIsBlocks(s: State, op: Op)
    requires s.current in s.tasks && Enabled(s, op)
    ensures MustWait(s, op) <==> Blocks(s, op)
  {
    if op.OpEventWait? { SatisfiedInSets(Cur(s).pending, op.events, op.any); }
    hide Satisfied;
  }

  lemma ParkedPlace(s: State, op: Op)
    requires Blocks(s, op)
    ensures TcbAfter(s, op, s.current).place != On(Ready)
  {
  }

  lemma UnparkedPlace(s: State, op: Op)
    requires !Blocks(s, op) && s.current in s.tasks && s.tasks[s.current].place == On(Ready)
    ensures TcbAfter(s, op, s.current).place == On(Ready)
  {
    hide Satisfied, Readied, Blocks;
  }

  /** How long a blocking call is to be timed: exactly its own argument, if that asks for a timer. */
  function Requested(op: Op): Option<int> {
    match op
    case OpUsleep(usec) => Some(usec)
    case OpEventWait(_, _, timeout) => if timeout > 0 then Some(timeout) else None
    case OpSemTimedWait(_, timeout) => if timeout > 0 then Some(timeout) else None
    case OpCondTimedWait(_, timeout) => if timeout > 0 then Some(timeout) else None
    case _ => None
  }

  /** A blocking call arms exactly the timer requested, for the caller; without a request, none. */
  lemma TimersExactly(s: State, op: Op)
    requires Inv(s) && Enabled(s, op) && Blocks(s, op)
    ensures Step(s, op).wadog ==
            if Requested(op).Some? then Inserted(s.wadog, s.current, Requested(op).value) else s.wadog
    ensures !Has(s.wadog, s.current)
  {
    RunningIsReady(s);
    BlockingIsPark(s, op);
    ParkIsTimed(ParkBase(s, op), ParkTcb(s, op), ParkTimer(op));
    RequestedIs(op);
    hide Core, Step, Inserted, Park;
  }

  /** The watchdog list with t armed for a positive timeout; other timeouts mean for ever. */
  function ArmedFor(l: seq<Entry>, t: Tid, timeout: int): seq<Entry> {
    if timeout > 0 then Inserted(l, t, timeout) else l
  }

  predicate Timed(op: Op, timeout: int) {
    match op
    case OpEventWait(_, _, n) => n == timeout
    case OpSemTimedWait(_, n) => n == timeout
    case OpCondTimedWait(_, n) => n == timeout
    case _ => false
  }

  lemma TimedLaw(s: State, op: Op, timeout: int)
    requires Inv(s) && Enabled(s, op) && Timed(op, timeout)
    ensures Blocks(s, op) ==> Step(s, op).wadog == ArmedFor(s.wadog, s.current, timeout)
  {
    if Blocks(s, op) { TimersExactly(s, op); }
    hide Inv, Enabled, Blocks, Step, Inserted;
  }

  lemma ParkIsTimed(s: State, tcb: Tcb, timer: Timer)
    ensures Park(s, tcb, timer).wadog == if timer.After? then Inserted(s.wadog, s.current, timer.time) else s.wadog
  {
    hide Inserted, Without, Before;
  }

  lemma RequestedIs(op: Op)
    ensures ParkTimer(op) == if Requested(op).Some? then After(Requested(op).value) else NoTimer
  {
  }

  // ----- birth, death, initialisation --------------------------------------------------------------

  /** After an exit the maintask runs; the others keep their order and the dead fiber is gone. */
  lemma ExitExactly(s: State)
    requires Inv(s) && Enabled(s, OpExit)
    ensures var r := Step(s, OpExit);
      && r.current == s.main && r.main == s.main && s.current !in r.tasks
      && Others(r) == Without(Others(s), s.current)
      && r.nLocal == s.nLocal - 1 && r.wadog == s.wadog && r.sems == s.sems && r.mutexes == s.mutexes
  {
    ExitReady(s);
    hide Core, Without;
  }

  /** A new fiber is ready, last of all fibers, and otherwise as its control block was left. */
  lemma CreateExactly(s: State, t: Tid, stale: Tcb)
    requires Inv(s) && Enabled(s, OpCreate(t, stale))
    ensures var r := Step(s, OpCreate(t, stale));
      && Others(r) == Others(s) + [t] && r.current == s.current
      && r.tasks == s.tasks[t := stale.(flags := READY, place := On(Ready))]
      && r.nLocal == s.nLocal + 1 && r.wadog == s.wadog && r.sems == s.sems && r.mutexes == s.mutexes
  {
    StepReady(s, OpCreate(t, stale));
    hide Core, Before;
  }

  /** A new object has nobody queued and the value asked for; the others are as they were. */
  lemma InitExactly(s: State, op: Op)
    requires Inv(s) && Enabled(s, op)
    ensures var r := Step(s, op);
      && (op.OpSemInit? ==> r == s.(sems := s.sems[op.x := op.value], queues := s.queues[SemQ(op.x) := []]))
      && (op.OpMutexInit? ==> r == s.(mutexes := s.mutexes[op.m := Mutex(None, 0)], queues := s.queues[MutexQ(op.m) := []]))
      && (op.OpCondInit? ==> r == s.(queues := s.queues[CondQ(op.c) := []]))
  {
  }

  // ----- the code of a yield reaches its resumer -------------------------------------------------

  predicate NoResume(ops: seq<Op>, t: Tid) { forall i :: 0 <= i < |ops| ==> ops[i] != OpResume(t) }

  predicate SuspendedWith(s: State, t: Tid, code: nat) {
    t in s.tasks && s.tasks[t].flags.suspended && s.tasks[t].code == code
  }

  lemma SuspendedStep(s: State, op: Op, t: Tid, code: nat)
    requires Inv(s) && Enabled(s, op) && SuspendedWith(s, t, code) && op != OpResume(t)
    ensures SuspendedWith(Step(s, op), t, code)
  {
    hide Core;
    RunningIsReady(s);
    AgreeAt(s, t);
    if t in Readied(s, op) { SuspendedNotReadied(s, op, t); }
    StepTcb(s, op, t);
    hide Step, Readied, Enabled, Blocks, Satisfied;
  }

  lemma SuspendedNotReadied(s: State, op: Op, t: Tid)
    requires Inv(s) && Enabled(s, op) && t in s.tasks && s.tasks[t].flags.suspended && t in Readied(s, op)
    ensures op == OpResume(t)
  {
    hide Core;
    AgreeAt(s, t);
    match op {
      case OpTickle(gap) => FiredIsArmed(s, gap, t);
      case OpMutexUnlock(m) => QueuedAt(s, MutexQ(m), t);
      case OpSemPost(x) => QueuedAt(s, SemQ(x), t);
      case OpCondSignal(c) => QueuedAt(s, CondQ(c), t);
      case OpCondBroadcast(c) => QueuedAt(s, CondQ(c), t);
      case _ =>
    }
  }

  lemma {:induction false} SuspendedRun(s: State, ops: seq<Op>, t: Tid, code: nat)
    requires Inv(s) && EnabledRun(s, ops) && SuspendedWith(s, t, code) && NoResume(ops, t)
    ensures SuspendedWith(Run(s, ops), t, code)
    decreases |ops|
  {
    if ops != [] {
      SuspendedStep(s, ops[0], t, code);
      StepInv(s, ops[0]);
      assert NoResume(ops[1..], t) by { assert forall i :: 0 <= i < |ops[1..]| ==> ops[1..][i] == ops[i + 1]; }
      hide Inv, Step, Enabled, SuspendedWith, NoResume;
      SuspendedRun(Step(s, ops[0]), ops[1..], t, code);
    }
  }

  /** Whatever happens between a yield and the resume that answers it, the resumer finds the yielded code. */
  lemma YieldedCodeArrives(s: State, code: nat, ops: seq<Op>)
    requires Inv(s) && Enabled(s, OpYield(code))
    requires EnabledRun(Step(s, OpYield(code)), ops) && NoResume(ops, s.current)
    ensures SuspendedWith(Run(Step(s, OpYield(code)), ops), s.current, code)
  {
    RunningIsReady(s);
    StepTcb(s, OpYield(code), s.current);
    StepInv(s, OpYield(code));
    hide Core, Step, Run, EnabledRun, NoResume;
    SuspendedRun(Step(s, OpYield(code)), ops, s.current, code);
  }
}
