/**
  Time in whole runs of the 1:N system. Between the calls time passes; every sleep and every timed
  wait asks for an instant counted from the moment of the call, while the scheduler loop ticks by the
  time since its last tick. The wheel of timers, clock and deadlines is carried along with the run.
 */
module Deadlines {
  import opened Options
  import opened DeltaList
  import opened Scheduler
  import opened SchedulerInvariant
  import opened SchedulerEffects
  import opened SchedulerRuns
  import opened CallLaws

  /** What a call does to the watchdog list: arm the caller, disarm whom it wakes, or tick. */
  function TimerEvent(s: State, op: Op): Option<Event> {
    if Blocks(s, op) then
      if ParkTimer(op).After? then Some(Arm(s.current, ParkTimer(op).time)) else None
    else
      match op
      case OpTickle(_) => Some(Tick)
      case OpCondBroadcast(_) => None
      case _ =>
        if Readied(s, op) != [] && Task(s, Readied(s, op)[0]).flags.timeout then Some(Disarm(Readied(s, op)[0]))
        else None
  }

  function Turned(w: Wheel, e: Option<Event>): Wheel {
    if e.Some? && Allowed(w, e.value) then Advance(w, e.value) else w
  }

  /** A broadcast disarms its waiters one by one. */
  function SignalsWheel(s: State, c: nat, n: nat, w: Wheel): Wheel
    decreases n
  {
    if n == 0 then w else SignalsWheel(CondSignal(s, c), c, n - 1, Turned(w, TimerEvent(s, OpCondSignal(c))))
  }

  function WheelAfter(s: State, op: Op, w: Wheel): Wheel {
    if op.OpCondBroadcast? then SignalsWheel(s, op.c, |Queue(s, CondQ(op.c))|, w) else Turned(w, TimerEvent(s, op))
  }

  /** What happens in a run: a call, or some time without one. */
  datatype Moment = Call(op: Op) | Elapse(time: nat)

  /** A call is enabled, and the loop ticks by the time since its last tick, if any has passed. */
  predicate Possible(s: State, w: Wheel, m: Moment) {
    m.Call? ==> Enabled(s, m.op) && (m.op.OpTickle? ==> m.op.gap == Gap(w) && Gap(w) > 0)
  }

  function After(s: State, m: Moment): State { if m.Call? then Step(s, m.op) else s }

  function Turn(s: State, m: Moment, w: Wheel): Wheel {
    if m.Call? then WheelAfter(s, m.op, w) else Turned(w, Some(Pass(m.time)))
  }

  predicate PossibleRun(s: State, w: Wheel, ms: seq<Moment>)
    decreases |ms|
  {
    ms == [] || (Possible(s, w, ms[0]) && PossibleRun(After(s, ms[0]), Turn(s, ms[0], w), ms[1..]))
  }

  function RunOf(s: State, ms: seq<Moment>): State
    decreases |ms|
  {
    if ms == [] then s else RunOf(After(s, ms[0]), ms[1..])
  }

  /** Clock and deadlines at the end of a run. */
  function RunWheel(s: State, ms: seq<Moment>, w: Wheel): Wheel
    decreases |ms|
  {
    if ms == [] then w else RunWheel(After(s, ms[0]), ms[1..], Turn(s, ms[0], w))
  }

  function Calls(ms: seq<Moment>): seq<Op> {
    if ms == [] then [] else (if ms[0].Call? then [ms[0].op] else []) + Calls(ms[1..])
  }

  /** Leaving out the passing time gives a run of the scheduler. */
  lemma {:induction false} RunOfCalls(s: State, w: Wheel, ms: seq<Moment>)
    requires PossibleRun(s, w, ms)
    ensures EnabledRun(s, Calls(ms)) && Run(s, Calls(ms)) == RunOf(s, ms)
    decreases |ms|
  {
    hide Step, Enabled, WheelAfter, Turned;
    if ms != [] {
      RunOfCalls(After(s, ms[0]), Turn(s, ms[0], w), ms[1..]);
      if ms[0].Call? { assert Calls(ms)[1..] == Calls(ms[1..]); } else { assert Calls(ms) == Calls(ms[1..]); }
    }
  }

  // ----- the wheel follows the run --------------------------------------------------------

  lemma BlockingWadog(s: State, op: Op)
    requires Inv(s) && Enabled(s, op) && Blocks(s, op)
    ensures Step(s, op).wadog ==
            if ParkTimer(op).After? then Inserted(s.wadog, s.current, ParkTimer(op).time) else s.wadog
    ensures !Has(s.wadog, s.current)
  {
    RunningIsReady(s);
    BlockingIsPark(s, op);
    hide Core, Step, Inserted;
  }

  /** Created, resumed and mutex-granted tasks never have a timer. */
  lemma UntimedWhenReleased(s: State, op: Op)
    requires Inv(s) && Enabled(s, op) && Readied(s, op) != [] && (op.OpCreate? || op.OpResume? || op.OpMutexUnlock?)
    ensures !Task(s, Readied(s, op)[0]).flags.timeout
  {
    var t := Readied(s, op)[0];
    if t in s.tasks { AgreeAt(s, t); }
    if op.OpMutexUnlock? { QueuedAt(s, MutexQ(op.m), t); }
    hide Inv;
  }

  /** Waking a task drops its timer, if it has one. */
  lemma WakingWadog(s: State, op: Op)
    requires Inv(s) && Enabled(s, op) && !Blocks(s, op) && !op.OpTickle? && !op.OpCondBroadcast?
    ensures Step(s, op).wadog == if Readied(s, op) == [] then s.wadog else Disarmed(s, Readied(s, op)[0])
  {
    if op.OpCreate? || op.OpResume? || op.OpMutexUnlock? {
      if Readied(s, op) != [] { UntimedWhenReleased(s, op); }
      ReleasingWadog(s, op);
    } else {
      PostingWadog(s, op);
    }
    hide Inv, Enabled, Blocks, Step, Readied, Removed;
  }

  lemma ReleasingWadog(s: State, op: Op)
    requires op.OpCreate? || op.OpResume? || op.OpMutexUnlock?
    ensures Step(s, op).wadog == s.wadog
  {
    hide Before, Without;
  }

  lemma PostingWadog(s: State, op: Op)
    requires !Blocks(s, op) && !op.OpTickle? && !op.OpCondBroadcast?
    requires !op.OpCreate? && !op.OpResume? && !op.OpMutexUnlock?
    ensures Step(s, op).wadog == if Readied(s, op) == [] then s.wadog else Disarmed(s, Readied(s, op)[0])
  {
    hide Before, Without, Removed;
    match op {
      case OpEventPost(t, ev) => hide Satisfied;
      case _ =>
    }
  }

  lemma TurnBlocks(s: State, op: Op, w: Wheel)
    requires Inv(s) && Enabled(s, op) && Blocks(s, op) && w.list == s.wadog
    ensures TimerEvent(s, op).Some? ==> Allowed(w, TimerEvent(s, op).value)
    ensures Turned(w, TimerEvent(s, op)).list == Step(s, op).wadog
  {
    BlockingWadog(s, op);
    hide Inv, Enabled, Step, Inserted;
  }

  lemma TurnTicks(s: State, gap: int, w: Wheel)
    requires Inv(s) && w.list == s.wadog && gap == Gap(w) && gap > 0
    ensures TimerEvent(s, OpTickle(gap)) == Some(Tick) && Allowed(w, Tick)
    ensures Turned(w, TimerEvent(s, OpTickle(gap))).list == Tickle(s, gap).wadog
  {
    TickleMoves(s, gap);
    hide Inv, Survivors, Tickle;
  }

  lemma TurnWakes(s: State, op: Op, w: Wheel)
    requires Inv(s) && Enabled(s, op) && !Blocks(s, op) && !op.OpTickle? && !op.OpCondBroadcast? && w.list == s.wadog
    ensures TimerEvent(s, op).Some? ==> TimerEvent(s, op).value.Disarm? && Allowed(w, TimerEvent(s, op).value)
    ensures Turned(w, TimerEvent(s, op)).list == Step(s, op).wadog
  {
    WakingWadog(s, op);
    if Readied(s, op) != [] { ArmedIff(s, Readied(s, op)[0]); }
    hide Inv, Enabled, Step, Readied, Removed, Blocks;
  }

  /** One call: the wheel's list stays the watchdog list, and what a turn keeps, the call keeps. */
  lemma TurnFollows(s: State, op: Op, w: Wheel)
    requires Inv(s) && Possible(s, w, Call(op)) && !op.OpCondBroadcast? && w.list == s.wadog
    ensures TimerEvent(s, op).Some? ==> Allowed(w, TimerEvent(s, op).value)
    ensures Turned(w, TimerEvent(s, op)).list == Step(s, op).wadog
  {
    if Blocks(s, op) { TurnBlocks(s, op, w); } else if op.OpTickle? { TurnTicks(s, op.gap, w); } else { TurnWakes(s, op, w); }
    hide Inv, Enabled, TimerEvent, Turned, Blocks;
  }

  /** Nobody is armed for a negative time. */
  predicate Harmless(e: Option<Event>) { e.Some? && e.value.Arm? ==> e.value.timeout >= 0 }

  lemma TurnKeeps(w: Wheel, e: Option<Event>)
    requires Harmless(e)
    ensures OnTime(w) ==> OnTime(Turned(w, e))
    ensures Punctual(w) && (e.Some? ==> MeetsGuard(w, e.value)) ==> Punctual(Turned(w, e))
  {
    hide OnTime, Punctual, MeetsGuard;
    if e.Some? && Allowed(w, e.value) {
      if OnTime(w) { AdvanceKeepsOnTime(w, e.value); }
      if Punctual(w) && MeetsGuard(w, e.value) { GuardKeepsPunctual(w, e.value); }
    }
  }

  lemma SignalFollows(s: State, c: nat, w: Wheel)
    requires Inv(s) && CondQ(c) in s.queues && s.queues[CondQ(c)] != [] && w.list == s.wadog
    ensures var r, v := CondSignal(s, c), Turned(w, TimerEvent(s, OpCondSignal(c)));
      && Inv(r) && CondQ(c) in r.queues && |r.queues[CondQ(c)]| == |s.queues[CondQ(c)]| - 1
      && v.list == r.wadog && v == w.(list := v.list)
      && (OnTime(w) ==> OnTime(v)) && (Punctual(w) ==> Punctual(v))
  {
    hide *;
    var op := OpCondSignal(c);
    SignalKeepsClock(s, c, w);
    SignalServes(s, c);
    StepQueue(s, op, CondQ(c));
    StepInv(s, op);
    TurnWakes(s, op, w);
    TurnKeeps(w, TimerEvent(s, op));
  }

  lemma SignalServes(s: State, c: nat)
    requires CondQ(c) in s.queues && s.queues[CondQ(c)] != []
    ensures Step(s, OpCondSignal(c)) == CondSignal(s, c) && Enabled(s, OpCondSignal(c))
    ensures Moved(s, MoveOn(s, OpCondSignal(c), CondQ(c)), CondQ(c)) == s.queues[CondQ(c)][1..]
  {
    hide CondSignal;
  }

  lemma SignalKeepsClock(s: State, c: nat, w: Wheel)
    ensures var v := Turned(w, TimerEvent(s, OpCondSignal(c))); v == w.(list := v.list)
    ensures Harmless(TimerEvent(s, OpCondSignal(c)))
    ensures TimerEvent(s, OpCondSignal(c)).Some? ==> TimerEvent(s, OpCondSignal(c)).value.Disarm?
    ensures !Blocks(s, OpCondSignal(c))
    ensures TimerEvent(s, OpCondSignal(c)).Some? ==> MeetsGuard(w, TimerEvent(s, OpCondSignal(c)).value)
  {
    hide Readied, AllDue, NoneBetween;
  }

  lemma {:induction false} SignalsFollow(s: State, c: nat, n: nat, w: Wheel)
    requires Inv(s) && CondQ(c) in s.queues && n <= |s.queues[CondQ(c)]| && w.list == s.wadog
    ensures SignalsWheel(s, c, n, w).list == Signals(s, c, n).wadog
    ensures OnTime(w) ==> OnTime(SignalsWheel(s, c, n, w))
    ensures Punctual(w) ==> Punctual(SignalsWheel(s, c, n, w))
    ensures SignalsWheel(s, c, n, w) == w.(list := SignalsWheel(s, c, n, w).list)
    decreases n
  {
    hide *;
    if n == 0 {
      SignalsNone(s, c, w);
    } else {
      SignalFollows(s, c, w);
      SignalsUnfold(s, c, n, w);
      SignalsFollow(CondSignal(s, c), c, n - 1, Turned(w, TimerEvent(s, OpCondSignal(c))));
    }
  }

  lemma SignalsNone(s: State, c: nat, w: Wheel)
    ensures Signals(s, c, 0) == s && SignalsWheel(s, c, 0, w) == w
  {
  }

  lemma SignalsUnfold(s: State, c: nat, n: nat, w: Wheel)
    requires n > 0
    ensures Signals(s, c, n) == Signals(CondSignal(s, c), c, n - 1)
    ensures SignalsWheel(s, c, n, w) == SignalsWheel(CondSignal(s, c), c, n - 1, Turned(w, TimerEvent(s, OpCondSignal(c))))
  {
    hide CondSignal, Turned, TimerEvent;
  }

  /** Callers sleep for at least b; timed waits arm a timer only for a positive time. */
  predicate SleepsAtLeast(m: Moment, b: int) { m.Call? && m.op.OpUsleep? ==> m.op.usec >= b }

  predicate AllSleepAtLeast(ms: seq<Moment>, b: int) { forall i :: 0 <= i < |ms| ==> SleepsAtLeast(ms[i], b) }

  /** The event of a moment that arms or ticks meets its guard; other moments need none. */
  ghost predicate Exact(s: State, w: Wheel, m: Moment) {
    m.Call? && TimerEvent(s, m.op).Some? ==> MeetsGuard(w, TimerEvent(s, m.op).value)
  }

  lemma SleepIsHarmless(s: State, op: Op)
    requires SleepsAtLeast(Call(op), 0)
    ensures Harmless(TimerEvent(s, op))
  {
    hide Blocks, Readied;
  }

  lemma ElapseShape(s: State, d: nat, w: Wheel)
    ensures After(s, Elapse(d)) == s && Turn(s, Elapse(d), w) == Turned(w, Some(Pass(d)))
    ensures Turned(w, Some(Pass(d))).list == w.list && MeetsGuard(w, Pass(d)) && Harmless(Some(Pass(d)))
  {
  }

  lemma CallEnabled(s: State, op: Op, w: Wheel)
    requires Possible(s, w, Call(op))
    ensures Enabled(s, op) && After(s, Call(op)) == Step(s, op)
  {
    hide Enabled, Step;
  }

  lemma CallShape(s: State, op: Op, w: Wheel)
    requires !op.OpCondBroadcast?
    ensures Turn(s, Call(op), w) == Turned(w, TimerEvent(s, op))
    ensures Exact(s, w, Call(op)) && TimerEvent(s, op).Some? ==> MeetsGuard(w, TimerEvent(s, op).value)
  {
    hide TimerEvent, Turned, MeetsGuard;
  }

  lemma BroadcastShape(s: State, c: nat, w: Wheel)
    requires Enabled(s, OpCondBroadcast(c))
    ensures CondQ(c) in s.queues
    ensures Turn(s, Call(OpCondBroadcast(c)), w) == SignalsWheel(s, c, |s.queues[CondQ(c)]|, w)
    ensures Step(s, OpCondBroadcast(c)) == Signals(s, c, |s.queues[CondQ(c)]|)
  {
    hide SignalsWheel, Signals;
  }

  lemma BroadcastMoment(s: State, c: nat, w: Wheel)
    requires Inv(s) && Enabled(s, OpCondBroadcast(c)) && w.list == s.wadog
    ensures var r := Turn(s, Call(OpCondBroadcast(c)), w);
      && r.list == Step(s, OpCondBroadcast(c)).wadog
      && (OnTime(w) ==> OnTime(r)) && (Punctual(w) ==> Punctual(r))
  {
    hide *;
    BroadcastShape(s, c, w);
    SignalsFollow(s, c, |s.queues[CondQ(c)]|, w);
  }

  /** One moment: the wheel's list stays the watchdog list; on-time and punctual wheels stay so. */
  lemma MomentFollows(s: State, m: Moment, w: Wheel)
    requires Inv(s) && Possible(s, w, m) && w.list == s.wadog
    ensures Turn(s, m, w).list == After(s, m).wadog && Inv(After(s, m))
    ensures SleepsAtLeast(m, 0) && OnTime(w) ==> OnTime(Turn(s, m, w))
    ensures SleepsAtLeast(m, 0) && Punctual(w) && Exact(s, w, m) ==> Punctual(Turn(s, m, w))
  {
    hide *;
    match m {
      case Elapse(d) =>
        ElapseShape(s, d, w);
        TurnKeeps(w, Some(Pass(d)));
      case Call(op) =>
        CallEnabled(s, op, w);
        StepInv(s, op);
        if op.OpCondBroadcast? {
          BroadcastMoment(s, op.c, w);
        } else {
          TurnFollows(s, op, w);
          CallShape(s, op, w);
          if SleepsAtLeast(m, 0) { SleepIsHarmless(s, op); TurnKeeps(w, TimerEvent(s, op)); }
        }
    }
  }

  ghost predicate ExactRun(s: State, w: Wheel, ms: seq<Moment>)
    decreases |ms|
  {
    ms == [] || (Exact(s, w, ms[0]) && ExactRun(After(s, ms[0]), Turn(s, ms[0], w), ms[1..]))
  }

  lemma {:induction false} RunFollows(s: State, ms: seq<Moment>, w: Wheel)
    requires Inv(s) && PossibleRun(s, w, ms) && w.list == s.wadog
    ensures RunWheel(s, ms, w).list == RunOf(s, ms).wadog && Inv(RunOf(s, ms))
    ensures AllSleepAtLeast(ms, 0) && OnTime(w) ==> OnTime(RunWheel(s, ms, w))
    ensures AllSleepAtLeast(ms, 0) && Punctual(w) && ExactRun(s, w, ms) ==> Punctual(RunWheel(s, ms, w))
    decreases |ms|
  {
    if ms != [] {
      MomentFollows(s, ms[0], w);
      hide Inv, Possible, After, Turn, OnTime, Punctual, Exact;
      RunFollows(After(s, ms[0]), ms[1..], Turn(s, ms[0], w));
    }
  }

  /** The deadlines after a blocking call of t: a sleep and a positive timeout count from now, nothing else does. */
  predicate Dates(op: Op, after: map<Tid, int>, before: map<Tid, int>, t: Tid, now: int) {
    match op
    case OpUsleep(usec) => after == before[t := now + usec]
    case OpSemTimedWait(_, timeout) => after == if timeout > 0 then before[t := now + timeout] else before
    case OpCondTimedWait(_, timeout) => after == if timeout > 0 then before[t := now + timeout] else before
    case OpEventWait(_, _, timeout) => after == if timeout > 0 then before[t := now + timeout] else before
    case _ => after == before
  }

  lemma DeadlineSplit(op: Op, after: map<Tid, int>, before: map<Tid, int>, t: Tid, now: int)
    requires after == if Requested(op).Some? then before[t := now + Requested(op).value] else before
    ensures Dates(op, after, before, t, now)
  {
  }

  /** The deadline a blocking call sets is the present instant plus exactly the time it asks for. */
  lemma DeadlineIsRequested(s: State, op: Op, w: Wheel)
    requires Inv(s) && Possible(s, w, Call(op)) && Blocks(s, op) && w.list == s.wadog
    ensures Turn(s, Call(op), w).now == w.now && Dates(op, Turn(s, Call(op), w).deadline, w.deadline, s.current, w.now)
  {
    CallEnabled(s, op, w);
    TimersExactly(s, op);
    BlockingTurn(s, op, w);
    hide *;
    DeadlineSplit(op, Turn(s, Call(op), w).deadline, w.deadline, s.current, w.now);
  }

  lemma BlockingTurn(s: State, op: Op, w: Wheel)
    requires Blocks(s, op) && !Has(w.list, s.current)
    ensures var r, q := Turn(s, Call(op), w), Requested(op);
      r.now == w.now && r.deadline == if q.Some? then w.deadline[s.current := w.now + q.value] else w.deadline
  {
    RequestedIs(op);
    hide Inserted, Has;
  }

  // ----- nobody is late -------------------------------------------------------------------

  /** The loop ticks, and task t still sleeps or waits with a timer although its instant has come. */
  predicate LateAt(s: State, w: Wheel, t: Tid) {
    && Gap(w) > 0
    && var r := Tickle(s, Gap(w));
       t in r.tasks && r.tasks[t].flags.timeout && (t in w.deadline ==> w.deadline[t] <= w.now)
  }

  /** Runs from boot in which everybody sleeps for at least b. */
  predicate RunAtLeast(main: Tid, stale: Tcb, ms: seq<Moment>, b: int) {
    PossibleRun(Boot(main, stale), Midnight(), ms) && AllSleepAtLeast(ms, b)
  }

  /** In every run from boot without negative sleeps, a tick leaves nobody late. */
  lemma NoFiberIsLate(main: Tid, stale: Tcb, ms: seq<Moment>, t: Tid)
    requires RunAtLeast(main, stale, ms, 0)
    ensures !LateAt(RunOf(Boot(main, stale), ms), RunWheel(Boot(main, stale), ms, Midnight()), t)
  {
    var b := Boot(main, stale);
    var s, w := RunOf(b, ms), RunWheel(b, ms, Midnight());
    BootInv(main, stale);
    assert b.wadog == [] && OnTime(Midnight());
    hide Boot, Midnight;
    RunFollows(b, ms, Midnight());
    hide RunOf, RunWheel, PossibleRun, Inv, OnTime;
    if LateAt(s, w, t) {
      StillArmed(s, Gap(w), t);
      TickLeavesNoneLate(w, t);
    }
  }

  lemma StillArmed(s: State, gap: int, t: Tid)
    requires Inv(s) && t in Tickle(s, gap).tasks && Tickle(s, gap).tasks[t].flags.timeout
    ensures Has(Survivors(s.wadog, gap), t)
  {
    TickleMoves(s, gap);
    TickleInv(s, gap);
    ArmedIff(Tickle(s, gap), t);
  }

  // The bound on the sleeps is needed: two fibers, the first of which sleeps for a negative time r.

  function Awake(): Tcb { BLANK.(place := On(Ready)) }

  function Asleep(): Tcb { BLANK.(flags := READY.(usleep := true, timeout := true)) }

  function LateRun(r: int): seq<Op> {
    [OpCreate(1, BLANK), OpCreate(2, BLANK), OpSchedYield, OpUsleep(r), OpUsleep(1)]
  }

  /** The states that run goes through, with the deadlines asked for; no time passes yet. */
  function LateStage(n: nat, r: int): State
    requires n <= 5
  {
    match n
    case 0 => State(0, 0, map[0 := Awake()], map[Ready := [0]], [], map[], map[], 1)
    case 1 => State(0, 0, map[0 := Awake(), 1 := Awake()], map[Ready := [1, 0]], [], map[], map[], 2)
    case 2 => State(0, 0, map[0 := Awake(), 1 := Awake(), 2 := Awake()], map[Ready := [1, 2, 0]], [], map[], map[], 3)
    case 3 => State(0, 1, map[0 := Awake(), 1 := Awake(), 2 := Awake()], map[Ready := [2, 1, 0]], [], map[], map[], 3)
    case 4 => State(0, 2, map[0 := Awake(), 1 := Asleep(), 2 := Awake()], map[Ready := [2, 0]], [Entry(1, r)], map[], map[], 3)
    case _ => State(0, 0, map[0 := Awake(), 1 := Asleep(), 2 := Asleep()], map[Ready := [0]], [Entry(1, r), Entry(2, 1 - r)], map[], map[], 3)
  }

  function LateDue(n: nat, r: int): map<Tid, int> {
    if n <= 3 then map[] else if n == 4 then map[1 := r] else map[1 := r, 2 := 1]
  }

  function LateWheel(n: nat, r: int): Wheel
    requires n <= 5
  {
    Wheel(LateStage(n, r).wadog, 0, 0, LateDue(n, r))
  }

  lemma LateStage0(r: int)
    requires r < 0
    ensures Enabled(LateStage(0, r), OpCreate(1, BLANK)) && Step(LateStage(0, r), OpCreate(1, BLANK)) == LateStage(1, r)
  {
    assert Before([0], 0, 1) == [1, 0];
    var s := Step(LateStage(0, r), OpCreate(1, BLANK));
    assert s.tasks == LateStage(1, r).tasks && s.queues == LateStage(1, r).queues && s.wadog == LateStage(1, r).wadog;
  }

  lemma LateStage1(r: int)
    requires r < 0
    ensures Enabled(LateStage(1, r), OpCreate(2, BLANK)) && Step(LateStage(1, r), OpCreate(2, BLANK)) == LateStage(2, r)
  {
    assert [1, 0][1..] == [0] && Before([0], 0, 2) == [2, 0] && Before([1, 0], 0, 2) == [1] + [2, 0] == [1, 2, 0];
    var s := Step(LateStage(1, r), OpCreate(2, BLANK));
    assert s.tasks == LateStage(2, r).tasks && s.queues == LateStage(2, r).queues && s.wadog == LateStage(2, r).wadog;
  }

  lemma LateStage2(r: int)
    requires r < 0
    ensures Enabled(LateStage(2, r), OpSchedYield) && Step(LateStage(2, r), OpSchedYield) == LateStage(3, r)
  {
    assert [1, 2, 0][1..] == [2, 0] && [2, 0][1..] == [0] && Without([2, 0], 0) == [2] + Without([0], 0);
    assert Without([1, 2, 0], 0) == [1] + Without([2, 0], 0) == [1, 2] && [1, 2] + [0] == [1, 2, 0];
    assert Before([0], 0, 1) == [1, 0] && Before([2, 0], 0, 1) == [2] + [1, 0] == [2, 1, 0];
    var s := Step(LateStage(2, r), OpSchedYield);
    assert s.tasks == LateStage(3, r).tasks && s.queues == LateStage(3, r).queues && s.wadog == LateStage(3, r).wadog;
  }

  lemma LateStage3(r: int)
    requires r < 0
    ensures Enabled(LateStage(3, r), OpUsleep(r)) && Step(LateStage(3, r), OpUsleep(r)) == LateStage(4, r)
  {
    assert [2, 1, 0][1..] == [1, 0] && Without([1, 0], 1) == [0] && Without([2, 1, 0], 1) == [2] + [0];
    assert Inserted([], 1, r) == [Entry(1, r)] + [];
    assert [2, 0][1..] == [0] && Before([0], 0, 2) == [2, 0];
    var s := Step(LateStage(3, r), OpUsleep(r));
    assert s.tasks == LateStage(4, r).tasks && s.queues == LateStage(4, r).queues && s.wadog == LateStage(4, r).wadog;
  }

  lemma LateStage4(r: int)
    requires r < 0
    ensures Enabled(LateStage(4, r), OpUsleep(1)) && Step(LateStage(4, r), OpUsleep(1)) == LateStage(5, r)
  {
    assert Without([2, 0], 2) == [0];
    var l := [Entry(1, r)];
    assert l[1..] == [] && Inserted([], 2, 1 - r) == [Entry(2, 1 - r)] + [] && Inserted(l, 2, 1) == [l[0]] + Inserted(l[1..], 2, 1 - r);
    var e: seq<Tid> := [];
    assert [0][1..] == e && e + [0] == [0];
    var s := Step(LateStage(4, r), OpUsleep(1));
    assert s.tasks == LateStage(5, r).tasks && s.queues == LateStage(5, r).queues && s.wadog == LateStage(5, r).wadog;
  }

  lemma LateStep(n: nat, r: int)
    requires r < 0 && n < 5
    ensures Enabled(LateStage(n, r), LateRun(r)[n]) && Step(LateStage(n, r), LateRun(r)[n]) == LateStage(n + 1, r)
  {
    hide LateStage, Step, Enabled;
    match n {
      case 0 => LateStage0(r);
      case 1 => LateStage1(r);
      case 2 => LateStage2(r);
      case 3 => LateStage3(r);
      case _ => LateStage4(r);
    }
  }

  /** The deadline of a sleep is set by the call; the other calls of this run touch no timer. */
  lemma LateTurn(n: nat, r: int)
    requires r < 0 && n < 5
    ensures Possible(LateStage(n, r), LateWheel(n, r), Call(LateRun(r)[n]))
    ensures Turn(LateStage(n, r), Call(LateRun(r)[n]), LateWheel(n, r)) == LateWheel(n + 1, r)
  {
    LateStep(n, r);
    var s, w, op := LateStage(n, r), LateWheel(n, r), LateRun(r)[n];
    LateEvent(n, r);
    hide Step, Enabled, TimerEvent;
    if n >= 3 {
      assert LateStage(n + 1, r).wadog == Inserted(s.wadog, s.current, if n == 3 then r else 1) by { LateList(n, r); }
    }
  }

  lemma LateEvent(n: nat, r: int)
    requires r < 0 && n < 5
    ensures TimerEvent(LateStage(n, r), LateRun(r)[n]) ==
      if n == 3 then Some(Arm(1, r)) else if n == 4 then Some(Arm(2, 1)) else None
    ensures n == 3 ==> !Has(LateStage(3, r).wadog, 1)
    ensures n == 4 ==> !Has(LateStage(4, r).wadog, 2)
  {
  }

  lemma LateList(n: nat, r: int)
    requires r < 0 && 3 <= n < 5
    ensures LateStage(n + 1, r).wadog == Inserted(LateStage(n, r).wadog, LateStage(n, r).current, if n == 3 then r else 1)
  {
    if n == 4 {
      var l := [Entry(1, r)];
      assert l[1..] == [] && Inserted([], 2, 1 - r) == [Entry(2, 1 - r)] + [] && Inserted(l, 2, 1) == [l[0]] + Inserted(l[1..], 2, 1 - r);
    }
  }

  function LateMoments(r: int): seq<Moment> {
    [Call(OpCreate(1, BLANK)), Call(OpCreate(2, BLANK)), Call(OpSchedYield), Call(OpUsleep(r)), Call(OpUsleep(1)), Elapse(1)]
  }

  lemma {:induction false} LateRuns(n: nat, r: int)
    requires r < 0 && n <= 5
    ensures var s, w, ms := LateStage(n, r), LateWheel(n, r), LateMoments(r)[n..];
      && PossibleRun(s, w, ms) && RunOf(s, ms) == LateStage(5, r)
      && RunWheel(s, ms, w) == LateWheel(5, r).(now := 1)
    decreases 5 - n
  {
    var ms := LateMoments(r)[n..];
    if n < 5 {
      LateStep(n, r);
      LateTurn(n, r);
      LateRuns(n + 1, r);
      assert ms[0] == Call(LateRun(r)[n]) && ms[1..] == LateMoments(r)[n + 1..];
      hide LateStage, LateWheel, Possible, Turn, Step;
    } else {
      assert ms == [Elapse(1)] && ms[1..] == [];
      hide LateStage;
    }
  }

  lemma LateEnds(r: int)
    requires r < 0
    ensures LateStage(0, r) == Boot(0, BLANK) && LateWheel(0, r) == Midnight() && LateMoments(r)[0..] == LateMoments(r)
    ensures AllSleepAtLeast(LateMoments(r), r)
    ensures LateAt(LateStage(5, r), LateWheel(5, r).(now := 1), 2)
  {
    var s := LateStage(5, r);
    var l := s.wadog;
    assert l[1..] == [Entry(2, 1 - r)] && Fired(l, 1) == [l[0]] + Fired(l[1..], 1) && Fired(l[1..], 1) == [];
    LateInv(r);
    hide Inv;
    TickleTcb(s, 1, 2);
    assert !Has(Fired(l, 1), 2);
  }

  lemma LateInv(r: int)
    requires r < 0
    ensures Inv(LateStage(5, r))
  {
    LateRuns(0, r);
    BootInv(0, BLANK);
    assert LateStage(0, r) == Boot(0, BLANK) && LateWheel(0, r) == Midnight();
    hide LateStage, LateWheel, LateMoments, Inv;
    RunFollows(LateStage(0, r), LateMoments(r)[0..], LateWheel(0, r));
  }

  /** A lower bound on the sleeps keeps every fiber of every run from being late iff it is not negative. */
  lemma NoFiberIsLateIff(b: int)
    ensures (forall main, stale, ms, t :: RunAtLeast(main, stale, ms, b) ==>
               !LateAt(RunOf(Boot(main, stale), ms), RunWheel(Boot(main, stale), ms, Midnight()), t)) <==> b >= 0
  {
    if b >= 0 {
      forall main, stale, ms, t | RunAtLeast(main, stale, ms, b)
        ensures !LateAt(RunOf(Boot(main, stale), ms), RunWheel(Boot(main, stale), ms, Midnight()), t)
      {
        assert RunAtLeast(main, stale, ms, 0);
        NoFiberIsLate(main, stale, ms, t);
      }
    } else {
      LateRuns(0, b);
      LateEnds(b);
      hide LateStage, LateWheel, LateMoments, PossibleRun, RunOf, RunWheel, Boot, LateAt;
      assert RunAtLeast(0, BLANK, LateMoments(b), b);
    }
  }

  // ----- nobody is early ------------------------------------------------------------------

  predicate WakesEarly(w: Wheel, m: Moment, t: Tid) { m.Call? && m.op.OpTickle? && WokenEarly(w, Tick, t) }

  /** At no moment of the run is anybody woken early or left with too little time. */
  ghost predicate PunctualMoments(s: State, w: Wheel, ms: seq<Moment>)
    decreases |ms|
  {
    && (forall t :: !RunsFast(w, t))
    && (ms == [] || ((forall t :: !WakesEarly(w, ms[0], t)) &&
                     PunctualMoments(After(s, ms[0]), Turn(s, ms[0], w), ms[1..])))
  }

  lemma MomentIsExactIff(s: State, m: Moment, w: Wheel)
    requires Inv(s) && Possible(s, w, m) && w.list == s.wadog && Punctual(w) && SleepsAtLeast(m, 0)
    ensures Exact(s, w, m) <==> forall t :: !WakesEarly(w, m, t) && !RunsFast(Turn(s, m, w), t)
  {
    hide *;
    if m.Elapse? || m.op.OpCondBroadcast? || TimerEvent(s, m.op).None? {
      QuietMoment(s, m, w);
    } else {
      EventMoment(s, m.op, w, TimerEvent(s, m.op).value);
    }
  }

  lemma QuietMoment(s: State, m: Moment, w: Wheel)
    requires Inv(s) && Possible(s, w, m) && w.list == s.wadog && Punctual(w) && SleepsAtLeast(m, 0)
    requires m.Elapse? || m.op.OpCondBroadcast? || TimerEvent(s, m.op).None?
    ensures Exact(s, w, m) && forall t :: !WakesEarly(w, m, t) && !RunsFast(Turn(s, m, w), t)
  {
    NoEventNoTick(s, m);
    assert Exact(s, w, m);
    MomentFollows(s, m, w);
    hide Inv, Possible, Turn, Punctual, RunsFast;
    NoneFast(Turn(s, m, w));
  }

  lemma EventMoment(s: State, op: Op, w: Wheel, e: Event)
    requires Inv(s) && Possible(s, w, Call(op)) && w.list == s.wadog && Punctual(w) && SleepsAtLeast(Call(op), 0)
    requires !op.OpCondBroadcast? && TimerEvent(s, op) == Some(e)
    ensures Exact(s, w, Call(op)) <==> forall t :: !WakesEarly(w, Call(op), t) && !RunsFast(Turn(s, Call(op), w), t)
  {
    hide *;
    TurnFollows(s, op, w);
    SleepIsHarmless(s, op);
    EventShape(s, op, w, e);
    EarlyIff(w, e);
    if Exact(s, w, Call(op)) {
      forall t ensures !WakesEarly(w, Call(op), t) && !RunsFast(Turn(s, Call(op), w), t) {
        WakesIs(s, op, w, e, t);
        assert !WokenEarly(w, e, t) && !RunsFast(Advance(w, e), t);
      }
    } else {
      var t :| WokenEarly(w, e, t) || RunsFast(Advance(w, e), t);
      WakesIs(s, op, w, e, t);
    }
  }

  lemma EventShape(s: State, op: Op, w: Wheel, e: Event)
    requires !op.OpCondBroadcast? && TimerEvent(s, op) == Some(e) && Allowed(w, e) && Harmless(Some(e))
    ensures Turn(s, Call(op), w) == Advance(w, e)
    ensures Exact(s, w, Call(op)) <==> MeetsGuard(w, e)
    ensures e.Arm? ==> e.timeout >= 0
  {
    hide TimerEvent, Allowed, Advance, MeetsGuard;
  }

  lemma WakesIs(s: State, op: Op, w: Wheel, e: Event, t: Tid)
    requires TimerEvent(s, op) == Some(e)
    ensures WakesEarly(w, Call(op), t) <==> WokenEarly(w, e, t)
  {
    EventIsTick(s, op);
    hide TimerEvent, Has, Fired, Gap;
  }

  lemma NoEventNoTick(s: State, m: Moment)
    requires m.Elapse? || m.op.OpCondBroadcast? || TimerEvent(s, m.op).None?
    ensures m.Call? ==> TimerEvent(s, m.op).None? && !m.op.OpTickle?
  {
    hide Readied;
  }

  lemma EventIsTick(s: State, op: Op)
    requires TimerEvent(s, op).Some?
    ensures op.OpTickle? <==> TimerEvent(s, op).value == Tick
  {
    hide Readied;
  }

  lemma NoneFast(w: Wheel)
    requires Punctual(w)
    ensures forall t :: !RunsFast(w, t)
  {
  }

  /**
    Over every run without negative sleeps: no timer runs ahead and nobody is woken early iff every tick meets its
    guard and every timer is armed at the instant of a tick.
   */
  lemma {:induction false} MomentsArePunctualIff(s: State, ms: seq<Moment>, w: Wheel)
    requires Inv(s) && PossibleRun(s, w, ms) && w.list == s.wadog && Punctual(w) && AllSleepAtLeast(ms, 0)
    ensures PunctualMoments(s, w, ms) <==> ExactRun(s, w, ms)
    decreases |ms|
  {
    NoneFast(w);
    if ms != [] {
      MomentIsExactIff(s, ms[0], w);
      MomentFollows(s, ms[0], w);
      hide Inv, Possible, After, Turn, Punctual, Exact, RunsFast, WakesEarly;
      if Exact(s, w, ms[0]) {
        MomentsArePunctualIff(After(s, ms[0]), ms[1..], Turn(s, ms[0], w));
      } else {
        FastFails(After(s, ms[0]), Turn(s, ms[0], w), ms[1..]);
      }
    }
  }

  lemma FastFails(s: State, w: Wheel, ms: seq<Moment>)
    ensures PunctualMoments(s, w, ms) ==> forall t :: !RunsFast(w, t)
  {
    hide RunsFast;
  }

  lemma NoFiberIsEarlyIff(main: Tid, stale: Tcb, ms: seq<Moment>)
    requires RunAtLeast(main, stale, ms, 0)
    ensures PunctualMoments(Boot(main, stale), Midnight(), ms) <==> ExactRun(Boot(main, stale), Midnight(), ms)
  {
    BootInv(main, stale);
    assert Boot(main, stale).wadog == [] && Punctual(Midnight());
    hide Boot, Midnight, PunctualMoments, ExactRun;
    MomentsArePunctualIff(Boot(main, stale), ms, Midnight());
  }

  /** In such a run a tick that meets its guard fires precisely the timers whose instant has come. */
  lemma NoFiberIsEarly(main: Tid, stale: Tcb, ms: seq<Moment>, t: Tid)
    requires RunAtLeast(main, stale, ms, 0) && ExactRun(Boot(main, stale), Midnight(), ms)
    requires var s, w := RunOf(Boot(main, stale), ms), RunWheel(Boot(main, stale), ms, Midnight());
      Gap(w) > 0 && MeetsGuard(w, Tick) && Has(s.wadog, t)
    ensures var s, w := RunOf(Boot(main, stale), ms), RunWheel(Boot(main, stale), ms, Midnight());
      t in w.deadline && (Has(Tickle(s, Gap(w)).wadog, t) <==> w.deadline[t] > w.now)
  {
    var b := Boot(main, stale);
    var s, w := RunOf(b, ms), RunWheel(b, ms, Midnight());
    BootInv(main, stale);
    assert b.wadog == [] && Punctual(Midnight());
    hide Boot, Midnight;
    RunFollows(b, ms, Midnight());
    hide RunOf, RunWheel, PossibleRun, Inv, Punctual, ExactRun, MeetsGuard;
    TickleMoves(s, Gap(w));
    SharpTick(w, t);
  }

  lemma SharpTick(w: Wheel, t: Tid)
    requires Punctual(w) && Gap(w) > 0 && MeetsGuard(w, Tick) && Has(w.list, t)
    ensures t in w.deadline && (Has(Survivors(w.list, Gap(w)), t) <==> w.deadline[t] > w.now)
  {
    TickTimes(w.list, Gap(w), t);
    TickKeepsPunctual(w);
    assert !WokenEarly(w, Tick, t);
    TickAt(w.list, Gap(w), t);
  }
}
