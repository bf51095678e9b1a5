/**
  The run-time system of one service thread (the 1:N build): ready list, wait queues,
  watchdog list, and every blocking primitive. A `State` is what the thread's memory
  holds between two API calls; each function below is one API call of the running
  fiber, up to and including the context switch it ends in.
 */
module Scheduler {
  import opened Options
  import opened DeltaList

  /** The bits of a task's `state` word. */
  datatype Flags = Flags(transient: bool, suspended: bool, usleep: bool, timeout: bool,
                         event: bool, mutex: bool, sem: bool, cond: bool)

  const READY: Flags := Flags(false, false, false, false, false, false, false, false)

  /** Every chain a task's `node` link can be threaded on. */
  datatype Qid = Ready | MutexQ(m: nat) | SemQ(s: nat) | CondQ(c: nat)

  /** Where a task's `node` link points: on one chain, or on none. */
  datatype Place = Off | On(q: Qid)

  datatype Tcb = Tcb(flags: Flags, place: Place, code: nat, waitObj: Place,
                     pending: set<nat>, wanted: set<nat>, any: bool, seized: set<nat>)

  const BLANK: Tcb := Tcb(READY, Off, 0, Off, {}, {}, false, {})

  datatype Mutex = Mutex(holder: Option<Tid>, reentries: nat)

  datatype State = State(
    main: Tid,
    current: Tid,
    tasks: map<Tid, Tcb>,
    queues: map<Qid, seq<Tid>>,
    wadog: seq<Entry>,
    mutexes: map<nat, Mutex>,
    sems: map<nat, int>,
    nLocal: int)

  // ----- chains as sequences ---------------------------------------------

  predicate NoDup(q: seq<Tid>) {
    q != [] ==> q[0] !in q[1..] && NoDup(q[1..])
  }

  function Without(q: seq<Tid>, t: Tid): seq<Tid> {
    if q == [] then [] else if q[0] == t then q[1..] else [q[0]] + Without(q[1..], t)
  }

  /** Insert t directly before x. */
  function Before(q: seq<Tid>, x: Tid, t: Tid): seq<Tid> {
    if q == [] || q[0] == x then [t] + q else [q[0]] + Before(q[1..], x, t)
  }

  lemma {:induction false} WithoutFacts(q: seq<Tid>, t: Tid)
    requires NoDup(q)
    ensures NoDup(Without(q, t))
    ensures forall x :: x in Without(q, t) <==> x in q && x != t
    ensures |Without(q, t)| == if t in q then |q| - 1 else |q|
  {
    if q != [] && q[0] != t {
      WithoutFacts(q[1..], t);
      assert Without(q, t)[1..] == Without(q[1..], t);
    }
  }

  lemma {:induction false} WithoutLast(q: seq<Tid>, t: Tid)
    requires q != [] && q[|q| - 1] != t
    ensures Without(q, t) != [] && Without(q, t)[|Without(q, t)| - 1] == q[|q| - 1]
  {
    if q[0] != t && |q| > 1 {
      WithoutLast(q[1..], t);
    }
  }

  lemma {:induction false} NoDupAppend(q: seq<Tid>, t: Tid)
    requires NoDup(q) && t !in q
    ensures NoDup(q + [t])
  {
    if q != [] {
      NoDupAppend(q[1..], t);
      assert (q + [t])[1..] == q[1..] + [t];
    }
  }

  /** Inserting before the last element. */
  lemma {:induction false} BeforeFacts(q: seq<Tid>, x: Tid, t: Tid)
    requires NoDup(q) && q != [] && q[|q| - 1] == x && t !in q
    ensures NoDup(Before(q, x, t))
    ensures Before(q, x, t) == q[..|q| - 1] + [t, x]
    ensures forall y :: y in Before(q, x, t) <==> y == t || y in q
  {
    if q[0] == x {
      assert |q| == 1;
      assert Before(q, x, t)[1..] == q;
    } else {
      BeforeFacts(q[1..], x, t);
      assert Before(q, x, t)[1..] == Before(q[1..], x, t);
      assert q[..|q| - 1] == [q[0]] + q[1..][..|q| - 2];
    }
  }

  // ----- total accessors -------------------------------------------------

  function Queue(s: State, q: Qid): seq<Tid> {
    if q in s.queues then s.queues[q] else []
  }

  function Task(s: State, t: Tid): Tcb {
    if t in s.tasks then s.tasks[t] else BLANK
  }

  function Cur(s: State): Tcb { Task(s, s.current) }

  // ----- the three movements every primitive is made of --------------------

  /** fiber_sched: run the first ready task and put it back just before the maintask. */
  function Sched(s: State): State {
    var r := Queue(s, Ready);
    if r == [] || r[0] == s.current then s
    else s.(current := r[0],
            queues := s.queues[Ready := if r[0] != s.main then Before(r[1..], s.main, r[0]) else r[1..] + [r[0]]])
  }

  datatype Timer = NoTimer | After(time: int)

  /** The running task leaves the ready list with the given control block. */
  function Parked(s: State, tcb: Tcb, timer: Timer): State {
    var t := s.current;
    var qs := s.queues[Ready := Without(Queue(s, Ready), t)];
    s.(tasks := s.tasks[t := tcb],
       queues := if tcb.place.On? then qs[tcb.place.q := Queue(s, tcb.place.q) + [t]] else qs,
       wadog := if timer.After? then Inserted(s.wadog, t, timer.time) else s.wadog)
  }

  function Park(s: State, tcb: Tcb, timer: Timer): State {
    Sched(Parked(s, tcb, timer))
  }

  /** Task t leaves whatever chain it is on and becomes ready with the given control block. */
  function Woken(s: State, t: Tid, tcb: Tcb, wadog: seq<Entry>): State {
    var p := Task(s, t).place;
    var qs := if p.On? then s.queues[p.q := Without(Queue(s, p.q), t)] else s.queues;
    s.(tasks := s.tasks[t := tcb.(place := On(Ready))],
       queues := qs[Ready := Before(Queue(s, Ready), s.main, t)],
       wadog := wadog)
  }

  function Disarmed(s: State, t: Tid): seq<Entry> {
    if Task(s, t).flags.timeout then Removed(s.wadog, t) else s.wadog
  }

  function TimerFor(timeout: int): Timer {
    if timeout > 0 then After(timeout) else NoTimer
  }

  // ----- the API -----------------------------------------------------------

  /** fiber_create from a running thread. The event words of the recycled block are not cleared. */
  function Create(s: State, t: Tid, stale: Tcb): State {
    s.(tasks := s.tasks[t := stale.(flags := READY, place := On(Ready))],
       queues := s.queues[Ready := Before(Queue(s, Ready), s.main, t)],
       nLocal := s.nLocal + 1)
  }

  /** The tail of cpp_taskmain: the fiber dies and control goes straight to the maintask. */
  function Exit(s: State): State {
    s.(tasks := s.tasks - {s.current},
       queues := s.queues[Ready := Without(Queue(s, Ready), s.current)],
       nLocal := s.nLocal - 1,
       current := s.main)
  }

  function Yield(s: State, code: nat): State {
    Park(s, Cur(s).(code := code, flags := Cur(s).flags.(suspended := true), place := Off), NoTimer)
  }

  function Resume(s: State, t: Tid): State {
    Woken(s, t, Task(s, t).(flags := Task(s, t).flags.(suspended := false)), s.wadog)
  }

  function SchedYield(s: State): State {
    var r := Without(Queue(s, Ready), s.current);
    Sched(s.(queues := s.queues[Ready :=
      if s.current == s.main then r + [s.current] else Before(r, s.main, s.current)]))
  }

  function Usleep(s: State, usec: int): State {
    Park(s, Cur(s).(flags := Cur(s).flags.(usleep := true, timeout := true), place := Off), After(usec))
  }

  predicate Satisfied(pending: set<nat>, wanted: set<nat>, any: bool) {
    pending * wanted != {} && (wanted <= pending || any)
  }

  predicate EventReady(s: State, events: set<nat>, any: bool) {
    Satisfied(Cur(s).pending, events, any)
  }

  function EventWait(s: State, events: set<nat>, any: bool, timeout: int): State {
    if EventReady(s, events, any) then
      s.(tasks := s.tasks[s.current := Cur(s).(pending := Cur(s).pending - events)])
    else if timeout == 0 then s
    else
      Park(s, Cur(s).(seized := {}, wanted := events, any := any, place := Off,
                      flags := Cur(s).flags.(event := true, timeout := timeout > 0)), TimerFor(timeout))
  }

  function EventPost(s: State, t: Tid, events: set<nat>): State {
    var tcb := Task(s, t);
    var p := tcb.pending + events;
    if !tcb.flags.event || !Satisfied(p, tcb.wanted, tcb.any) then
      s.(tasks := s.tasks[t := tcb.(pending := p)])
    else
      Woken(s, t, tcb.(pending := p - tcb.wanted, seized := p * tcb.wanted,
                       flags := tcb.flags.(event := false, timeout := false)), Disarmed(s, t))
  }

  function MutexInit(s: State, m: nat): State {
    s.(mutexes := s.mutexes[m := Mutex(None, 0)], queues := s.queues[MutexQ(m) := []])
  }

  function MutexOf(s: State, m: nat): Mutex {
    if m in s.mutexes then s.mutexes[m] else Mutex(None, 0)
  }

  function MutexLock(s: State, m: nat): State {
    var mx := MutexOf(s, m);
    if mx.holder == Some(s.current) then
      s.(mutexes := s.mutexes[m := mx.(reentries := mx.reentries + 1)])
    else if mx.holder == None then
      s.(mutexes := s.mutexes[m := Mutex(Some(s.current), 1)])
    else
      Park(s, Cur(s).(flags := Cur(s).flags.(mutex := true), place := On(MutexQ(m))), NoTimer)
  }

  function MutexUnlock(s: State, m: nat): State {
    var mx := MutexOf(s, m);
    var q := Queue(s, MutexQ(m));
    if mx.holder != Some(s.current) then s
    else if mx.reentries > 1 then s.(mutexes := s.mutexes[m := mx.(reentries := mx.reentries - 1)])
    else if q == [] then s.(mutexes := s.mutexes[m := Mutex(None, 0)])
    else
      Woken(s.(mutexes := s.mutexes[m := Mutex(Some(q[0]), 1)]), q[0],
            Task(s, q[0]).(flags := Task(s, q[0]).flags.(mutex := false)), s.wadog)
  }

  function SemInit(s: State, x: nat, value: int): State {
    s.(sems := s.sems[x := value], queues := s.queues[SemQ(x) := []])
  }

  function CountOf(s: State, x: nat): int {
    if x in s.sems then s.sems[x] else 0
  }

  function Counted(s: State, x: nat, d: int): State {
    s.(sems := s.sems[x := CountOf(s, x) + d])
  }

  function SemWait(s: State, x: nat): State {
    if CountOf(s, x) > 0 then Counted(s, x, -1)
    else Park(Counted(s, x, -1), Cur(s).(flags := Cur(s).flags.(sem := true), place := On(SemQ(x))), NoTimer)
  }

  function SemTimedWait(s: State, x: nat, timeout: int): State {
    if CountOf(s, x) > 0 then Counted(s, x, -1)
    else if timeout == 0 then s
    else
      Park(Counted(s, x, -1),
           Cur(s).(flags := Cur(s).flags.(sem := true, timeout := timeout > 0), place := On(SemQ(x)),
                   waitObj := On(SemQ(x)), code := 0), TimerFor(timeout))
  }

  function Granted(tcb: Tcb): Tcb {
    tcb.(flags := tcb.flags.(sem := false, timeout := false), code := 1)
  }

  function Notified(tcb: Tcb): Tcb {
    tcb.(flags := tcb.flags.(cond := false, timeout := false), code := 1)
  }

  function SemPost(s: State, x: nat): State {
    var q := Queue(s, SemQ(x));
    if q == [] then Counted(s, x, 1)
    else Woken(Counted(s, x, 1), q[0], Granted(Task(s, q[0])), Disarmed(s, q[0]))
  }

  function CondInit(s: State, c: nat): State {
    s.(queues := s.queues[CondQ(c) := []])
  }

  function CondWait(s: State, c: nat): State {
    Park(s, Cur(s).(flags := Cur(s).flags.(cond := true), place := On(CondQ(c))), NoTimer)
  }

  function CondTimedWait(s: State, c: nat, timeout: int): State {
    if timeout == 0 then s
    else
      Park(s, Cur(s).(flags := Cur(s).flags.(cond := true, timeout := timeout > 0), place := On(CondQ(c)),
                      waitObj := On(CondQ(c)), code := 0), TimerFor(timeout))
  }

  function CondSignal(s: State, c: nat): State {
    var q := Queue(s, CondQ(c));
    if q == [] then s else Woken(s, q[0], Notified(Task(s, q[0])), Disarmed(s, q[0]))
  }

  /** Signal n times. */
  function Signals(s: State, c: nat, n: nat): State
    decreases n
  {
    if n == 0 then s else Signals(CondSignal(s, c), c, n - 1)
  }

  function CondBroadcast(s: State, c: nat): State {
    Signals(s, c, |Queue(s, CondQ(c))|)
  }

  // ----- the timer --------------------------------------------------------

  /** Which of the three wake-up branches of the tick applies. */
  predicate Wakeable(f: Flags) { f.sem || f.cond || f.event || f.usleep }

  function TimedOut(tcb: Tcb): Tcb {
    tcb.(flags :=
      if tcb.flags.sem || tcb.flags.cond then tcb.flags.(timeout := false, sem := false, cond := false)
      else if tcb.flags.event then tcb.flags.(timeout := false, event := false)
      else tcb.flags.(timeout := false, usleep := false))
  }

  /** One expired entry: the head of the watchdog list. */
  function Fire(s: State): State
    requires s.wadog != []
  {
    var t := s.wadog[0].task;
    if Wakeable(Task(s, t).flags) then Woken(s, t, TimedOut(Task(s, t)), s.wadog[1..])
    else s.(tasks := s.tasks[t := TimedOut(Task(s, t))], wadog := s.wadog[1..])
  }

  function Tickle(s: State, gap: int): State
    decreases |s.wadog|
  {
    if s.wadog == [] then s
    else if s.wadog[0].delta > gap then
      s.(wadog := [s.wadog[0].(delta := s.wadog[0].delta - gap)] + s.wadog[1..])
    else Tickle(Fire(s), gap)
  }

  // ----- steps and runs ------------------------------------------------------

  datatype Op =
    | OpCreate(t: Tid, stale: Tcb) | OpExit | OpYield(code: nat) | OpResume(t: Tid)
    | OpSchedYield | OpUsleep(usec: int)
    | OpEventWait(events: set<nat>, any: bool, timeout: int) | OpEventPost(t: Tid, events: set<nat>)
    | OpMutexInit(m: nat) | OpMutexLock(m: nat) | OpMutexUnlock(m: nat)
    | OpSemInit(x: nat, value: int) | OpSemWait(x: nat) | OpSemTimedWait(x: nat, timeout: int) | OpSemPost(x: nat)
    | OpCondInit(c: nat) | OpCondWait(c: nat) | OpCondTimedWait(c: nat, timeout: int)
    | OpCondSignal(c: nat) | OpCondBroadcast(c: nat)
    | OpTickle(gap: int)

  /** Does the call take the caller off the ready list? */
  predicate Blocks(s: State, op: Op) {
    match op
    case OpYield(_) => true
    case OpUsleep(_) => true
    case OpEventWait(ev, any, timeout) => !EventReady(s, ev, any) && timeout != 0
    case OpMutexLock(m) => MutexOf(s, m).holder != None && MutexOf(s, m).holder != Some(s.current)
    case OpSemWait(x) => CountOf(s, x) <= 0
    case OpSemTimedWait(x, timeout) => CountOf(s, x) <= 0 && timeout != 0
    case OpCondWait(_) => true
    case OpCondTimedWait(_, timeout) => timeout != 0
    case _ => false
  }

  /**
    What the library asks of its callers: handles denote live objects, only a suspended
    fiber is resumed, the maintask never blocks, and only it ticks the watchdog.
   */
  predicate Enabled(s: State, op: Op) {
    && (s.current == s.main ==> !Blocks(s, op))
    && match op
       case OpCreate(t, _) => t !in s.tasks
       case OpExit => s.current != s.main
       case OpResume(t) => t in s.tasks && s.tasks[t].flags.suspended
       case OpEventPost(t, _) => t in s.tasks
       case OpMutexInit(m) => m !in s.mutexes
       case OpMutexLock(m) => m in s.mutexes
       case OpMutexUnlock(m) => m in s.mutexes
       case OpSemInit(x, _) => x !in s.sems
       case OpSemWait(x) => x in s.sems
       case OpSemTimedWait(x, _) => x in s.sems
       case OpSemPost(x) => x in s.sems
       case OpCondInit(c) => CondQ(c) !in s.queues
       case OpCondWait(c) => CondQ(c) in s.queues
       case OpCondTimedWait(c, _) => CondQ(c) in s.queues
       case OpCondSignal(c) => CondQ(c) in s.queues
       case OpCondBroadcast(c) => CondQ(c) in s.queues
       case OpTickle(_) => s.current == s.main
       case _ => true
  }

  function Step(s: State, op: Op): State {
    match op
    case OpCreate(t, stale) => Create(s, t, stale)
    case OpExit => Exit(s)
    case OpYield(code) => Yield(s, code)
    case OpResume(t) => Resume(s, t)
    case OpSchedYield => SchedYield(s)
    case OpUsleep(usec) => Usleep(s, usec)
    case OpEventWait(ev, any, timeout) => EventWait(s, ev, any, timeout)
    case OpEventPost(t, ev) => EventPost(s, t, ev)
    case OpMutexInit(m) => MutexInit(s, m)
    case OpMutexLock(m) => MutexLock(s, m)
    case OpMutexUnlock(m) => MutexUnlock(s, m)
    case OpSemInit(x, v) => SemInit(s, x, v)
    case OpSemWait(x) => SemWait(s, x)
    case OpSemTimedWait(x, timeout) => SemTimedWait(s, x, timeout)
    case OpSemPost(x) => SemPost(s, x)
    case OpCondInit(c) => CondInit(s, c)
    case OpCondWait(c) => CondWait(s, c)
    case OpCondTimedWait(c, timeout) => CondTimedWait(s, c, timeout)
    case OpCondSignal(c) => CondSignal(s, c)
    case OpCondBroadcast(c) => CondBroadcast(s, c)
    case OpTickle(gap) => Tickle(s, gap)
  }

  predicate EnabledRun(s: State, ops: seq<Op>)
    decreases |ops|
  {
    ops == [] || (Enabled(s, ops[0]) && EnabledRun(Step(s, ops[0]), ops[1..]))
  }

  function Run(s: State, ops: seq<Op>): State
    decreases |ops|
  {
    if ops == [] then s else Run(Step(s, ops[0]), ops[1..])
  }

  /** A thread whose maintask has just been created. */
  function Boot(main: Tid, stale: Tcb): State {
    State(main, main, map[main := stale.(flags := READY, place := On(Ready))], map[Ready := [main]], [], map[], map[], 1)
  }
}
