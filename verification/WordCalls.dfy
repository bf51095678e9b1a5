/**
  The calls of the 1:N run-time on memory words: every call that moves fibers between chains, made of
  the chain macros, takes a memory that holds the queues of a state to one that holds the queues of the
  state after the call. Flags, counts and timers are read off the state; the chains are in memory only.
 */
module WordCalls {
  import opened Options
  import opened DeltaList
  import opened Scheduler
  import opened SchedulerInvariant
  import opened SchedulerEffects
  import opened CondClients
  import opened Kernel
  import opened NodeMemory

  lemma Rehold(mem: seq<nat>, l: Layout, s: State, w: seq<Entry>)
    ensures Holds(mem, l, s.tasks.Keys, s.queues, w) <==> Rep(mem, l, s, w)
  {
    hide Holds;
  }

  /** The header and the control blocks of a held state have addresses. */
  lemma Addresses(mem: seq<nat>, l: Layout, s: State, w: seq<Entry>, q: Qid)
    requires Rep(mem, l, s, w) && q in s.queues
    ensures Of(q) in l.head
  {
    hide Family, LaidOut, ChainsOf;
  }

  // ----- blocking calls -----------------------------------------------------------------

  /** Leave the ready list, join a queue if the call has one, switch. */
  method BlockOnWords(mem: array<nat>, l: Layout, s: State, op: Op, ghost w: seq<Entry>)
    requires Inv(s) && Enabled(s, op) && Blocks(s, op) && Rep(mem[..], l, s, w)
    modifies mem
    ensures Rep(mem[..], l, Step(s, op), w)
  {
    hide *;
    var base, tcb := ParkBase(s, op), ParkTcb(s, op);
    ghost var timer := ParkTimer(op);
    BlockingIsPark(s, op);
    BlockingCanPark(s, op);
    BlockingCore(s, op);
    BlockPlan(mem[..], l, s, op, w);
    var joins := tcb.place.On?;
    ParkOnWords(mem, At(l.node, s.current), joins, if joins then l.head[Of(tcb.place.q)] else 0, l, base, tcb, timer, w);
    ghost var p := Parked(base, tcb, timer);
    Rehold(mem[..], l, p, w);
    var _ := SchedOnWords(mem, l.head[Of(Ready)], At(l.node, s.current), At(l.node, s.main), l, p, w);
    ParkIs(base, tcb, timer);
  }

  lemma ParkIs(s: State, tcb: Tcb, timer: Timer)
    ensures Park(s, tcb, timer) == Sched(Parked(s, tcb, timer))
  {
    hide Sched, Parked;
  }

  lemma ReadyIn(s: State)
    requires MainLast(s)
    ensures Ready in s.queues
  {
  }

  lemma ParkedKeys(s: State, tcb: Tcb, timer: Timer)
    requires s.current in s.tasks
    ensures var p := Parked(s, tcb, timer);
      p.tasks.Keys == s.tasks.Keys && p.current == s.current && p.main == s.main
  {
    hide Without, Inserted;
  }

  lemma SameRep(mem: seq<nat>, l: Layout, s: State, b: State, w: seq<Entry>)
    requires Rep(mem, l, s, w) && b.tasks == s.tasks && b.queues == s.queues
    ensures Rep(mem, l, b, w)
  {
    hide Holds;
  }

  lemma BlockPlan(mem: seq<nat>, l: Layout, s: State, op: Op, w: seq<Entry>)
    requires Inv(s) && Enabled(s, op) && Blocks(s, op) && Rep(mem, l, s, w)
    requires ParkBase(s, op) == s.(sems := ParkBase(s, op).sems)
    requires CanPark(ParkBase(s, op), ParkTcb(s, op), ParkTimer(op))
    ensures var b, k := ParkBase(s, op), ParkTcb(s, op);
            var p := Parked(b, k, ParkTimer(op));
      && b.current == s.current && b.main == s.main && Rep(mem, l, b, w)
      && Of(Ready) in l.head && (k.place.On? ==> Of(k.place.q) in l.head)
      && p.tasks.Keys == b.tasks.Keys && p.current == s.current && p.main == s.main && s.current in p.tasks
  {
    hide *;
    var b, k, timer := ParkBase(s, op), ParkTcb(s, op), ParkTimer(op);
    RunningIsReady(s);
    ParkingFrom(b, k, timer);
    ReadyIn(b);
    ParkedKeys(b, k, timer);
    SameRep(mem, l, s, b, w);
    Addresses(mem, l, b, w, Ready);
    if k.place.On? { Addresses(mem, l, b, w, k.place.q); }
  }

  // ----- yielding --------------------------------------------------------------------------

  method YieldOnWords(mem: array<nat>, l: Layout, s: State, ghost w: seq<Entry>)
    requires Inv(s) && Rep(mem[..], l, s, w)
    modifies mem
    ensures Rep(mem[..], l, SchedYield(s), w)
  {
    hide *;
    ghost var tasks, qs := s.tasks.Keys, s.queues;
    RunningIsReady(s);
    YieldPlan(mem[..], l, s, w);
    SteppedBack(s);
    Rehold(mem[..], l, s, w);
    NodeAt(mem[..], l, tasks, qs, w, s.current);
    NodeAt(mem[..], l, tasks, qs, w, s.main);
    AfterTakeOff(tasks, qs, Ready, s.current);
    var cur, mainNode, ready := At(l.node, s.current), At(l.node, s.main), l.head[Of(Ready)];
    TakeOff(mem, cur, l, tasks, qs, w, Ready, s.current);
    ghost var q := Without(qs[Ready], s.current);
    ghost var q1 := qs[Ready := q];
    if s.current == s.main {
      PutLast(mem, ready, cur, l, tasks, q1, w, Ready, s.current);
    } else {
      PutBefore(mem, mainNode, cur, l, tasks, q1, w, Ready, s.main, s.current);
    }
    ghost var r := s.(queues := qs[Ready := if s.current == s.main then q + [s.current] else Before(q, s.main, s.current)]);
    Requeue(qs, Ready, q, r.queues[Ready]);
    Rehold(mem[..], l, r, w);
    var _ := SchedOnWords(mem, ready, cur, mainNode, l, r, w);
  }

  lemma YieldShape(s: State)
    requires Inv(s)
    ensures Ready in s.queues && s.current in s.queues[Ready]
    ensures var q := Without(s.queues[Ready], s.current); s.current != s.main ==> q != [] && q[|q| - 1] == s.main
  {
    if s.current != s.main { WithoutLast(s.queues[Ready], s.current); }
  }

  lemma YieldPlan(mem: seq<nat>, l: Layout, s: State, w: seq<Entry>)
    requires Inv(s) && Rep(mem, l, s, w)
    ensures Ready in s.queues && s.current in s.queues[Ready] && s.main in s.tasks && Of(Ready) in l.head
    ensures Once(s.tasks.Keys, s.queues)
    ensures var q := Without(s.queues[Ready], s.current); s.current != s.main ==> q != [] && q[|q| - 1] == s.main
  {
    hide *;
    InvIsCore(s);
    CoreOnce(s);
    ReadyShape(s);
    Addresses(mem, l, s, w, Ready);
    YieldShape(s);
  }

  // ----- waking calls ------------------------------------------------------------------------

  predicate WakesOne(op: Op) { op.OpResume? || op.OpEventPost? || op.OpMutexUnlock? || op.OpSemPost? || op.OpCondSignal? }

  /** What waking does to the queues depends on where the task is, not on what is written to it. */
  lemma OnlyQueues(s: State, r: State, t: Tid, tcb: Tcb, timers: seq<Entry>)
    requires r.queues == s.queues && r.main == s.main && Task(r, t).place == Task(s, t).place
    ensures Woken(r, t, tcb, timers).queues == Woken(s, t, BLANK, []).queues
  {
    hide Before, Without;
  }

  lemma ResumeQueues(s: State, t: Tid)
    ensures Step(s, OpResume(t)).queues == Woken(s, t, BLANK, []).queues && Readied(s, OpResume(t)) == [t]
  {
    hide Woken;
    OnlyQueues(s, s, t, Task(s, t).(flags := Task(s, t).flags.(suspended := false)), s.wadog);
  }

  lemma EventPostQueues(s: State, t: Tid, ev: set<nat>)
    ensures Readied(s, OpEventPost(t, ev)) == [] ==> Step(s, OpEventPost(t, ev)).queues == s.queues
    ensures Readied(s, OpEventPost(t, ev)) != [] ==>
      Readied(s, OpEventPost(t, ev)) == [t] && Step(s, OpEventPost(t, ev)).queues == Woken(s, t, BLANK, []).queues
  {
    hide Woken, Satisfied, Disarmed;
    var k := Task(s, t);
    var p := k.pending + ev;
    OnlyQueues(s, s, t, k.(pending := p - k.wanted, seized := p * k.wanted,
                           flags := k.flags.(event := false, timeout := false)), Disarmed(s, t));
  }

  lemma UnlockQueues(s: State, m: nat)
    requires Inv(s) && m in s.mutexes
    ensures Readied(s, OpMutexUnlock(m)) == [] ==> Step(s, OpMutexUnlock(m)).queues == s.queues
    ensures Readied(s, OpMutexUnlock(m)) != [] ==>
      Step(s, OpMutexUnlock(m)).queues == Woken(s, Readied(s, OpMutexUnlock(m))[0], BLANK, []).queues
  {
    MutexAt(s, m);
    hide Woken, Core;
    if Readied(s, OpMutexUnlock(m)) != [] {
      var t := Readied(s, OpMutexUnlock(m))[0];
      OnlyQueues(s, s.(mutexes := s.mutexes[m := Mutex(Some(t), 1)]), t,
                 Task(s, t).(flags := Task(s, t).flags.(mutex := false)), s.wadog);
    }
  }

  lemma PostQueues(s: State, x: nat)
    ensures Readied(s, OpSemPost(x)) == [] ==> Step(s, OpSemPost(x)).queues == s.queues
    ensures Readied(s, OpSemPost(x)) != [] ==>
      Step(s, OpSemPost(x)).queues == Woken(s, Readied(s, OpSemPost(x))[0], BLANK, []).queues
  {
    hide Woken, Granted, Disarmed;
    if Queue(s, SemQ(x)) != [] {
      var t := Queue(s, SemQ(x))[0];
      OnlyQueues(s, Counted(s, x, 1), t, Granted(Task(s, t)), Disarmed(s, t));
    }
  }

  lemma SignalQueues(s: State, c: nat)
    ensures Readied(s, OpCondSignal(c)) == [] ==> Step(s, OpCondSignal(c)).queues == s.queues
    ensures Readied(s, OpCondSignal(c)) != [] ==>
      Step(s, OpCondSignal(c)).queues == Woken(s, Readied(s, OpCondSignal(c))[0], BLANK, []).queues
  {
    hide Woken, Notified, Disarmed;
    if Queue(s, CondQ(c)) != [] {
      var t := Queue(s, CondQ(c))[0];
      OnlyQueues(s, s, t, Notified(Task(s, t)), Disarmed(s, t));
    }
  }

  lemma NotWaking(op: Op)
    ensures WakesOne(op) ==> op.OpResume? || op.OpEventPost? || op.OpMutexUnlock? || op.OpSemPost? || op.OpCondSignal?
  {
  }

  /** The queues after a waking call: nothing moves, or one task leaves its queue for the ready list. */
  lemma WakeQueues(s: State, op: Op)
    requires Inv(s) && Enabled(s, op) && WakesOne(op)
    ensures Readied(s, op) == [] ==> Step(s, op).queues == s.queues
    ensures Readied(s, op) != [] ==>
      && Readied(s, op)[0] in s.tasks && s.tasks[Readied(s, op)[0]].place != On(Ready)
      && Step(s, op).queues == Woken(s, Readied(s, op)[0], BLANK, []).queues
  {
    if Readied(s, op) != [] { WokenIsOff(s, op); }
    if op.OpMutexUnlock? { assert op.m in s.mutexes; }
    hide *;
    match op {
      case OpResume(t) => ResumeQueues(s, t);
      case OpEventPost(t, ev) => EventPostQueues(s, t, ev);
      case OpMutexUnlock(m) => UnlockQueues(s, m);
      case OpSemPost(x) => PostQueues(s, x);
      case OpCondSignal(c) => SignalQueues(s, c);
      case _ => NotWaking(op);
    }
  }

  lemma WokenIsOff(s: State, op: Op)
    requires Inv(s) && Enabled(s, op) && WakesOne(op) && Readied(s, op) != []
    ensures Readied(s, op)[0] in s.tasks && s.tasks[Readied(s, op)[0]].place != On(Ready)
  {
    hide Core;
    var t := Readied(s, op)[0];
    match op {
      case OpMutexUnlock(m) => QueuedAt(s, MutexQ(m), t);
      case OpSemPost(x) => QueuedAt(s, SemQ(x), t);
      case OpCondSignal(c) => QueuedAt(s, CondQ(c), t);
      case _ => AgreeAt(s, t);
    }
  }

  method WakeOneOnWords(mem: array<nat>, l: Layout, s: State, op: Op, ghost w: seq<Entry>)
    requires Inv(s) && Enabled(s, op) && WakesOne(op) && Rep(mem[..], l, s, w)
    modifies mem
    ensures Rep(mem[..], l, Step(s, op), w)
  {
    hide *;
    WakeQueues(s, op);
    KeysKeptBy(s, op);
    Rehold(mem[..], l, s, w);
    InvIsCore(s);
    var ts := Readied(s, op);
    if ts != [] {
      var t := ts[0];
      WakeOnWords(mem, At(l.node, t), At(l.node, s.main), s.tasks[t].place.On?, l, s, t, BLANK, [], w);
    }
    Rehold(mem[..], l, Step(s, op), w);
  }

  lemma InvIsCore(s: State)
    requires Inv(s)
    ensures Core(s)
  {
  }

  lemma KeysKeptBy(s: State, op: Op)
    requires Inv(s) && Enabled(s, op) && WakesOne(op)
    ensures Step(s, op).tasks.Keys == s.tasks.Keys
  {
    StepTasks(s, op);
    hide Inv, Enabled, Step;
  }

  /** One signal after the other, as long as there is a waiter. */
  method BroadcastOnWords(mem: array<nat>, l: Layout, s: State, c: nat, ghost w: seq<Entry>)
    requires Inv(s) && CondQ(c) in s.queues && Rep(mem[..], l, s, w)
    modifies mem
    ensures Rep(mem[..], l, CondBroadcast(s, c), w)
  {
    hide *;
    var r, n := s, |s.queues[CondQ(c)]|;
    BroadcastIs(s, c);
    while n > 0
      invariant Inv(r) && CondQ(c) in r.queues && n == |r.queues[CondQ(c)]|
      invariant Rep(mem[..], l, r, w) && Signals(r, c, n) == CondBroadcast(s, c)
    {
      SignalPlan(r, c, n);
      WakeOneOnWords(mem, l, r, OpCondSignal(c), w);
      r, n := CondSignal(r, c), n - 1;
    }
    NoSignals(r, c);
  }

  lemma BroadcastIs(s: State, c: nat)
    requires CondQ(c) in s.queues
    ensures CondBroadcast(s, c) == Signals(s, c, |s.queues[CondQ(c)]|)
  {
    hide Signals;
  }

  lemma NoSignals(s: State, c: nat)
    ensures Signals(s, c, 0) == s
  {
  }

  lemma SignalIs(s: State, c: nat, n: nat)
    requires CondQ(c) in s.queues && n > 0
    ensures Enabled(s, OpCondSignal(c)) && WakesOne(OpCondSignal(c)) && Step(s, OpCondSignal(c)) == CondSignal(s, c)
    ensures Signals(s, c, n) == Signals(CondSignal(s, c), c, n - 1)
  {
    hide CondSignal;
  }

  lemma SignalPlan(s: State, c: nat, n: nat)
    requires Inv(s) && CondQ(c) in s.queues && n == |s.queues[CondQ(c)]| && n > 0
    ensures Enabled(s, OpCondSignal(c)) && WakesOne(OpCondSignal(c)) && Step(s, OpCondSignal(c)) == CondSignal(s, c)
    ensures Inv(CondSignal(s, c)) && CondQ(c) in CondSignal(s, c).queues && |CondSignal(s, c).queues[CondQ(c)]| == n - 1
    ensures Signals(s, c, n) == Signals(CondSignal(s, c), c, n - 1)
  {
    CondSignalInv(s, c);
    CondSignalMoves(s, c);
    SignalIs(s, c, n);
    hide *;
  }

  /** The tick: every fired task leaves its queue, if it has one, for the ready list. */
  method TickOnWords(mem: array<nat>, l: Layout, s: State, gap: int, ghost w: seq<Entry>)
    requires Inv(s) && Rep(mem[..], l, s, w)
    modifies mem
    ensures Rep(mem[..], l, Tickle(s, gap), w)
  {
    hide *;
    var r := s;
    while r.wadog != [] && r.wadog[0].delta <= gap
      invariant Inv(r) && Rep(mem[..], l, r, w) && Tickle(r, gap) == Tickle(s, gap)
      decreases |r.wadog|
    {
      FirePlan(r, gap);
      Rehold(mem[..], l, r, w);
      InvIsCore(r);
      var t := r.wadog[0].task;
      WakeOnWords(mem, At(l.node, t), At(l.node, r.main), r.tasks[t].place.On?, l, r, t, BLANK, [], w);
      r := Fire(r);
      Rehold(mem[..], l, r, w);
    }
    TickEnds(r, gap);
    Rehold(mem[..], l, r, w);
    Rehold(mem[..], l, Tickle(r, gap), w);
  }

  lemma FirePlan(s: State, gap: int)
    requires Inv(s) && s.wadog != [] && s.wadog[0].delta <= gap
    ensures var t := s.wadog[0].task;
      && t in s.tasks && s.tasks[t].place != On(Ready)
      && Fire(s).queues == Woken(s, t, BLANK, []).queues && Fire(s).tasks.Keys == s.tasks.Keys
      && Inv(Fire(s)) && |Fire(s).wadog| < |s.wadog| && Tickle(s, gap) == Tickle(Fire(s), gap)
  {
    FireInv(s);
    ArmedHead(s);
    FireTasks(s);
    hide Core, Before, Without, Agree;
  }

  lemma TickEnds(s: State, gap: int)
    requires s.wadog == [] || s.wadog[0].delta > gap
    ensures Tickle(s, gap).queues == s.queues && Tickle(s, gap).tasks == s.tasks
  {
  }

  // ----- birth and death ----------------------------------------------------------------------

  /** The arrangement of the chains does not depend on which control blocks are alive. */
  lemma HoldsFor(mem: seq<nat>, l: Layout, tasks: set<Tid>, alive: set<Tid>, queues: map<Qid, seq<Tid>>, w: seq<Entry>)
    requires Holds(mem, l, tasks, queues, w) && LaidOut(l, alive, |mem|)
    ensures Holds(mem, l, alive, queues, w)
  {
    hide Family, LaidOut, ChainsOf;
  }

  lemma FewerLaidOut(l: Layout, tasks: set<Tid>, alive: set<Tid>, size: nat)
    requires LaidOut(l, tasks, size) && alive <= tasks
    ensures LaidOut(l, alive, size)
  {
  }

  method CreateOnWords(mem: array<nat>, l: Layout, s: State, t: Tid, ghost stale: Tcb, ghost w: seq<Entry>)
    requires Inv(s) && t !in s.tasks && Rep(mem[..], l, s, w) && LaidOut(l, s.tasks.Keys + {t}, mem.Length)
    modifies mem
    ensures Rep(mem[..], l, Create(s, t, stale), w)
  {
    hide *;
    ghost var qs, alive := s.queues, s.tasks.Keys + {t};
    InvIsCore(s);
    CreatePlan(s, t, stale);
    Rehold(mem[..], l, s, w);
    HoldsFor(mem[..], l, s.tasks.Keys, alive, qs, w);
    NodeAt(mem[..], l, alive, qs, w, t);
    NodeAt(mem[..], l, alive, qs, w, s.main);
    PutBefore(mem, At(l.node, s.main), At(l.node, t), l, alive, qs, w, Ready, s.main, t);
    Rehold(mem[..], l, Create(s, t, stale), w);
  }

  lemma CreatePlan(s: State, t: Tid, stale: Tcb)
    requires Inv(s) && t !in s.tasks
    ensures Ready in s.queues && s.queues[Ready] != [] && s.queues[Ready][|s.queues[Ready]| - 1] == s.main && s.main in s.tasks
    ensures Once(s.tasks.Keys + {t}, s.queues) && Nowhere(s.queues, t)
    ensures Create(s, t, stale).queues == s.queues[Ready := Before(s.queues[Ready], s.main, t)]
    ensures Create(s, t, stale).tasks.Keys == s.tasks.Keys + {t}
  {
    CoreOnce(s);
    ReadyShape(s);
    assert s.queues[Ready][|s.queues[Ready]| - 1] == s.main;
    hide Core, Before, NoDup, Without;
  }

  method ExitOnWords(mem: array<nat>, l: Layout, s: State, ghost w: seq<Entry>)
    requires Inv(s) && s.current != s.main && Rep(mem[..], l, s, w)
    modifies mem
    ensures Rep(mem[..], l, Exit(s), w)
  {
    hide *;
    ghost var qs := s.queues;
    InvIsCore(s);
    CoreOnce(s);
    YieldShape(s);
    RunningIsReady(s);
    ExitShape(s);
    Rehold(mem[..], l, s, w);
    NodeAt(mem[..], l, s.tasks.Keys, qs, w, s.current);
    TakeOff(mem, At(l.node, s.current), l, s.tasks.Keys, qs, w, Ready, s.current);
    LaidOutOf(mem[..], l, s.tasks.Keys, Exit(s).queues, w);
    FewerLaidOut(l, s.tasks.Keys, Exit(s).tasks.Keys, mem.Length);
    HoldsFor(mem[..], l, s.tasks.Keys, Exit(s).tasks.Keys, Exit(s).queues, w);
    Rehold(mem[..], l, Exit(s), w);
  }

  lemma ExitShape(s: State)
    requires Ready in s.queues
    ensures Exit(s).queues == s.queues[Ready := Without(s.queues[Ready], s.current)] && Exit(s).tasks.Keys <= s.tasks.Keys
  {
    hide Without;
  }

  lemma LaidOutOf(mem: seq<nat>, l: Layout, tasks: set<Tid>, queues: map<Qid, seq<Tid>>, w: seq<Entry>)
    requires Holds(mem, l, tasks, queues, w)
    ensures LaidOut(l, tasks, |mem|)
  {
    hide Family, LaidOut, ChainsOf;
  }

  // ----- every call -----------------------------------------------------------------------------

  predicate MakesObject(op: Op) { op.OpMutexInit? || op.OpSemInit? || op.OpCondInit? }

  /** The remaining calls take what they want at once and move nobody. */
  lemma QuietQueues(s: State, op: Op)
    requires Inv(s) && Enabled(s, op) && !Blocks(s, op) && !WakesOne(op) && !MakesObject(op)
    requires !op.OpSchedYield? && !op.OpCondBroadcast? && !op.OpTickle? && !op.OpCreate? && !op.OpExit?
    ensures Step(s, op).queues == s.queues && Step(s, op).tasks.Keys == s.tasks.Keys
  {
    StepTasks(s, op);
    QuietStep(s, op);
    hide Inv, Enabled, Step, Blocks;
  }

  lemma QuietStep(s: State, op: Op)
    requires !Blocks(s, op) && !WakesOne(op) && !MakesObject(op)
    requires !op.OpSchedYield? && !op.OpCondBroadcast? && !op.OpTickle? && !op.OpCreate? && !op.OpExit?
    ensures Step(s, op).queues == s.queues
  {
    hide Park, Satisfied;
  }

  lemma StepShapes(s: State, op: Op)
    requires Enabled(s, op)
    ensures op.OpCreate? ==> op.t !in s.tasks && Step(s, op) == Create(s, op.t, op.stale)
    ensures op.OpExit? ==> s.current != s.main && Step(s, op) == Exit(s)
    ensures op.OpSchedYield? ==> Step(s, op) == SchedYield(s)
    ensures op.OpCondBroadcast? ==> CondQ(op.c) in s.queues && Step(s, op) == CondBroadcast(s, op.c)
    ensures op.OpTickle? ==> Step(s, op) == Tickle(s, op.gap)
  {
    hide Create, Exit, SchedYield, CondBroadcast, Tickle;
  }

  /**
    Every call of the run-time but the making of objects, on memory words: the memory goes from the
    queues of the state before to the queues of the state after, whatever watchdog list lies beside them.
   */
  method StepOnWords(mem: array<nat>, l: Layout, s: State, op: Op, ghost w: seq<Entry>)
    requires Inv(s) && Enabled(s, op) && !MakesObject(op) && Rep(mem[..], l, s, w)
    requires op.OpCreate? ==> LaidOut(l, s.tasks.Keys + {op.t}, mem.Length)
    modifies mem
    ensures Rep(mem[..], l, Step(s, op), w)
  {
    hide *;
    StepShapes(s, op);
    if Blocks(s, op) {
      BlockOnWords(mem, l, s, op, w);
    } else if op.OpCreate? {
      CreateOnWords(mem, l, s, op.t, op.stale, w);
    } else if op.OpExit? {
      ExitOnWords(mem, l, s, w);
    } else if op.OpSchedYield? {
      YieldOnWords(mem, l, s, w);
    } else if op.OpCondBroadcast? {
      BroadcastOnWords(mem, l, s, op.c, w);
    } else if op.OpTickle? {
      TickOnWords(mem, l, s, op.gap, w);
    } else if WakesOne(op) {
      WakeOneOnWords(mem, l, s, op, w);
    } else {
      QuietQueues(s, op);
      Rehold(mem[..], l, s, w);
      Rehold(mem[..], l, Step(s, op), w);
    }
  }

  /** The calls of a run make no object and create only fibers that have a control block in the layout. */
  predicate Within(ops: seq<Op>, everyone: set<Tid>) {
    forall i :: 0 <= i < |ops| ==> !MakesObject(ops[i]) && (ops[i].OpCreate? ==> ops[i].t in everyone)
  }

  /** Whole runs on words. */
  method RunOnWords(mem: array<nat>, l: Layout, s: State, ops: seq<Op>, ghost everyone: set<Tid>, ghost w: seq<Entry>)
    requires Inv(s) && EnabledRun(s, ops) && Rep(mem[..], l, s, w)
    requires s.tasks.Keys <= everyone && LaidOut(l, everyone, mem.Length) && Within(ops, everyone)
    modifies mem
    ensures Rep(mem[..], l, Run(s, ops), w)
  {
    hide *;
    var r, i := s, 0;
    RunStart(s, ops);
    while i < |ops|
      invariant 0 <= i <= |ops| && Inv(r) && Rep(mem[..], l, r, w) && r.tasks.Keys <= everyone
      invariant EnabledRun(r, ops[i..]) && Run(r, ops[i..]) == Run(s, ops)
    {
      RunPlan(r, ops, i, l, everyone, mem.Length);
      StepOnWords(mem, l, r, ops[i], w);
      r, i := Step(r, ops[i]), i + 1;
    }
    RunEnd(r, ops);
  }

  lemma RunStart(s: State, ops: seq<Op>)
    ensures ops[0..] == ops
  {
  }

  lemma RunEnd(s: State, ops: seq<Op>)
    ensures Run(s, ops[|ops|..]) == s
  {
  }

  lemma RunPlan(s: State, ops: seq<Op>, i: nat, l: Layout, everyone: set<Tid>, size: nat)
    requires Inv(s) && i < |ops| && EnabledRun(s, ops[i..]) && Within(ops, everyone)
    requires s.tasks.Keys <= everyone && LaidOut(l, everyone, size)
    ensures Enabled(s, ops[i]) && !MakesObject(ops[i]) && Inv(Step(s, ops[i])) && Step(s, ops[i]).tasks.Keys <= everyone
    ensures ops[i].OpCreate? ==> LaidOut(l, s.tasks.Keys + {ops[i].t}, size)
    ensures EnabledRun(Step(s, ops[i]), ops[i + 1..]) && Run(s, ops[i..]) == Run(Step(s, ops[i]), ops[i + 1..])
  {
    assert ops[i..][0] == ops[i] && ops[i..][1..] == ops[i + 1..];
    hide Inv, Step, Enabled, LaidOut, MakesObject;
    StepInv(s, ops[i]);
    StepTasks(s, ops[i]);
    if ops[i].OpCreate? { FewerLaidOut(l, everyone, s.tasks.Keys + {ops[i].t}, size); }
  }
}
