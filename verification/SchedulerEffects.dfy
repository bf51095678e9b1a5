/**
  What each API call does to one wait queue, to the ready list, and to the tasks it
  does not concern. The theorems over whole runs are built on these.
 */
module SchedulerEffects {
  import opened Options
  import opened DeltaList
  import opened Scheduler
  import opened SchedulerInvariant

  // ----- one wait queue ------------------------------------------------------

  /** What a call does to one wait queue. */
  datatype Move = Stay | Join | Serve | Clear | Expire(gap: int)

  function MoveOn(s: State, op: Op, q: Qid): Move {
    match op
    case OpMutexLock(m) => if q == MutexQ(m) && Blocks(s, op) then Join else Stay
    case OpSemWait(x) => if q == SemQ(x) && Blocks(s, op) then Join else Stay
    case OpSemTimedWait(x, _) => if q == SemQ(x) && Blocks(s, op) then Join else Stay
    case OpCondWait(c) => if q == CondQ(c) then Join else Stay
    case OpCondTimedWait(c, _) => if q == CondQ(c) && Blocks(s, op) then Join else Stay
    case OpMutexUnlock(m) =>
      if q == MutexQ(m) && MutexOf(s, m) == Mutex(Some(s.current), 1) && Queue(s, q) != [] then Serve else Stay
    case OpSemPost(x) => if q == SemQ(x) && Queue(s, q) != [] then Serve else Stay
    case OpCondSignal(c) => if q == CondQ(c) && Queue(s, q) != [] then Serve else Stay
    case OpCondBroadcast(c) => if q == CondQ(c) then Clear else Stay
    case OpTickle(gap) => Expire(gap)
    case _ => Stay
  }

  /** The tasks of q whose timers one tick fires, in firing order. */
  function Expired(s: State, gap: int, q: Qid): seq<Tid>
    decreases |s.wadog|
  {
    if s.wadog == [] || s.wadog[0].delta > gap then []
    else
      var t := s.wadog[0].task;
      (if Task(s, t).place == On(q) then [t] else []) + Expired(Fire(s), gap, q)
  }

  function WithoutAll(q: seq<Tid>, ts: seq<Tid>): seq<Tid>
    decreases |ts|
  {
    if ts == [] then q else WithoutAll(Without(q, ts[0]), ts[1..])
  }

  function Moved(s: State, m: Move, q: Qid): seq<Tid> {
    match m
    case Stay => Queue(s, q)
    case Join => Queue(s, q) + [s.current]
    case Serve => if Queue(s, q) == [] then [] else Queue(s, q)[1..]
    case Clear => []
    case Expire(gap) => WithoutAll(Queue(s, q), Expired(s, gap, q))
  }

  /** Parking touches one wait queue at most, and only its tail. */
  lemma ParkOnly(s: State, tcb: Tcb, timer: Timer, q: Qid)
    requires q in s.queues && q != Ready && Ready in s.queues
    ensures q in Park(s, tcb, timer).queues
    ensures Park(s, tcb, timer).queues[q] ==
            if tcb.place == On(q) then s.queues[q] + [s.current] else s.queues[q]
  {
  }

  /** Waking touches the queue the fiber was on, and the ready list. */
  lemma WokenOnly(s: State, t: Tid, tcb: Tcb, w: seq<Entry>, q: Qid)
    requires q in s.queues && q != Ready && t in s.tasks
    ensures q in Woken(s, t, tcb, w).queues
    ensures Woken(s, t, tcb, w).queues[q] ==
            if s.tasks[t].place == On(q) then Without(s.queues[q], t) else s.queues[q]
  {
  }

  lemma {:induction false} SignalsQueue(s: State, c: nat, n: nat, q: Qid)
    requires Inv(s) && CondQ(c) in s.queues && n <= |s.queues[CondQ(c)]|
    requires q in s.queues && q != Ready
    ensures q in Signals(s, c, n).queues
    ensures Signals(s, c, n).queues[q] == if q == CondQ(c) then s.queues[q][n..] else s.queues[q]
    decreases n
  {
    hide Core;
    if n > 0 {
      CondSignalShrinks(s, c);
      SignalQueue(s, c, q);
      SignalsQueue(CondSignal(s, c), c, n - 1, q);
    }
  }

  lemma SignalQueue(s: State, c: nat, q: Qid)
    requires Inv(s) && CondQ(c) in s.queues && s.queues[CondQ(c)] != []
    requires q in s.queues && q != Ready
    ensures q in CondSignal(s, c).queues
    ensures CondSignal(s, c).queues[q] == if q == CondQ(c) then s.queues[q][1..] else s.queues[q]
  {
    CondSignalMoves(s, c);
  }

  lemma {:induction false} TickleQueue(s: State, gap: int, q: Qid)
    requires Inv(s) && q in s.queues && q != Ready
    ensures q in Tickle(s, gap).queues
    ensures Tickle(s, gap).queues[q] == WithoutAll(s.queues[q], Expired(s, gap, q))
    decreases |s.wadog|
  {
    if s.wadog != [] && s.wadog[0].delta <= gap {
      FireQueue(s, q);
      hide Inv, Fire;
      TickleQueue(Fire(s), gap, q);
      ExpiredStep(s, gap, q);
      hide *;
    }
  }

  lemma ExpiredStep(s: State, gap: int, q: Qid)
    requires s.wadog != [] && s.wadog[0].delta <= gap && q in s.queues
    ensures Tickle(s, gap) == Tickle(Fire(s), gap)
    ensures var t := s.wadog[0].task;
      WithoutAll(s.queues[q], Expired(s, gap, q)) ==
      WithoutAll(if Task(s, t).place == On(q) then Without(s.queues[q], t) else s.queues[q], Expired(Fire(s), gap, q))
  {
    hide Fire, Without;
    var t := s.wadog[0].task;
    var rest := Expired(Fire(s), gap, q);
    if Task(s, t).place == On(q) {
      assert ([t] + rest)[0] == t && ([t] + rest)[1..] == rest;
    } else {
      assert [] + rest == rest;
    }
  }

  lemma FireQueue(s: State, q: Qid)
    requires Inv(s) && s.wadog != [] && q in s.queues && q != Ready
    ensures Inv(Fire(s)) && q in Fire(s).queues
    ensures Fire(s).queues[q] ==
            if Task(s, s.wadog[0].task).place == On(q) then Without(s.queues[q], s.wadog[0].task) else s.queues[q]
  {
    var t := s.wadog[0].task;
    assert Has(s.wadog, t);
    FireInv(s);
    hide Inv;
    WokenOnly(s, t, TimedOut(Task(s, t)), s.wadog[1..], q);
  }

  lemma ServedFromHead(s: State, q: Qid)
    requires Inv(s) && q in s.queues && s.queues[q] != []
    ensures s.queues[q][0] in s.tasks && s.tasks[s.queues[q][0]].place == On(q)
    ensures Without(s.queues[q], s.queues[q][0]) == s.queues[q][1..]
  {
  }

  lemma WakeHeadQueue(s: State, tcb: Tcb, w: seq<Entry>, h: Qid, q: Qid)
    requires Inv(s) && q in s.queues && q != Ready && h in s.queues && h != Ready && s.queues[h] != []
    ensures var r := Woken(s, s.queues[h][0], tcb, w);
      q in r.queues && r.queues[q] == if q == h then s.queues[q][1..] else s.queues[q]
  {
    ServedFromHead(s, h);
    hide Inv;
    WokenOnly(s, s.queues[h][0], tcb, w, q);
  }

  lemma UnlockQueue(s: State, m: nat, q: Qid)
    requires Inv(s) && m in s.mutexes && q in s.queues && q != Ready
    ensures q in MutexUnlock(s, m).queues
    ensures MutexUnlock(s, m).queues[q] == Moved(s, MoveOn(s, OpMutexUnlock(m), q), q)
  {
    var h := MutexQ(m);
    if s.mutexes[m] == Mutex(Some(s.current), 1) && s.queues[h] != [] {
      var t := s.queues[h][0];
      var tcb := Task(s, t).(flags := Task(s, t).flags.(mutex := false));
      WakeHeadQueue(s, tcb, s.wadog, h, q);
      hide Inv;
      assert MutexUnlock(s, m) == Woken(s, t, tcb, s.wadog).(mutexes := s.mutexes[m := Mutex(Some(t), 1)]);
    }
  }

  lemma PostWakes(s: State, x: nat)
    requires x in s.sems && Queue(s, SemQ(x)) != []
    ensures var t := Queue(s, SemQ(x))[0];
      SemPost(s, x) == Woken(s, t, Granted(Task(s, t)), Disarmed(s, t)).(sems := s.sems[x := s.sems[x] + 1])
  {
    hide Granted, Disarmed, Before, Without;
  }

  lemma PostQueue(s: State, x: nat, q: Qid)
    requires Inv(s) && x in s.sems && q in s.queues && q != Ready
    ensures q in SemPost(s, x).queues
    ensures SemPost(s, x).queues[q] == Moved(s, MoveOn(s, OpSemPost(x), q), q)
  {
    var h := SemQ(x);
    QueueExists(s, h);
    if s.queues[h] != [] {
      var t := s.queues[h][0];
      WakeHeadQueue(s, Granted(Task(s, t)), Disarmed(s, t), h, q);
      hide Inv, Woken, Granted, Disarmed;
      PostWakes(s, x);
    }
    hide Inv;
  }

  lemma ResumeQueue(s: State, t: Tid, q: Qid)
    requires Inv(s) && t in s.tasks && s.tasks[t].flags.suspended && q in s.queues && q != Ready
    ensures q in Resume(s, t).queues && Resume(s, t).queues[q] == s.queues[q]
  {
    assert Agree(s.tasks[t]);
  }

  lemma EventPostQueue(s: State, t: Tid, events: set<nat>, q: Qid)
    requires Inv(s) && t in s.tasks && q in s.queues && q != Ready
    ensures q in EventPost(s, t, events).queues && EventPost(s, t, events).queues[q] == s.queues[q]
  {
    assert Agree(s.tasks[t]);
  }

  lemma BlockingQueue(s: State, op: Op, q: Qid)
    requires Ready in s.queues && q in s.queues && q != Ready && Blocks(s, op)
    ensures q in Step(s, op).queues
    ensures Step(s, op).queues[q] == Moved(s, MoveOn(s, op, q), q)
  {
    BlockingIsPark(s, op);
    ParkOnly(ParkBase(s, op), ParkTcb(s, op), ParkTimer(op), q);
    hide Park, Step;
  }

  lemma FreshObjects(s: State)
    requires Inv(s)
    ensures forall m :: m !in s.mutexes ==> MutexQ(m) !in s.queues
    ensures forall x :: x !in s.sems ==> SemQ(x) !in s.queues
  {
  }

  lemma ReadyExists(s: State)
    requires Inv(s)
    ensures Ready in s.queues
  {
  }

  /** Exact effect of every call on every wait queue. */
  lemma StepQueue(s: State, op: Op, q: Qid)
    requires Inv(s) && Enabled(s, op) && q in s.queues && q != Ready
    ensures q in Step(s, op).queues
    ensures Step(s, op).queues[q] == Moved(s, MoveOn(s, op, q), q)
  {
    hide Core, Park, Woken;
    if Blocks(s, op) {
      ReadyExists(s);
      BlockingQueue(s, op, q);
    } else {
      match op
      case OpMutexUnlock(m) => UnlockQueue(s, m, q);
      case OpSemPost(x) => PostQueue(s, x, q);
      case OpCondSignal(c) =>
        if Queue(s, CondQ(c)) != [] { SignalQueue(s, c, q); }
      case OpResume(t) => ResumeQueue(s, t, q);
      case OpEventPost(t, ev) => EventPostQueue(s, t, ev, q);
      case OpCondBroadcast(c) => SignalsQueue(s, c, |Queue(s, CondQ(c))|, q);
      case OpTickle(gap) => TickleQueue(s, gap, q);
      case OpMutexInit(m) => FreshObjects(s);
      case OpSemInit(x, _) => FreshObjects(s);
      case _ =>
    }
  }


  // ----- the ready list ---------------------------------------------------------

  /** The ready list without its last element, the maintask. */
  function Others(s: State): seq<Tid> {
    var r := Queue(s, Ready);
    if r == [] then [] else r[..|r| - 1]
  }

  /** Does the call go through fiber_sched? */
  predicate CallsSched(s: State, op: Op) {
    Blocks(s, op) || op.OpSchedYield?
  }

  /** The tasks a call makes ready, in the order they join the ready list. */
  function Readied(s: State, op: Op): seq<Tid> {
    match op
    case OpCreate(t, _) => [t]
    case OpResume(t) => [t]
    case OpEventPost(t, ev) =>
      var k := Task(s, t);
      if k.flags.event && Satisfied(k.pending + ev, k.wanted, k.any) then [t] else []
    case OpMutexUnlock(m) => if MoveOn(s, op, MutexQ(m)) == Serve then [Queue(s, MutexQ(m))[0]] else []
    case OpSemPost(x) => if MoveOn(s, op, SemQ(x)) == Serve then [Queue(s, SemQ(x))[0]] else []
    case OpCondSignal(c) => if MoveOn(s, op, CondQ(c)) == Serve then [Queue(s, CondQ(c))[0]] else []
    case OpCondBroadcast(c) => Queue(s, CondQ(c))
    case OpTickle(gap) => Order(Fired(s.wadog, gap))
    case _ => []
  }

  lemma WokenReady(s: State, t: Tid, tcb: Tcb, w: seq<Entry>)
    requires Chains(s) && MainLast(s) && t in s.tasks && s.tasks[t].place != On(Ready)
    ensures var r := Woken(s, t, tcb, w);
      && Ready in r.queues && r.queues[Ready] == Others(s) + [t, s.main] && r.main == s.main
      && Others(r) == Others(s) + [t]
  {
    BeforeFacts(s.queues[Ready], s.main, t);
  }

  lemma {:induction false} SignalsReady(s: State, c: nat, n: nat)
    requires Inv(s) && CondQ(c) in s.queues && n <= |s.queues[CondQ(c)]|
    ensures Others(Signals(s, c, n)) == Others(s) + s.queues[CondQ(c)][..n]
    ensures Signals(s, c, n).main == s.main && Signals(s, c, n).current == s.current
    decreases n
  {
    hide Core, CondSignal, Others;
    if n > 0 {
      SignalReady(s, c);
      SignalsReady(CondSignal(s, c), c, n - 1);
      var q := s.queues[CondQ(c)];
      assert q[..n] == [q[0]] + q[1..][..n - 1];
    } else {
      assert s.queues[CondQ(c)][..0] == [];
    }
  }

  lemma ReadyNotEmpty(s: State)
    requires Inv(s)
    ensures Ready in s.queues && s.queues[Ready] != []
  {
  }

  lemma OthersGain(s: State, r: State, t: Tid)
    requires Ready in s.queues && s.queues[Ready] != [] && Ready in r.queues && r.main == s.main
    requires r.queues[Ready] == s.queues[Ready][..|s.queues[Ready]| - 1] + [t, s.main]
    ensures Others(r) == Others(s) + [t]
  {
    var o := s.queues[Ready][..|s.queues[Ready]| - 1];
    assert o + [t, s.main] == (o + [t]) + [s.main];
    OthersOf(r, o + [t]);
  }

  lemma SignalReady(s: State, c: nat)
    requires Inv(s) && CondQ(c) in s.queues && s.queues[CondQ(c)] != []
    ensures var r := CondSignal(s, c);
      && Inv(r) && CondQ(c) in r.queues
      && Others(r) == Others(s) + [s.queues[CondQ(c)][0]]
      && r.queues[CondQ(c)] == s.queues[CondQ(c)][1..]
      && r.main == s.main && r.current == s.current
  {
    CondSignalInv(s, c);
    CondSignalMoves(s, c);
    QueueExists(s, Ready);
    QueueExists(CondSignal(s, c), Ready);
    ReadyNotEmpty(s);
    hide *;
    OthersGain(s, CondSignal(s, c), s.queues[CondQ(c)][0]);
  }

  lemma FireReady(s: State)
    requires Inv(s) && s.wadog != []
    ensures Inv(Fire(s)) && Others(Fire(s)) == Others(s) + [s.wadog[0].task]
    ensures Fire(s).wadog == s.wadog[1..] && Fire(s).main == s.main && Fire(s).current == s.current
  {
    FireInv(s);
    var t := s.wadog[0].task;
    assert Has(s.wadog, t) && Agree(s.tasks[t]);
    WokenReady(s, t, TimedOut(Task(s, t)), s.wadog[1..]);
  }

  lemma NoneReadied(s: State, gap: int)
    requires s.wadog == [] || s.wadog[0].delta > gap
    ensures Readied(s, OpTickle(gap)) == []
  {
  }

  lemma ReadiedNext(s: State, r: State, gap: int)
    requires s.wadog != [] && s.wadog[0].delta <= gap && r.wadog == s.wadog[1..]
    ensures Readied(s, OpTickle(gap)) == [s.wadog[0].task] + Readied(r, OpTickle(gap))
    ensures Survivors(s.wadog, gap) == Survivors(r.wadog, gap)
  {
    OrderOf(s.wadog[0], Fired(s.wadog[1..], gap));
  }

  /** A tick: the list becomes its survivors and exactly the fired tasks become ready, in order. */
  lemma {:induction false} TickleMoves(s: State, gap: int)
    requires Inv(s)
    ensures Tickle(s, gap).wadog == Survivors(s.wadog, gap)
    ensures Others(Tickle(s, gap)) == Others(s) + Readied(s, OpTickle(gap))
    ensures Tickle(s, gap).main == s.main && Tickle(s, gap).current == s.current
    decreases |s.wadog|
  {
    hide Inv, Fire, Others, Readied, Order;
    if s.wadog != [] && s.wadog[0].delta <= gap {
      FireReady(s);
      TickleMoves(Fire(s), gap);
      ReadiedNext(s, Fire(s), gap);
    } else {
      NoneReadied(s, gap);
      SameReady(s, Tickle(s, gap));
    }
  }

  /** Calls that do not reschedule only append to the ready list, before the maintask. */
  lemma StepReady(s: State, op: Op)
    requires Inv(s) && Enabled(s, op) && !CallsSched(s, op) && op != OpExit
    ensures Others(Step(s, op)) == Others(s) + Readied(s, op)
    ensures Step(s, op).current == s.current && Step(s, op).main == s.main
  {
    hide Core, Others, Woken, Before;
    match op
    case OpCreate(t, stale) => CreateReady(s, t, stale);
    case OpResume(t) => ResumeReady(s, t);
    case OpEventPost(t, ev) => EventPostReady(s, t, ev);
    case OpMutexUnlock(m) => UnlockReady(s, m);
    case OpSemPost(x) => PostReady(s, x);
    case OpCondSignal(c) => if Queue(s, CondQ(c)) != [] { SignalReady(s, c); }
    case OpCondBroadcast(c) =>
      SignalsReady(s, c, |Queue(s, CondQ(c))|);
    case OpTickle(gap) => TickleMoves(s, gap);
    case _ => SameReady(s, Step(s, op));
  }

  lemma SameReady(s: State, r: State)
    requires Queue(r, Ready) == Queue(s, Ready)
    ensures Others(r) == Others(s)
  {
  }

  lemma CreateReady(s: State, t: Tid, stale: Tcb)
    requires Inv(s) && t !in s.tasks
    ensures Others(Create(s, t, stale)) == Others(s) + [t]
  {
    BeforeFacts(s.queues[Ready], s.main, t);
  }

  lemma ResumeReady(s: State, t: Tid)
    requires Inv(s) && t in s.tasks && s.tasks[t].flags.suspended
    ensures Others(Resume(s, t)) == Others(s) + [t]
    ensures Resume(s, t).current == s.current && Resume(s, t).main == s.main
  {
    assert Agree(s.tasks[t]);
    WokenReady(s, t, Task(s, t).(flags := Task(s, t).flags.(suspended := false)), s.wadog);
  }

  lemma EventPostReady(s: State, t: Tid, events: set<nat>)
    requires Inv(s) && t in s.tasks
    ensures Others(EventPost(s, t, events)) == Others(s) + Readied(s, OpEventPost(t, events))
    ensures EventPost(s, t, events).current == s.current && EventPost(s, t, events).main == s.main
  {
    var k := s.tasks[t];
    assert Agree(k);
    var p := k.pending + events;
    if k.flags.event && Satisfied(p, k.wanted, k.any) {
      WokenReady(s, t, k.(pending := p - k.wanted, seized := p * k.wanted,
                 flags := k.flags.(event := false, timeout := false)), Disarmed(s, t));
    }
  }

  lemma UnlockReady(s: State, m: nat)
    requires Inv(s) && m in s.mutexes
    ensures Others(MutexUnlock(s, m)) == Others(s) + Readied(s, OpMutexUnlock(m))
    ensures MutexUnlock(s, m).current == s.current && MutexUnlock(s, m).main == s.main
  {
    hide Before, Without, NoDup;
    if s.mutexes[m] == Mutex(Some(s.current), 1) && s.queues[MutexQ(m)] != [] {
      HandoffWakes(s, m);
      var t := s.queues[MutexQ(m)][0];
      WokenReady(s, t, Owning(Task(s, t)), s.wadog);
    }
  }

  lemma PostReady(s: State, x: nat)
    requires Inv(s) && x in s.sems
    ensures Others(SemPost(s, x)) == Others(s) + Readied(s, OpSemPost(x))
    ensures SemPost(s, x).current == s.current && SemPost(s, x).main == s.main
  {
    if s.queues[SemQ(x)] != [] {
      GrantWakes(s, x);
      var t := s.queues[SemQ(x)][0];
      WokenReady(s, t, Granted(Task(s, t)), Disarmed(s, t));
    }
  }

  // --- rescheduling rotates the ready list

  /** The ready fibers in the order fiber_sched sees them, after the caller has stepped back. */
  function Lineup(s: State, op: Op): seq<Tid> {
    if Blocks(s, op) then Without(Others(s), s.current)
    else if s.current == s.main then Others(s)
    else Without(Others(s), s.current) + [s.current]
  }

  lemma {:induction false} WithoutInit(q: seq<Tid>, t: Tid)
    requires q != [] && q[|q| - 1] != t
    ensures Without(q, t) == Without(q[..|q| - 1], t) + [q[|q| - 1]]
  {
    var i := q[..|q| - 1];
    if |q| > 1 {
      assert i[0] == q[0] && i[1..] == q[1..][..|q| - 2];
      if q[0] != t {
        WithoutInit(q[1..], t);
      }
    }
  }

  /** fiber_sched is a rotation of the ready fibers; the maintask runs only when they are none. */
  ghost predicate Rotated(o: seq<Tid>, main: Tid, r: State) {
    && r.main == main
    && (o == [] ==> r.current == main && Others(r) == [])
    && (o != [] ==> r.current == o[0] && Others(r) == o[1..] + [o[0]])
  }

  lemma RotateSeq(o: seq<Tid>, main: Tid)
    requires o != [] && NoDup(o + [main])
    ensures o[0] != main
    ensures Before(o[1..] + [main], main, o[0]) == (o[1..] + [o[0]]) + [main]
  {
    var x := o[1..] + [main];
    assert NoDup(x) && o[0] !in x by { assert (o + [main])[1..] == x; }
    hide NoDup, Before;
    BeforeFacts(x, main, o[0]);
    assert x[|o| - 1] == main && x[..|o| - 1] == o[1..];
    assert o[1..] + [o[0], main] == (o[1..] + [o[0]]) + [main];
  }

  lemma OthersOf(s: State, o: seq<Tid>)
    requires Queue(s, Ready) == o + [s.main]
    ensures Others(s) == o
  {
    assert (o + [s.main])[..|o|] == o;
  }

  lemma SchedRotates(s: State, o: seq<Tid>)
    requires Ready in s.queues && s.queues[Ready] == o + [s.main] && NoDup(o + [s.main])
    requires o != [] && o[0] == s.current ==> |o| == 1
    ensures Rotated(o, s.main, Sched(s))
  {
    OthersOf(s, o);
    if o != [] && o[0] != s.current {
      RotateSeq(o, s.main);
      assert (o + [s.main])[1..] == o[1..] + [s.main];
      hide Before;
      OthersOf(Sched(s), o[1..] + [o[0]]);
    }
  }

  lemma OthersNoDup(s: State)
    requires Chains(s) && MainLast(s)
    ensures s.main !in Others(s) && NoDup(Others(s)) && s.queues[Ready] == Others(s) + [s.main]
  {
    var r := s.queues[Ready];
    assert r == r[..|r| - 1] + [r[|r| - 1]];
    InitNoDup(r);
  }

  lemma {:induction false} InitNoDup(q: seq<Tid>)
    requires q != [] && NoDup(q)
    ensures NoDup(q[..|q| - 1]) && q[|q| - 1] !in q[..|q| - 1]
  {
    if |q| > 1 {
      InitNoDup(q[1..]);
      assert q[..|q| - 1] == [q[0]] + q[1..][..|q| - 2];
    }
  }

  lemma ParkedReady(s: State, tcb: Tcb, timer: Timer)
    requires Chains(s) && MainLast(s) && s.current != s.main && tcb.place != On(Ready)
    ensures Ready in Parked(s, tcb, timer).queues
    ensures Parked(s, tcb, timer).queues[Ready] == Without(Others(s), s.current) + [s.main]
  {
    WithoutInit(s.queues[Ready], s.current);
  }

  lemma ParkRotates(s: State, tcb: Tcb, timer: Timer)
    requires Chains(s) && MainLast(s) && s.current != s.main && tcb.place != On(Ready)
    ensures Rotated(Without(Others(s), s.current), s.main, Park(s, tcb, timer))
  {
    ParkedReady(s, tcb, timer);
    OthersNoDup(s);
    var o := Without(Others(s), s.current);
    WithoutFacts(Others(s), s.current);
    NoDupAppend(o, s.main);
    SchedRotates(Parked(s, tcb, timer), o);
  }


  /** Every blocking call is one Park, from the state with the semaphore already counted down. */
  function ParkBase(s: State, op: Op): State {
    match op
    case OpSemWait(x) => Counted(s, x, -1)
    case OpSemTimedWait(x, _) => Counted(s, x, -1)
    case _ => s
  }

  function ParkTcb(s: State, op: Op): Tcb {
    var k := Cur(s);
    match op
    case OpYield(code) => k.(code := code, flags := k.flags.(suspended := true), place := Off)
    case OpUsleep(_) => k.(flags := k.flags.(usleep := true, timeout := true), place := Off)
    case OpEventWait(ev, any, timeout) =>
      k.(seized := {}, wanted := ev, any := any, place := Off, flags := k.flags.(event := true, timeout := timeout > 0))
    case OpMutexLock(m) => k.(flags := k.flags.(mutex := true), place := On(MutexQ(m)))
    case OpSemWait(x) => k.(flags := k.flags.(sem := true), place := On(SemQ(x)))
    case OpSemTimedWait(x, timeout) =>
      k.(flags := k.flags.(sem := true, timeout := timeout > 0), place := On(SemQ(x)), waitObj := On(SemQ(x)), code := 0)
    case OpCondWait(c) => k.(flags := k.flags.(cond := true), place := On(CondQ(c)))
    case OpCondTimedWait(c, timeout) =>
      k.(flags := k.flags.(cond := true, timeout := timeout > 0), place := On(CondQ(c)), waitObj := On(CondQ(c)), code := 0)
    case _ => k
  }

  function ParkTimer(op: Op): Timer {
    match op
    case OpUsleep(usec) => After(usec)
    case OpEventWait(_, _, timeout) => TimerFor(timeout)
    case OpSemTimedWait(_, timeout) => TimerFor(timeout)
    case OpCondTimedWait(_, timeout) => TimerFor(timeout)
    case _ => NoTimer
  }

  lemma BlockingIsPark(s: State, op: Op)
    requires Blocks(s, op)
    ensures Step(s, op) == Park(ParkBase(s, op), ParkTcb(s, op), ParkTimer(op))
    ensures ParkTcb(s, op).place != On(Ready)
    ensures ParkBase(s, op) == s.(sems := ParkBase(s, op).sems)
  {
    hide Park;
  }

  lemma BlockingRotates(s: State, op: Op)
    requires Inv(s) && Enabled(s, op) && Blocks(s, op)
    ensures Rotated(Lineup(s, op), s.main, Step(s, op))
  {
    BlockingIsPark(s, op);
    var b := ParkBase(s, op);
    SwapObjects(s, b);
    hide Inv, ParkTcb, ParkTimer, ParkBase;
    ParkRotates(b, ParkTcb(s, op), ParkTimer(op));
  }

  lemma MainYieldRotates(s: State)
    requires Chains(s) && MainLast(s) && s.current == s.main
    ensures Rotated(Others(s), s.main, SchedYield(s))
  {
    OthersNoDup(s);
    WithoutLastElement(Others(s), s.main);
    var r := s.(queues := s.queues[Ready := Others(s) + [s.main]]);
    assert SchedYield(s) == Sched(r);
    hide SchedYield, Sched, Others;
    SchedRotates(r, Others(s));
  }

  lemma FiberYieldRotates(s: State)
    requires Chains(s) && MainLast(s) && s.current != s.main && s.current in s.queues[Ready]
    ensures Rotated(Without(Others(s), s.current) + [s.current], s.main, SchedYield(s))
  {
    OthersNoDup(s);
    var t := s.current;
    var o := Without(Others(s), t);
    WithoutFacts(Others(s), t);
    WithoutInit(s.queues[Ready], t);
    StepBack(o, s.main, t);
    var r := s.(queues := s.queues[Ready := (o + [t]) + [s.main]]);
    assert SchedYield(s) == Sched(r);
    hide SchedYield, Sched, Others, Without;
    SchedRotates(r, o + [t]);
  }

  lemma StepBack(o: seq<Tid>, main: Tid, t: Tid)
    requires NoDup(o) && main !in o && t !in o && t != main
    ensures Before(o + [main], main, t) == (o + [t]) + [main] && NoDup((o + [t]) + [main])
  {
    NoDupAppend(o, main);
    BeforeFacts(o + [main], main, t);
    assert (o + [main])[..|o|] == o;
    NoDupAppend(o, t);
    NoDupAppend(o + [t], main);
  }

  lemma YieldRotates(s: State)
    requires Inv(s)
    ensures Rotated(Lineup(s, OpSchedYield), s.main, SchedYield(s))
  {
    hide SchedYield, Rotated;
    if s.current == s.main { MainYieldRotates(s); } else { FiberYieldRotates(s); }
  }

  lemma {:induction false} WithoutLastElement(q: seq<Tid>, t: Tid)
    requires t !in q
    ensures Without(q + [t], t) == q
  {
    if q != [] {
      WithoutLastElement(q[1..], t);
      assert (q + [t])[1..] == q[1..] + [t];
    }
  }

  /** Every rescheduling call rotates the ready fibers by one. */
  lemma StepRotates(s: State, op: Op)
    requires Inv(s) && Enabled(s, op) && CallsSched(s, op)
    ensures Rotated(Lineup(s, op), s.main, Step(s, op))
  {
    hide Core, Rotated, Lineup;
    if Blocks(s, op) { BlockingRotates(s, op); } else { YieldRotates(s); }
  }

  lemma ExitReady(s: State)
    requires Inv(s) && s.current != s.main
    ensures Others(Exit(s)) == Without(Others(s), s.current)
  {
    WithoutInit(s.queues[Ready], s.current);
  }

  // ----- one task ---------------------------------------------------------------

  /** The control block of task t after a call, for every call and every task. */
  function TcbAfter(s: State, op: Op, t: Tid): Tcb {
    var k := Task(s, t);
    if Blocks(s, op) then if t == s.current then ParkTcb(s, op) else k
    else
      match op
      case OpEventWait(ev, any, _) =>
        if t == s.current && EventReady(s, ev, any) then k.(pending := k.pending - ev) else k
      case OpEventPost(u, ev) =>
        if t != u then k
        else if k.flags.event && Satisfied(k.pending + ev, k.wanted, k.any) then
          k.(pending := k.pending + ev - k.wanted, seized := (k.pending + ev) * k.wanted,
             flags := READY, place := On(Ready))
        else k.(pending := k.pending + ev)
      case OpSemPost(x) => if t in Readied(s, op) then k.(flags := READY, place := On(Ready), code := 1) else k
      case OpCondSignal(c) => if t in Readied(s, op) then k.(flags := READY, place := On(Ready), code := 1) else k
      case OpCondBroadcast(c) => if t in Readied(s, op) then k.(flags := READY, place := On(Ready), code := 1) else k
      case _ => if t in Readied(s, op) then k.(flags := READY, place := On(Ready)) else k
  }

  lemma {:induction false} SignalsTcb(s: State, c: nat, n: nat, t: Tid)
    requires Inv(s) && CondQ(c) in s.queues && n <= |s.queues[CondQ(c)]| && t in s.tasks
    ensures t in Signals(s, c, n).tasks
    ensures Signals(s, c, n).tasks[t] ==
            if t in s.queues[CondQ(c)][..n] then s.tasks[t].(flags := READY, place := On(Ready), code := 1) else s.tasks[t]
    decreases n
  {
    hide Core, CondSignal;
    if n > 0 {
      SignalTcb(s, c, t);
      SignalsTcb(CondSignal(s, c), c, n - 1, t);
      var q := s.queues[CondQ(c)];
      assert q[..n] == [q[0]] + q[1..][..n - 1];
    }
  }

  lemma SignalTcb(s: State, c: nat, t: Tid)
    requires Inv(s) && CondQ(c) in s.queues && s.queues[CondQ(c)] != [] && t in s.tasks
    ensures var r := CondSignal(s, c);
      && Inv(r) && CondQ(c) in r.queues && r.queues[CondQ(c)] == s.queues[CondQ(c)][1..]
      && t in r.tasks
      && r.tasks[t] == if t == s.queues[CondQ(c)][0] then s.tasks[t].(flags := READY, place := On(Ready), code := 1)
                       else s.tasks[t]
  {
    CondSignalInv(s, c);
    CondSignalMoves(s, c);
    var h := s.queues[CondQ(c)][0];
    assert s.tasks[h].place == On(CondQ(c)) && Agree(s.tasks[h]);
  }

  lemma FireTcb(s: State, t: Tid)
    requires Inv(s) && s.wadog != [] && t in s.tasks
    ensures Inv(Fire(s)) && Fire(s).wadog == s.wadog[1..]
    ensures t in Fire(s).tasks
    ensures Fire(s).tasks[t] == if t == s.wadog[0].task then s.tasks[t].(flags := READY, place := On(Ready)) else s.tasks[t]
  {
    FireInv(s);
    var h := s.wadog[0].task;
    assert Has(s.wadog, h) && Agree(s.tasks[h]);
  }

  lemma {:induction false} TickleTcb(s: State, gap: int, t: Tid)
    requires Inv(s) && t in s.tasks
    ensures t in Tickle(s, gap).tasks
    ensures Tickle(s, gap).tasks[t] ==
            if Has(Fired(s.wadog, gap), t) then s.tasks[t].(flags := READY, place := On(Ready)) else s.tasks[t]
    decreases |s.wadog|
  {
    hide Core, Fire;
    if s.wadog != [] && s.wadog[0].delta <= gap {
      FireTcb(s, t);
      TickleTcb(Fire(s), gap, t);
      assert Fired(s.wadog, gap)[1..] == Fired(s.wadog[1..], gap);
    }
  }

  /** Exact effect of every call on every task's control block. */
  lemma StepTcb(s: State, op: Op, t: Tid)
    requires Inv(s) && Enabled(s, op) && t in s.tasks && !(op == OpExit && t == s.current)
    ensures t in Step(s, op).tasks
    ensures Step(s, op).tasks[t] == TcbAfter(s, op, t)
  {
    hide Core;
    if Blocks(s, op) {
      BlockingTcb(s, op, t);
    } else {
      hide TcbAfter;
      match op
      case OpCondBroadcast(c) => BroadcastTcb(s, c, t);
      case OpTickle(gap) => TickTcb(s, gap, t);
      case OpCondSignal(c) => NotifyTcb(s, c, t);
      case OpMutexUnlock(m) => UnlockTcb(s, m, t);
      case OpSemPost(x) => PostTcb(s, x, t);
      case OpResume(u) => ResumeTcb(s, u, t);
      case OpEventPost(u, ev) => EventPostTcb(s, u, ev, t);
      case _ => QuietTcb(s, op, t);
    }
  }

  lemma BlockingTcb(s: State, op: Op, t: Tid)
    requires Blocks(s, op) && t in s.tasks
    ensures t in Step(s, op).tasks && Step(s, op).tasks[t] == TcbAfter(s, op, t)
  {
    BlockingIsPark(s, op);
    hide Step, ParkTcb, Without, Before, Inserted;
  }

  lemma QuietTcb(s: State, op: Op, t: Tid)
    requires !Blocks(s, op) && Enabled(s, op) && t in s.tasks && !(op == OpExit && t == s.current)
    requires op.OpCreate? || op.OpExit? || op.OpSchedYield? || op.OpEventWait? || op.OpMutexInit? || op.OpMutexLock?
             || op.OpSemInit? || op.OpSemWait? || op.OpSemTimedWait? || op.OpCondInit? || op.OpCondTimedWait?
    ensures t in Step(s, op).tasks && Step(s, op).tasks[t] == TcbAfter(s, op, t)
  {
    hide Without, Before, Park;
  }

  lemma TickAfter(s: State, gap: int, t: Tid)
    requires t in s.tasks
    ensures TcbAfter(s, OpTickle(gap), t) ==
            if t in Readied(s, OpTickle(gap)) then s.tasks[t].(flags := READY, place := On(Ready)) else s.tasks[t]
  {
    hide Readied;
  }

  lemma TickReadies(s: State, gap: int, t: Tid)
    ensures t in Readied(s, OpTickle(gap)) <==> Has(Fired(s.wadog, gap), t)
  {
    OrderHas(Fired(s.wadog, gap), t);
  }

  lemma TickTcb(s: State, gap: int, t: Tid)
    requires Inv(s) && t in s.tasks
    ensures t in Tickle(s, gap).tasks && Tickle(s, gap).tasks[t] == TcbAfter(s, OpTickle(gap), t)
  {
    TickleTcb(s, gap, t);
    TickReadies(s, gap, t);
    TickAfter(s, gap, t);
    hide *;
  }

  lemma NotifyAfter(s: State, c: nat, t: Tid)
    requires CondQ(c) in s.queues && t in s.tasks
    ensures TcbAfter(s, OpCondSignal(c), t) ==
            if s.queues[CondQ(c)] != [] && t == s.queues[CondQ(c)][0]
            then s.tasks[t].(flags := READY, place := On(Ready), code := 1) else s.tasks[t]
    ensures TcbAfter(s, OpCondBroadcast(c), t) ==
            if t in s.queues[CondQ(c)]
            then s.tasks[t].(flags := READY, place := On(Ready), code := 1) else s.tasks[t]
  {
  }

  lemma NotifyTcb(s: State, c: nat, t: Tid)
    requires Inv(s) && CondQ(c) in s.queues && t in s.tasks
    ensures t in CondSignal(s, c).tasks && CondSignal(s, c).tasks[t] == TcbAfter(s, OpCondSignal(c), t)
  {
    if s.queues[CondQ(c)] != [] { SignalTcb(s, c, t); }
    NotifyAfter(s, c, t);
    hide Inv, TcbAfter;
  }

  lemma ResumeTcb(s: State, u: Tid, t: Tid)
    requires Inv(s) && u in s.tasks && s.tasks[u].flags.suspended && t in s.tasks
    ensures t in Resume(s, u).tasks && Resume(s, u).tasks[t] == TcbAfter(s, OpResume(u), t)
  {
    assert Agree(s.tasks[u]);
  }

  lemma EventPostTcb(s: State, u: Tid, events: set<nat>, t: Tid)
    requires Inv(s) && u in s.tasks && t in s.tasks
    ensures t in EventPost(s, u, events).tasks
    ensures EventPost(s, u, events).tasks[t] == TcbAfter(s, OpEventPost(u, events), t)
  {
    assert Agree(s.tasks[u]);
  }

  lemma BroadcastTcb(s: State, c: nat, t: Tid)
    requires Inv(s) && CondQ(c) in s.queues && t in s.tasks
    ensures t in CondBroadcast(s, c).tasks
    ensures CondBroadcast(s, c).tasks[t] == TcbAfter(s, OpCondBroadcast(c), t)
  {
    var q := s.queues[CondQ(c)];
    SignalsTcb(s, c, |q|, t);
    assert q[..|q|] == q;
    NotifyAfter(s, c, t);
    hide Inv, Signals, TcbAfter;
  }

  lemma UnlockTcb(s: State, m: nat, t: Tid)
    requires Inv(s) && m in s.mutexes && t in s.tasks
    ensures t in MutexUnlock(s, m).tasks
    ensures MutexUnlock(s, m).tasks[t] == TcbAfter(s, OpMutexUnlock(m), t)
  {
    if s.mutexes[m] == Mutex(Some(s.current), 1) && s.queues[MutexQ(m)] != [] {
      HandoffWakes(s, m);
      assert Agree(s.tasks[s.queues[MutexQ(m)][0]]);
    }
  }

  lemma PostTcb(s: State, x: nat, t: Tid)
    requires Inv(s) && x in s.sems && t in s.tasks
    ensures t in SemPost(s, x).tasks
    ensures SemPost(s, x).tasks[t] == TcbAfter(s, OpSemPost(x), t)
  {
    if s.queues[SemQ(x)] != [] {
      GrantWakes(s, x);
      assert Agree(s.tasks[s.queues[SemQ(x)][0]]);
    }
  }
}
