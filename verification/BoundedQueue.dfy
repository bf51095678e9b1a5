/**
  The blocking queues (the linked `blockq` and the ring `fiberq`) as monitors over the run-time
  system: producers wait on `full`, consumers on `empt`, each successful push or pop signals the
  other side once. The monitor and the scheduler step together, so that "signalled but not yet
  run" is a fact about the ready list.
 */
module BoundedQueue {
  import opened Streams
  import opened DeltaList
  import opened Scheduler
  import opened SchedulerInvariant
  import opened SchedulerEffects
  import opened SchedulerRuns
  import opened CondClients

  type Item = int

  /** Where a fiber is in the queue's code. */
  datatype Phase = Outside | Pushing(x: Item) | Popping

  datatype Monitor = Monitor(rt: State, items: seq<Item>, limit: nat, empt: nat, full: nat, phase: map<Tid, Phase>)

  datatype Act = Push(x: Item) | Pop | Other(op: Op)

  function Ph(m: Monitor, t: Tid): Phase {
    if t in m.phase then m.phase[t] else Outside
  }

  /** blockq_push / FIBERQ_PUSH from the caller's point of view, up to the next switch: one turn of the
      wait loop, or the insertion and its signal. */
  function PushTurn(m: Monitor, x: Item): Monitor {
    var c := m.rt.current;
    if |m.items| >= m.limit then
      m.(rt := Step(m.rt, OpCondWait(m.full)), phase := m.phase[c := Pushing(x)])
    else
      m.(items := m.items + [x], rt := Step(m.rt, OpCondSignal(m.empt)), phase := m.phase[c := Outside])
  }

  function PopTurn(m: Monitor): Monitor {
    var c := m.rt.current;
    if m.items == [] then
      m.(rt := Step(m.rt, OpCondWait(m.empt)), phase := m.phase[c := Popping])
    else
      m.(items := m.items[1..], rt := Step(m.rt, OpCondSignal(m.full)), phase := m.phase[c := Outside])
  }

  /** Fibers inside the queue's code do nothing else; other calls leave the queue's conditions alone. */
  predicate CanAct(m: Monitor, a: Act) {
    var c := m.rt.current;
    match a
    case Push(x) => (Ph(m, c) == Outside || Ph(m, c) == Pushing(x)) && (|m.items| >= m.limit ==> c != m.rt.main)
    case Pop => (Ph(m, c) == Outside || Ph(m, c) == Popping) && (m.items == [] ==> c != m.rt.main)
    case Other(op) => Ph(m, c) == Outside && Enabled(m.rt, op) && Spares(op, m.empt) && Spares(op, m.full)
  }

  function Next(m: Monitor, a: Act): Monitor {
    match a
    case Push(x) => PushTurn(m, x)
    case Pop => PopTurn(m)
    case Other(op) => m.(rt := Step(m.rt, op))
  }

  // ----- invariant -----------------------------------------------------------------

  /** Consumers that were signalled, or never slept, and have still to look at the queue. */
  function AwakeConsumers(m: Monitor): set<Tid> {
    set t | t in m.rt.tasks && IsReady(m.rt, t) && Ph(m, t) == Popping
  }

  function AwakeProducers(m: Monitor): set<Tid> {
    set t | t in m.rt.tasks && IsReady(m.rt, t) && Ph(m, t).Pushing?
  }

  /** A fiber inside the queue's code is ready, or parked on its own side's condition. */
  predicate Placed(m: Monitor, t: Tid) {
    && (OnCond(m.rt, m.empt, t) ==> Ph(m, t) == Popping)
    && (OnCond(m.rt, m.full, t) ==> Ph(m, t).Pushing?)
    && (Ph(m, t) == Popping ==> IsReady(m.rt, t) || OnCond(m.rt, m.empt, t))
    && (Ph(m, t).Pushing? ==> IsReady(m.rt, t) || OnCond(m.rt, m.full, t))
  }

  ghost predicate Wired(m: Monitor) {
    && Inv(m.rt) && m.empt != m.full
    && CondQ(m.empt) in m.rt.queues && CondQ(m.full) in m.rt.queues
    && Untimed(m.rt, m.empt) && Untimed(m.rt, m.full)
    && forall t :: Placed(m, t)
  }

  /** No wake-up is outstanding that somebody still awake does not stand for. */
  ghost predicate Accounted(m: Monitor) {
    && |m.items| <= m.limit
    && (Queue(m.rt, CondQ(m.empt)) != [] ==> |m.items| <= |AwakeConsumers(m)|)
    && (Queue(m.rt, CondQ(m.full)) != [] ==> m.limit - |m.items| <= |AwakeProducers(m)|)
  }

  ghost predicate MInv(m: Monitor) { Wired(m) && Accounted(m) }

  lemma MonitorWired(m: Monitor)
    requires MInv(m)
    ensures Inv(m.rt) && CondQ(m.empt) in m.rt.queues && CondQ(m.full) in m.rt.queues
  {
  }

  // ----- other calls ------------------------------------------------------------------

  lemma OtherPlaced(m: Monitor, op: Op, t: Tid)
    requires Wired(m) && CanAct(m, Other(op))
    ensures Placed(Next(m, Other(op)), t)
    ensures IsReady(m.rt, t) && Ph(m, t) != Outside ==> IsReady(Step(m.rt, op), t)
    ensures Ph(m, t) != Outside && IsReady(Step(m.rt, op), t) ==> IsReady(m.rt, t)
  {
    hide Core, Step;
    var s, r := m.rt, Step(m.rt, op);
    assert Placed(m, t);
    if OnCond(r, m.empt, t) { NobodyJoins(s, op, m.empt, t); }
    if OnCond(r, m.full, t) { NobodyJoins(s, op, m.full, t); }
    if OnCond(s, m.empt, t) { StaysParked(s, op, m.empt, t); }
    if OnCond(s, m.full, t) { StaysParked(s, op, m.full, t); }
    if IsReady(s, t) && Ph(m, t) != Outside { StaysReady(s, op, t); }
  }

  lemma StaysReady(s: State, op: Op, t: Tid)
    requires Inv(s) && Enabled(s, op) && IsReady(s, t) && t != s.current
    ensures IsReady(Step(s, op), t)
  {
    assert t in s.queues[Ready];
    ReadyUntouched(s, op, t);
  }

  lemma OtherKeeps(m: Monitor, op: Op)
    requires MInv(m) && CanAct(m, Other(op))
    ensures MInv(Next(m, Other(op)))
  {
    var r := Next(m, Other(op));
    StepInv(m.rt, op);
    OtherQueues(m, op);
    hide Core, Step;
    forall t ensures Placed(r, t) { OtherPlaced(m, op, t); }
    OtherAwake(m, op);
  }

  lemma OtherQueues(m: Monitor, op: Op)
    requires Wired(m) && CanAct(m, Other(op))
    ensures var r := Step(m.rt, op);
      && CondQ(m.empt) in r.queues && r.queues[CondQ(m.empt)] == m.rt.queues[CondQ(m.empt)]
      && CondQ(m.full) in r.queues && r.queues[CondQ(m.full)] == m.rt.queues[CondQ(m.full)]
      && Untimed(r, m.empt) && Untimed(r, m.full)
  {
    SparedQueue(m.rt, op, m.empt);
    SparedQueue(m.rt, op, m.full);
  }

  lemma OtherAwake(m: Monitor, op: Op)
    requires Wired(m) && CanAct(m, Other(op))
    ensures AwakeConsumers(Next(m, Other(op))) == AwakeConsumers(m)
    ensures AwakeProducers(Next(m, Other(op))) == AwakeProducers(m)
  {
    var r := Next(m, Other(op));
    hide Core, Step, Wired;
    forall t
      ensures t in AwakeConsumers(r) <==> t in AwakeConsumers(m)
      ensures t in AwakeProducers(r) <==> t in AwakeProducers(m)
    {
      OtherPlaced(m, op, t);
    }
  }

  // ----- the queue's own turns -----------------------------------------------------------

  function Waited(m: Monitor, c: nat, ph: Phase): Monitor {
    m.(rt := Step(m.rt, OpCondWait(c)), phase := m.phase[m.rt.current := ph])
  }

  function Signalled(m: Monitor, c: nat, items: seq<Item>): Monitor {
    m.(items := items, rt := Step(m.rt, OpCondSignal(c)), phase := m.phase[m.rt.current := Outside])
  }

  predicate OwnSide(m: Monitor, c: nat, ph: Phase) {
    && ((c == m.empt && ph == Popping) || (c == m.full && ph.Pushing?))
    && (Ph(m, m.rt.current) == Outside || Ph(m, m.rt.current) == ph)
  }

  predicate UntimedAt(m: Monitor, t: Tid) {
    OnCond(m.rt, m.empt, t) || OnCond(m.rt, m.full, t) ==> !m.rt.tasks[t].flags.timeout
  }

  lemma WaitAt(m: Monitor, c: nat, ph: Phase, t: Tid)
    requires Wired(m) && m.rt.current != m.rt.main && OwnSide(m, c, ph)
    ensures var r := Waited(m, c, ph);
      && Placed(r, t) && UntimedAt(r, t)
      && (t in AwakeConsumers(r) <==> t in AwakeConsumers(m) && t != m.rt.current)
      && (t in AwakeProducers(r) <==> t in AwakeProducers(m) && t != m.rt.current)
  {
    WaitEffect(m.rt, c, t);
    assert Placed(m, t);
    hide Core, Step;
  }

  lemma WaitWired(m: Monitor, c: nat, ph: Phase)
    requires Wired(m) && m.rt.current != m.rt.main && OwnSide(m, c, ph)
    ensures var r := Waited(m, c, ph);
      && Wired(r)
      && AwakeConsumers(r) == AwakeConsumers(m) - {m.rt.current}
      && AwakeProducers(r) == AwakeProducers(m) - {m.rt.current}
  {
    hide Core, Step, Placed, UntimedAt, AwakeConsumers, AwakeProducers;
    var r := Waited(m, c, ph);
    StepInv(m.rt, OpCondWait(c));
    StepQueue(m.rt, OpCondWait(c), CondQ(m.empt));
    StepQueue(m.rt, OpCondWait(c), CondQ(m.full));
    forall t
      ensures Placed(r, t) && UntimedAt(r, t)
      ensures t in AwakeConsumers(r) <==> t in AwakeConsumers(m) && t != m.rt.current
      ensures t in AwakeProducers(r) <==> t in AwakeProducers(m) && t != m.rt.current
    {
      WaitAt(m, c, ph, t);
    }
    UntimedAll(r);
  }

  lemma UntimedAll(m: Monitor)
    requires forall t :: UntimedAt(m, t)
    ensures Untimed(m.rt, m.empt) && Untimed(m.rt, m.full)
  {
    forall t | OnCond(m.rt, m.empt, t) || OnCond(m.rt, m.full, t) ensures !m.rt.tasks[t].flags.timeout {
      assert UntimedAt(m, t);
    }
  }

  function Head(m: Monitor, c: nat): set<Tid> {
    var q := Queue(m.rt, CondQ(c));
    if q == [] then {} else {q[0]}
  }

  lemma SignalAt(m: Monitor, c: nat, items: seq<Item>, t: Tid)
    requires Wired(m) && (c == m.empt || c == m.full)
    ensures var r := Signalled(m, c, items);
      && Placed(r, t) && UntimedAt(r, t)
      && (t in AwakeConsumers(r) <==>
            (t in AwakeConsumers(m) && t != m.rt.current) || (c == m.empt && t in Head(m, c)))
      && (t in AwakeProducers(r) <==>
            (t in AwakeProducers(m) && t != m.rt.current) || (c == m.full && t in Head(m, c)))
      && (t in Head(m, c) ==> t !in AwakeConsumers(m) && t !in AwakeProducers(m) && t != m.rt.current)
  {
    SignalEffect(m.rt, c, t);
    RunningIsReady(m.rt);
    assert Placed(m, t);
    hide Core, Step;
  }

  /** After a signal from a turn that leaves the queue's code. */
  lemma SignalWired(m: Monitor, c: nat, items: seq<Item>)
    requires Wired(m) && (c == m.empt || c == m.full)
    ensures var r := Signalled(m, c, items);
      && Wired(r)
      && AwakeConsumers(r) == AwakeConsumers(m) - {m.rt.current} + (if c == m.empt then Head(m, c) else {})
      && AwakeProducers(r) == AwakeProducers(m) - {m.rt.current} + (if c == m.full then Head(m, c) else {})
      && Head(m, c) !! AwakeConsumers(m) && Head(m, c) !! AwakeProducers(m) && m.rt.current !in Head(m, c)
  {
    hide Core, Step, Placed, UntimedAt, AwakeConsumers, AwakeProducers, Head;
    var r := Signalled(m, c, items);
    StepInv(m.rt, OpCondSignal(c));
    StepQueue(m.rt, OpCondSignal(c), CondQ(m.empt));
    StepQueue(m.rt, OpCondSignal(c), CondQ(m.full));
    forall t
      ensures Placed(r, t) && UntimedAt(r, t)
      ensures t in AwakeConsumers(r) <==>
        (t in AwakeConsumers(m) && t != m.rt.current) || (c == m.empt && t in Head(m, c))
      ensures t in AwakeProducers(r) <==>
        (t in AwakeProducers(m) && t != m.rt.current) || (c == m.full && t in Head(m, c))
      ensures t in Head(m, c) ==> t !in AwakeConsumers(m) && t !in AwakeProducers(m) && t != m.rt.current
    {
      SignalAt(m, c, items, t);
    }
    UntimedAll(r);
  }

  lemma CardAfter(a: set<Tid>, c: Tid, f: set<Tid>)
    requires f !! a && c !in f
    ensures |a - {c} + f| == |a| - (if c in a then 1 else 0) + |f|
  {
    assert |a - {c}| == |a| - if c in a then 1 else 0;
    assert (a - {c}) !! f;
  }

  lemma NotAwake(m: Monitor, t: Tid)
    ensures Ph(m, t) != Popping ==> t !in AwakeConsumers(m)
    ensures !Ph(m, t).Pushing? ==> t !in AwakeProducers(m)
  {
  }

  /** The two wait queues after a wait and after a signal. */
  lemma QueuesAfterWait(m: Monitor, c: nat)
    requires Wired(m) && m.rt.current != m.rt.main && (c == m.empt || c == m.full)
    ensures var s, r := m.rt, Step(m.rt, OpCondWait(c));
      && (c != m.empt ==> Queue(r, CondQ(m.empt)) == Queue(s, CondQ(m.empt)))
      && (c != m.full ==> Queue(r, CondQ(m.full)) == Queue(s, CondQ(m.full)))
  {
    StepQueue(m.rt, OpCondWait(c), CondQ(m.empt));
    StepQueue(m.rt, OpCondWait(c), CondQ(m.full));
  }

  lemma QueuesAfterSignal(m: Monitor, c: nat)
    requires Wired(m) && (c == m.empt || c == m.full)
    ensures var s, r := m.rt, Step(m.rt, OpCondSignal(c));
      && (c != m.empt ==> Queue(r, CondQ(m.empt)) == Queue(s, CondQ(m.empt)))
      && (c != m.full ==> Queue(r, CondQ(m.full)) == Queue(s, CondQ(m.full)))
      && (Queue(r, CondQ(c)) != [] ==> Queue(s, CondQ(c)) != [])
      && |Head(m, c)| == if Queue(s, CondQ(c)) == [] then 0 else 1
  {
    StepQueue(m.rt, OpCondSignal(c), CondQ(m.empt));
    StepQueue(m.rt, OpCondSignal(c), CondQ(m.full));
  }

  lemma PushWaits(m: Monitor, x: Item)
    requires MInv(m) && CanAct(m, Push(x)) && |m.items| >= m.limit
    ensures MInv(Next(m, Push(x)))
  {
    hide Wired, Step, AwakeConsumers, AwakeProducers;
    NotAwake(m, m.rt.current);
    WaitWired(m, m.full, Pushing(x));
    QueuesAfterWait(m, m.full);
    TwoConditions(m);
    CardAfter(AwakeConsumers(m), m.rt.current, {});
    assert Next(m, Push(x)) == Waited(m, m.full, Pushing(x));
  }

  lemma TwoConditions(m: Monitor)
    requires Wired(m)
    ensures m.empt != m.full
  {
  }

  lemma PushGoesThrough(m: Monitor, x: Item)
    requires MInv(m) && CanAct(m, Push(x)) && |m.items| < m.limit
    ensures MInv(Next(m, Push(x)))
  {
    hide Wired, Step, AwakeConsumers, AwakeProducers, Head;
    NotAwake(m, m.rt.current);
    SignalWired(m, m.empt, m.items + [x]);
    QueuesAfterSignal(m, m.empt);
    TwoConditions(m);
    CardAfter(AwakeConsumers(m), m.rt.current, Head(m, m.empt));
    CardAfter(AwakeProducers(m), m.rt.current, {});
    assert Next(m, Push(x)) == Signalled(m, m.empt, m.items + [x]);
  }

  lemma PopWaits(m: Monitor)
    requires MInv(m) && CanAct(m, Pop) && m.items == []
    ensures MInv(Next(m, Pop))
  {
    hide Wired, Step, AwakeConsumers, AwakeProducers;
    NotAwake(m, m.rt.current);
    WaitWired(m, m.empt, Popping);
    QueuesAfterWait(m, m.empt);
    TwoConditions(m);
    CardAfter(AwakeProducers(m), m.rt.current, {});
    assert Next(m, Pop) == Waited(m, m.empt, Popping);
  }

  lemma PopGoesThrough(m: Monitor)
    requires MInv(m) && CanAct(m, Pop) && m.items != []
    ensures MInv(Next(m, Pop))
  {
    hide Wired, Step, AwakeConsumers, AwakeProducers, Head;
    NotAwake(m, m.rt.current);
    SignalWired(m, m.full, m.items[1..]);
    QueuesAfterSignal(m, m.full);
    TwoConditions(m);
    CardAfter(AwakeConsumers(m), m.rt.current, {});
    CardAfter(AwakeProducers(m), m.rt.current, Head(m, m.full));
    assert Next(m, Pop) == Signalled(m, m.full, m.items[1..]);
  }

  // ----- every run -----------------------------------------------------------------------

  lemma NextInv(m: Monitor, a: Act)
    requires MInv(m) && CanAct(m, a)
    ensures MInv(Next(m, a))
  {
    hide MInv, Next;
    match a
    case Push(x) => if |m.items| >= m.limit { PushWaits(m, x); } else { PushGoesThrough(m, x); }
    case Pop => if m.items == [] { PopWaits(m); } else { PopGoesThrough(m); }
    case Other(op) => OtherKeeps(m, op);
  }

  predicate CanRun(m: Monitor, acts: seq<Act>)
    decreases |acts|
  {
    acts == [] || (CanAct(m, acts[0]) && CanRun(Next(m, acts[0]), acts[1..]))
  }

  function RunActs(m: Monitor, acts: seq<Act>): Monitor
    decreases |acts|
  {
    if acts == [] then m else RunActs(Next(m, acts[0]), acts[1..])
  }

  lemma {:induction false} RunActsInv(m: Monitor, acts: seq<Act>)
    requires MInv(m) && CanRun(m, acts)
    ensures MInv(RunActs(m, acts))
    decreases |acts|
  {
    hide MInv, CanAct, Next;
    if acts != [] {
      NextInv(m, acts[0]);
      RunActsInv(Next(m, acts[0]), acts[1..]);
    }
  }

  /** A queue nobody has used yet, on a running thread. */
  ghost predicate Fresh(m: Monitor) {
    && Inv(m.rt) && m.empt != m.full && m.items == [] && m.phase == map[]
    && CondQ(m.empt) in m.rt.queues && CondQ(m.full) in m.rt.queues
    && m.rt.queues[CondQ(m.empt)] == [] && m.rt.queues[CondQ(m.full)] == []
  }

  lemma FreshInv(m: Monitor)
    requires Fresh(m)
    ensures MInv(m)
  {
    forall t ensures Placed(m, t) { }
  }

  /**
    No lost wake-up, in every run: a consumer sleeps on a non-empty queue only while at least as
    many awake consumers are on their way to the items, and dually for producers and free slots.
   */
  lemma NoLostWakeup(m: Monitor, acts: seq<Act>)
    requires Fresh(m) && CanRun(m, acts)
    ensures var r := RunActs(m, acts);
      && |r.items| <= r.limit
      && (Queue(r.rt, CondQ(r.empt)) != [] ==> |r.items| <= |AwakeConsumers(r)|)
      && (Queue(r.rt, CondQ(r.full)) != [] ==> r.limit - |r.items| <= |AwakeProducers(r)|)
  {
    FreshInv(m);
    RunActsInv(m, acts);
    hide Wired, RunActs, CanRun;
  }

  /** Hence with room for at least one item, producers and consumers are never all asleep at once. */
  lemma NeverAllAsleep(m: Monitor, acts: seq<Act>)
    requires Fresh(m) && CanRun(m, acts) && RunActs(m, acts).limit >= 1
    requires AwakeConsumers(RunActs(m, acts)) == {} && AwakeProducers(RunActs(m, acts)) == {}
    ensures var r := RunActs(m, acts);
      Queue(r.rt, CondQ(r.empt)) == [] || Queue(r.rt, CondQ(r.full)) == []
  {
    NoLostWakeup(m, acts);
    hide RunActs, CanRun, AwakeConsumers, AwakeProducers;
  }

  /** Items pushed and popped by a run, in order. */
  function PushedItems(m: Monitor, acts: seq<Act>): seq<Item>
    decreases |acts|
  {
    if acts == [] then []
    else
      (if acts[0].Push? && |m.items| < m.limit then [acts[0].x] else []) + PushedItems(Next(m, acts[0]), acts[1..])
  }

  function PoppedItems(m: Monitor, acts: seq<Act>): seq<Item>
    decreases |acts|
  {
    if acts == [] then []
    else
      (if acts[0].Pop? && m.items != [] then [m.items[0]] else []) + PoppedItems(Next(m, acts[0]), acts[1..])
  }

  /** Nothing is lost, duplicated or reordered, whoever slept in between. */
  lemma {:induction false} ItemsAreFifo(m: Monitor, acts: seq<Act>)
    ensures m.items + PushedItems(m, acts) == PoppedItems(m, acts) + RunActs(m, acts).items
    decreases |acts|
  {
    if acts != [] {
      var n := Next(m, acts[0]);
      var i := if acts[0].Push? && |m.items| < m.limit then [acts[0].x] else [];
      var o := if acts[0].Pop? && m.items != [] then [m.items[0]] else [];
      assert m.items + i == o + n.items;
      hide Next;
      ItemsAreFifo(n, acts[1..]);
      Compose(m.items, i, PushedItems(n, acts[1..]), o, n.items, PoppedItems(n, acts[1..]), RunActs(n, acts[1..]).items);
    }
  }
}
