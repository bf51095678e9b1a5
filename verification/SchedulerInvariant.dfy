/**
  What every API call keeps: a task's flags always say exactly which chain its `node`
  link is on and whether its `link` is on the watchdog list.
 */
module SchedulerInvariant {
  import opened Options
  import opened DeltaList
  import opened Scheduler

  // ----- the invariant -------------------------------------------------------

  /** Chains and tasks agree: a task is on the one chain its place names, once. */
  ghost predicate Chains(s: State) {
    && (forall q :: q in s.queues ==> NoDup(s.queues[q]))
    && (forall q, t :: q in s.queues && t in s.queues[q] ==> t in s.tasks && s.tasks[t].place == On(q))
    && (forall t :: t in s.tasks && s.tasks[t].place.On? ==>
          s.tasks[t].place.q in s.queues && t in s.queues[s.tasks[t].place.q])
  }

  ghost predicate MainLast(s: State) {
    && Ready in s.queues
    && s.queues[Ready] != []
    && s.queues[Ready][|s.queues[Ready]| - 1] == s.main
  }

  ghost predicate Timers(s: State) {
    && Unique(s.wadog)
    && forall t :: Has(s.wadog, t) <==> t in s.tasks && s.tasks[t].flags.timeout
  }

  /** The legal combinations of flags, each with the chain that goes with it. */
  predicate Agree(k: Tcb) {
    && !k.flags.transient
    && match k.place
       case On(Ready) => k.flags == READY
       case On(MutexQ(_)) => k.flags == READY.(mutex := true)
       case On(SemQ(_)) =>
         k.flags == READY.(sem := true, timeout := k.flags.timeout) &&
         (k.flags.timeout ==> k.waitObj == k.place && k.code == 0)
       case On(CondQ(_)) =>
         k.flags == READY.(cond := true, timeout := k.flags.timeout) &&
         (k.flags.timeout ==> k.waitObj == k.place && k.code == 0)
       case Off =>
         || k.flags == READY.(suspended := true)
         || k.flags == READY.(usleep := true, timeout := true)
         || (k.flags == READY.(event := true, timeout := k.flags.timeout) &&
             !Satisfied(k.pending, k.wanted, k.any) && k.seized == {})
  }

  ghost predicate AllAgree(s: State) {
    forall t :: t in s.tasks ==> Agree(s.tasks[t])
  }

  /** A free mutex has no waiters; a held one counts its holder, who is not queued. */
  ghost predicate Mutexes(s: State) {
    forall m ::
      && (MutexQ(m) in s.queues <==> m in s.mutexes)
      && (m in s.mutexes ==>
           match s.mutexes[m].holder
           case None => s.queues[MutexQ(m)] == [] && s.mutexes[m].reentries == 0
           case Some(h) => h !in s.queues[MutexQ(m)] && s.mutexes[m].reentries >= 1)
  }

  /** Waiters only queue behind an exhausted count. */
  ghost predicate Sems(s: State) {
    forall x ::
      && (SemQ(x) in s.queues <==> x in s.sems)
      && (x in s.sems && s.queues[SemQ(x)] != [] ==> s.sems[x] + |s.queues[SemQ(x)]| <= 0)
  }

  ghost predicate Core(s: State) {
    Chains(s) && MainLast(s) && Timers(s) && AllAgree(s) && Mutexes(s) && Sems(s) && s.nLocal == |s.tasks|
  }

  ghost predicate Inv(s: State) {
    Core(s) && s.current in s.queues[Ready]
  }

  // ----- reading the invariant -----------------------------------------------------

  lemma AgreeAt(s: State, t: Tid)
    requires Inv(s) && t in s.tasks
    ensures Agree(s.tasks[t])
  {
  }

  lemma QueuedAt(s: State, q: Qid, t: Tid)
    requires Inv(s)
    ensures t in Queue(s, q) ==> t in s.tasks && s.tasks[t].place == On(q)
  {
  }

  lemma ArmedIff(s: State, t: Tid)
    requires Inv(s)
    ensures Has(s.wadog, t) <==> t in s.tasks && s.tasks[t].flags.timeout
  {
  }

  lemma QueueExists(s: State, q: Qid)
    requires Inv(s)
    ensures Ready in s.queues
    ensures q.MutexQ? ==> (q in s.queues <==> q.m in s.mutexes)
    ensures q.SemQ? ==> (q in s.queues <==> q.s in s.sems)
  {
  }

  lemma MutexAt(s: State, m: nat)
    requires Inv(s) && m in s.mutexes
    ensures MutexQ(m) in s.queues && MutexClause(s.mutexes[m], s.queues[MutexQ(m)])
  {
  }

  // ----- objects: what depends on which queues ------------------------------------

  predicate MutexClause(mx: Mutex, q: seq<Tid>) {
    match mx.holder
    case None => q == [] && mx.reentries == 0
    case Some(h) => h !in q && mx.reentries >= 1
  }

  lemma MutexesUpdate(s: State, r: State, m: nat)
    requires Mutexes(s) && m in s.mutexes && m in r.mutexes && MutexQ(m) in r.queues
    requires r.queues.Keys == s.queues.Keys && r.mutexes == s.mutexes[m := r.mutexes[m]]
    requires forall q :: q in s.queues && q.MutexQ? && q != MutexQ(m) ==> r.queues[q] == s.queues[q]
    requires MutexClause(r.mutexes[m], r.queues[MutexQ(m)])
    ensures Mutexes(r)
  {
    assert forall q :: q in r.queues <==> q in s.queues;
  }

  lemma SemsUpdate(s: State, r: State, x: nat)
    requires Sems(s) && x in s.sems && x in r.sems && SemQ(x) in r.queues
    requires r.queues.Keys == s.queues.Keys && r.sems == s.sems[x := r.sems[x]]
    requires forall q :: q in s.queues && q.SemQ? && q != SemQ(x) ==> r.queues[q] == s.queues[q]
    requires r.queues[SemQ(x)] != [] ==> r.sems[x] + |r.queues[SemQ(x)]| <= 0
    ensures Sems(r)
  {
    assert forall q :: q in r.queues <==> q in s.queues;
  }

  lemma SemsSame(s: State, r: State)
    requires Sems(s) && r.queues.Keys == s.queues.Keys && r.sems == s.sems
    requires forall q :: q in s.queues && q.SemQ? ==> r.queues[q] == s.queues[q]
    ensures Sems(r)
  {
    assert forall q :: q in r.queues <==> q in s.queues;
  }

  lemma MutexesSame(s: State, r: State)
    requires Mutexes(s) && r.queues.Keys == s.queues.Keys && r.mutexes == s.mutexes
    requires forall q :: q in s.queues && q.MutexQ? ==> r.queues[q] == s.queues[q]
    ensures Mutexes(r)
  {
    assert forall q :: q in r.queues <==> q in s.queues;
  }

  // ----- the movements --------------------------------------------------------

  /** Same tasks, same chains up to order. */
  ghost predicate Reordered(s: State, r: State) {
    && r == s.(queues := r.queues, current := r.current)
    && r.queues.Keys == s.queues.Keys
    && (forall q :: q in s.queues && q != Ready ==> r.queues[q] == s.queues[q])
    && (Ready in s.queues ==> NoDup(r.queues[Ready]))
    && (Ready in s.queues ==> forall t :: t in r.queues[Ready] <==> t in s.queues[Ready])
  }

  lemma ReorderedChains(s: State, r: State)
    requires Chains(s) && Ready in s.queues && Reordered(s, r)
    ensures Chains(r)
  {
    forall q | q in r.queues
      ensures NoDup(r.queues[q])
      ensures forall x :: x in r.queues[q] <==> (x in r.tasks && r.tasks[x].place == On(q))
    {
      if q != Ready { assert r.queues[q] == s.queues[q]; }
    }
  }

  lemma ReorderedCore(s: State, r: State)
    requires Core(s) && Reordered(s, r) && MainLast(r)
    ensures Core(r)
  {
    ReorderedChains(s, r);
    MutexesSame(s, r);
    SemsSame(s, r);
  }

  lemma SchedMoves(s: State)
    requires Core(s)
    ensures Reordered(s, Sched(s)) && MainLast(Sched(s))
    ensures Sched(s).current in Sched(s).queues[Ready]
    ensures s.queues[Ready][0] != s.current ==> Sched(s).current == s.queues[Ready][0]
  {
    var r := s.queues[Ready];
    assert r == [r[0]] + r[1..];
    if r[0] != s.current {
      if r[0] != s.main {
        assert r[1..][|r| - 2] == s.main;
        BeforeFacts(r[1..], s.main, r[0]);
      } else {
        assert |r| == 1;
        assert r[1..] + [r[0]] == r;
      }
    }
  }

  lemma SchedInv(s: State)
    requires Core(s)
    ensures Inv(Sched(s))
  {
    SchedMoves(s);
    ReorderedCore(s, Sched(s));
  }

  // --- leaving the ready list

  ghost predicate CanPark(s: State, tcb: Tcb, timer: Timer) {
    && Inv(s) && s.current != s.main
    && Agree(tcb) && tcb.place != On(Ready)
    && (tcb.place.On? ==> tcb.place.q in s.queues)
    && (tcb.flags.timeout <==> timer.After?)
  }

  lemma ParkingFrom(s: State, tcb: Tcb, timer: Timer)
    requires CanPark(s, tcb, timer)
    ensures MainLast(s) && NoDup(s.queues[Ready]) && s.current in s.queues[Ready] && s.current != s.main
    ensures tcb.place.On? ==>
      tcb.place.q in s.queues && tcb.place.q != Ready && NoDup(s.queues[tcb.place.q]) && s.current !in s.queues[tcb.place.q]
  {
    assert s.tasks[s.current].place == On(Ready);
  }

  lemma ParkedMap(s: State, tcb: Tcb, timer: Timer)
    requires Ready in s.queues && (tcb.place.On? ==> tcb.place.q in s.queues)
    ensures var r, qs := Parked(s, tcb, timer), s.queues[Ready := Without(s.queues[Ready], s.current)];
      && r.queues == (if tcb.place.On? then qs[tcb.place.q := s.queues[tcb.place.q] + [s.current]] else qs)
      && r.main == s.main && r.current == s.current
  {
    hide Without, Inserted;
  }

  lemma KeysKept(m: map<Qid, seq<Tid>>, a: Qid, x: seq<Tid>, b: Qid, y: seq<Tid>)
    requires a in m && b in m
    ensures m[a := x].Keys == m.Keys && m[a := x][b := y].Keys == m.Keys
  {
  }

  lemma ParkedQueues(s: State, tcb: Tcb, timer: Timer)
    requires CanPark(s, tcb, timer)
    ensures var r := Parked(s, tcb, timer);
      && r.queues.Keys == s.queues.Keys
      && MainLast(r)
      && NoDup(r.queues[Ready])
      && (forall t :: t in r.queues[Ready] <==> t in s.queues[Ready] && t != s.current)
      && (forall q :: q in s.queues && q != Ready && On(q) != tcb.place ==> r.queues[q] == s.queues[q])
      && (tcb.place.On? ==> r.queues[tcb.place.q] == s.queues[tcb.place.q] + [s.current] && NoDup(r.queues[tcb.place.q]))
  {
    ParkingFrom(s, tcb, timer);
    ParkedMap(s, tcb, timer);
    hide CanPark, Inv, Parked, Without, NoDup;
    WithoutFacts(s.queues[Ready], s.current);
    WithoutLast(s.queues[Ready], s.current);
    if tcb.place.On? {
      NoDupAppend(s.queues[tcb.place.q], s.current);
      KeysKept(s.queues, Ready, Without(s.queues[Ready], s.current), tcb.place.q, s.queues[tcb.place.q] + [s.current]);
    } else {
      KeysKept(s.queues, Ready, Without(s.queues[Ready], s.current), Ready, Without(s.queues[Ready], s.current));
    }
  }

  lemma ParkedChains(s: State, tcb: Tcb, timer: Timer)
    requires CanPark(s, tcb, timer)
    ensures Chains(Parked(s, tcb, timer)) && MainLast(Parked(s, tcb, timer))
  {
    ParkedQueues(s, tcb, timer);
    var r := Parked(s, tcb, timer);
    assert s.tasks[s.current].place == On(Ready);
    forall q | q in r.queues
      ensures NoDup(r.queues[q])
      ensures forall x :: x in r.queues[q] <==> (x in r.tasks && r.tasks[x].place == On(q))
    {
      if q != Ready && On(q) != tcb.place { assert r.queues[q] == s.queues[q]; }
    }
  }

  lemma ParkedTasks(s: State, tcb: Tcb, timer: Timer)
    requires CanPark(s, tcb, timer)
    ensures var r := Parked(s, tcb, timer); AllAgree(r) && r.nLocal == |r.tasks|
  {
    assert s.current in s.tasks;
    assert Parked(s, tcb, timer).tasks.Keys == s.tasks.Keys;
  }

  lemma ParkedTimers(s: State, tcb: Tcb, timer: Timer)
    requires CanPark(s, tcb, timer)
    ensures Timers(Parked(s, tcb, timer))
  {
    assert !Has(s.wadog, s.current);
    if timer.After? {
      InsertedUnique(s.wadog, s.current, timer.time);
      forall x { InsertedAt(s.wadog, s.current, timer.time, x); }
    }
  }

  /** Parking keeps everything but the objects' own clauses, which depend on the queue joined. */
  lemma ParkInv(s: State, tcb: Tcb, timer: Timer)
    requires CanPark(s, tcb, timer)
    requires Mutexes(Parked(s, tcb, timer)) && Sems(Parked(s, tcb, timer))
    ensures Inv(Park(s, tcb, timer))
  {
    ParkedChains(s, tcb, timer);
    ParkedTasks(s, tcb, timer);
    ParkedTimers(s, tcb, timer);
    SchedInv(Parked(s, tcb, timer));
  }

  // --- joining the ready list

  ghost predicate CanWake(s: State, t: Tid, tcb: Tcb, w: seq<Entry>) {
    && Core(s) && t in s.tasks && s.tasks[t].place != On(Ready)
    && tcb.flags == READY
    && Unique(w) && (forall x :: Has(w, x) <==> Has(s.wadog, x) && x != t)
  }

  lemma WokenQueues(s: State, t: Tid, tcb: Tcb, w: seq<Entry>)
    requires CanWake(s, t, tcb, w)
    ensures var r := Woken(s, t, tcb, w);
      && r.queues.Keys == s.queues.Keys
      && MainLast(r)
      && NoDup(r.queues[Ready])
      && r.queues[Ready] == s.queues[Ready][..|s.queues[Ready]| - 1] + [t, s.main]
      && (forall x :: x in r.queues[Ready] <==> x in s.queues[Ready] || x == t)
      && (forall q :: q in s.queues && q != Ready && On(q) != s.tasks[t].place ==> r.queues[q] == s.queues[q])
  {
    BeforeFacts(s.queues[Ready], s.main, t);
  }

  lemma WokenSource(s: State, t: Tid, tcb: Tcb, w: seq<Entry>)
    requires CanWake(s, t, tcb, w) && s.tasks[t].place.On?
    ensures var q := s.tasks[t].place.q;
            var r := Woken(s, t, tcb, w);
      && q in r.queues && r.queues[q] == Without(s.queues[q], t) && NoDup(r.queues[q])
      && (forall x :: x in r.queues[q] <==> x in s.queues[q] && x != t)
      && |r.queues[q]| == |s.queues[q]| - 1
  {
    WithoutFacts(s.queues[s.tasks[t].place.q], t);
  }

  lemma WokenChains(s: State, t: Tid, tcb: Tcb, w: seq<Entry>)
    requires CanWake(s, t, tcb, w)
    ensures Chains(Woken(s, t, tcb, w)) && MainLast(Woken(s, t, tcb, w))
  {
    WokenQueues(s, t, tcb, w);
    if s.tasks[t].place.On? { WokenSource(s, t, tcb, w); }
    var r := Woken(s, t, tcb, w);
    assert forall q :: q in r.queues <==> q in s.queues;
    forall q | q in r.queues
      ensures NoDup(r.queues[q])
      ensures forall x :: x in r.queues[q] <==> (x in r.tasks && r.tasks[x].place == On(q))
    {
      if q != Ready && On(q) != s.tasks[t].place {
        assert r.queues[q] == s.queues[q];
      }
    }
    forall x | x in r.tasks && r.tasks[x].place.On? ensures r.tasks[x].place.q in r.queues {
      if x != t { assert r.tasks[x] == s.tasks[x]; }
    }
  }

  lemma WokenTasks(s: State, t: Tid, tcb: Tcb, w: seq<Entry>)
    requires CanWake(s, t, tcb, w)
    ensures var r := Woken(s, t, tcb, w);
      AllAgree(r) && Timers(r) && r.nLocal == |r.tasks|
  {
    assert Woken(s, t, tcb, w).tasks.Keys == s.tasks.Keys;
  }

  lemma DisarmedFacts(s: State, t: Tid)
    requires Core(s) && t in s.tasks
    ensures Unique(Disarmed(s, t))
    ensures forall x :: Has(Disarmed(s, t), x) <==> Has(s.wadog, x) && x != t
  {
    if s.tasks[t].flags.timeout {
      RemovedUnique(s.wadog, t);
      forall x { RemovedAt(s.wadog, t, x); }
    }
  }

  /** Waking a task that is on no object's queue, or on a condition's. */
  lemma WokenObjects(s: State, t: Tid, tcb: Tcb, w: seq<Entry>)
    requires CanWake(s, t, tcb, w)
    requires s.tasks[t].place.On? ==> !s.tasks[t].place.q.MutexQ?
    ensures Mutexes(Woken(s, t, tcb, w)) && Sems(Woken(s, t, tcb, w))
  {
    WokenQueues(s, t, tcb, w);
    if s.tasks[t].place.On? { WokenSource(s, t, tcb, w); }
    var r := Woken(s, t, tcb, w);
    assert forall q :: q in r.queues <==> q in s.queues;
  }

  lemma WokenCore(s: State, t: Tid, tcb: Tcb, w: seq<Entry>)
    requires CanWake(s, t, tcb, w)
    requires s.tasks[t].place.On? ==> !s.tasks[t].place.q.MutexQ?
    ensures Core(Woken(s, t, tcb, w))
    ensures s.current in s.queues[Ready] ==> Inv(Woken(s, t, tcb, w))
  {
    WokenChains(s, t, tcb, w);
    WokenTasks(s, t, tcb, w);
    WokenObjects(s, t, tcb, w);
    WokenQueues(s, t, tcb, w);
  }

  // ----- one lemma per API call ------------------------------------------------

  /** Adding or dropping one ready task leaves every other chain alone. */
  ghost predicate OtherChainsSame(s: State, r: State) {
    && r.queues.Keys == s.queues.Keys
    && r.wadog == s.wadog && r.mutexes == s.mutexes && r.sems == s.sems && r.main == s.main
    && forall q :: q in s.queues && q != Ready ==> r.queues[q] == s.queues[q]
  }

  lemma OtherChainsObjects(s: State, r: State)
    requires Mutexes(s) && Sems(s) && OtherChainsSame(s, r)
    ensures Mutexes(r) && Sems(r)
  {
    MutexesSame(s, r);
    SemsSame(s, r);
  }

  lemma CreateChains(s: State, t: Tid, stale: Tcb)
    requires Chains(s) && MainLast(s) && s.current in s.queues[Ready] && t !in s.tasks
    ensures var r := Create(s, t, stale);
      OtherChainsSame(s, r) && Chains(r) && MainLast(r) && s.current in r.queues[Ready]
  {
    assert t !in s.queues[Ready];
    BeforeFacts(s.queues[Ready], s.main, t);
    var r := Create(s, t, stale);
    forall q | q in r.queues
      ensures NoDup(r.queues[q])
      ensures forall x :: x in r.queues[q] <==> (x in r.tasks && r.tasks[x].place == On(q))
    {
      if q != Ready { assert r.queues[q] == s.queues[q]; }
    }
  }

  lemma CreateTasks(s: State, t: Tid, stale: Tcb)
    requires Timers(s) && AllAgree(s) && s.nLocal == |s.tasks| && t !in s.tasks
    ensures var r := Create(s, t, stale); Timers(r) && AllAgree(r) && r.nLocal == |r.tasks|
  {
    assert Create(s, t, stale).tasks.Keys == s.tasks.Keys + {t};
  }

  lemma CreateInv(s: State, t: Tid, stale: Tcb)
    requires Inv(s) && t !in s.tasks
    ensures Inv(Create(s, t, stale))
  {
    CreateChains(s, t, stale);
    CreateTasks(s, t, stale);
    OtherChainsObjects(s, Create(s, t, stale));
  }

  lemma ExitChains(s: State)
    requires Chains(s) && MainLast(s) && s.current in s.queues[Ready] && s.current != s.main
    ensures OtherChainsSame(s, Exit(s)) && Chains(Exit(s)) && MainLast(Exit(s))
  {
    var t := s.current;
    assert s.tasks[t].place == On(Ready);
    WithoutFacts(s.queues[Ready], t);
    WithoutLast(s.queues[Ready], t);
    var r := Exit(s);
    forall q | q in r.queues
      ensures NoDup(r.queues[q])
      ensures forall x :: x in r.queues[q] <==> (x in r.tasks && r.tasks[x].place == On(q))
    {
      if q != Ready { assert r.queues[q] == s.queues[q]; }
    }
  }

  lemma ExitInv(s: State)
    requires Inv(s) && s.current != s.main
    ensures Inv(Exit(s))
  {
    RunningIsReady(s);
    ExitChains(s);
    var r := Exit(s);
    OtherChainsObjects(s, r);
    assert r.tasks.Keys == s.tasks.Keys - {s.current};
    assert Timers(r);
    assert AllAgree(r);
  }

  /** Parking outside every mutex and semaphore queue. */
  lemma ParkElsewhereInv(s: State, tcb: Tcb, timer: Timer)
    requires CanPark(s, tcb, timer)
    requires tcb.place.On? ==> tcb.place.q.CondQ?
    ensures Inv(Park(s, tcb, timer))
  {
    ParkedQueues(s, tcb, timer);
    var r := Parked(s, tcb, timer);
    assert forall q :: q in r.queues <==> q in s.queues;
    ParkInv(s, tcb, timer);
  }

  lemma RunningIsReady(s: State)
    requires Inv(s)
    ensures s.current in s.tasks && Cur(s).flags == READY && Cur(s).place == On(Ready)
    ensures !Has(s.wadog, s.current)
  {
    assert s.tasks[s.current].place == On(Ready);
  }

  lemma YieldInv(s: State, code: nat)
    requires Inv(s) && s.current != s.main
    ensures Inv(Yield(s, code))
  {
    RunningIsReady(s);
    ParkElsewhereInv(s, Cur(s).(code := code, flags := Cur(s).flags.(suspended := true), place := Off), NoTimer);
  }

  lemma UsleepInv(s: State, usec: int)
    requires Inv(s) && s.current != s.main
    ensures Inv(Usleep(s, usec))
  {
    RunningIsReady(s);
    ParkElsewhereInv(s, Cur(s).(flags := Cur(s).flags.(usleep := true, timeout := true), place := Off), After(usec));
  }

  lemma ResumeInv(s: State, t: Tid)
    requires Inv(s) && t in s.tasks && s.tasks[t].flags.suspended
    ensures Inv(Resume(s, t))
  {
    assert Agree(s.tasks[t]);
    assert s.tasks[t].place == Off && !Has(s.wadog, t);
    WokenCore(s, t, Task(s, t).(flags := Task(s, t).flags.(suspended := false)), s.wadog);
  }

  lemma SchedYieldMoves(s: State)
    requires Inv(s)
    ensures var q := Without(s.queues[Ready], s.current);
            var r := s.(queues := s.queues[Ready :=
              if s.current == s.main then q + [s.current] else Before(q, s.main, s.current)]);
            Reordered(s, r) && MainLast(r) && SchedYield(s) == Sched(r)
  {
    WithoutFacts(s.queues[Ready], s.current);
    var q := Without(s.queues[Ready], s.current);
    if s.current == s.main {
      NoDupAppend(q, s.current);
    } else {
      WithoutLast(s.queues[Ready], s.current);
      BeforeFacts(q, s.main, s.current);
    }
  }

  lemma SchedYieldInv(s: State)
    requires Inv(s)
    ensures Inv(SchedYield(s))
  {
    SchedYieldMoves(s);
    var q := Without(s.queues[Ready], s.current);
    var r := s.(queues := s.queues[Ready :=
      if s.current == s.main then q + [s.current] else Before(q, s.main, s.current)]);
    ReorderedCore(s, r);
    SchedInv(r);
  }

  /** Changing only the event words of a task that is not waiting for events. */
  lemma RelabelInv(s: State, t: Tid, tcb: Tcb)
    requires Inv(s) && t in s.tasks && Agree(tcb)
    requires tcb.flags == s.tasks[t].flags && tcb.place == s.tasks[t].place
    ensures Inv(s.(tasks := s.tasks[t := tcb]))
  {
    var r := s.(tasks := s.tasks[t := tcb]);
    RelabelTasks(s, t, tcb);
    OtherChainsObjects(s, r);
    RelabelChains(s, r);
    hide Chains, AllAgree, Timers, Mutexes, Sems;
  }

  lemma RelabelTasks(s: State, t: Tid, tcb: Tcb)
    requires AllAgree(s) && Timers(s) && t in s.tasks && Agree(tcb)
    requires tcb.flags == s.tasks[t].flags && tcb.place == s.tasks[t].place
    ensures var r := s.(tasks := s.tasks[t := tcb]);
      && r.tasks.Keys == s.tasks.Keys && |r.tasks| == |s.tasks| && AllAgree(r) && Timers(r)
      && forall x :: x in r.tasks ==> r.tasks[x].place == s.tasks[x].place
  {
    hide Has, Unique, Agree;
    var r := s.(tasks := s.tasks[t := tcb]);
    assert r.tasks.Keys == s.tasks.Keys;
    assert |r.tasks| == |r.tasks.Keys| && |s.tasks| == |s.tasks.Keys|;
  }

  lemma RelabelChains(s: State, r: State)
    requires Chains(s) && r.queues == s.queues && r.tasks.Keys == s.tasks.Keys
    requires forall x :: x in r.tasks ==> r.tasks[x].place == s.tasks[x].place
    ensures Chains(r)
  {
    assert forall x :: x in r.tasks <==> x in s.tasks;
  }

  lemma EventWaitInv(s: State, events: set<nat>, any: bool, timeout: int)
    requires Inv(s) && Enabled(s, OpEventWait(events, any, timeout))
    ensures Inv(EventWait(s, events, any, timeout))
  {
    RunningIsReady(s);
    if EventReady(s, events, any) {
      RelabelInv(s, s.current, Cur(s).(pending := Cur(s).pending - events));
    } else if timeout != 0 {
      ParkElsewhereInv(s, Cur(s).(seized := {}, wanted := events, any := any, place := Off,
                       flags := Cur(s).flags.(event := true, timeout := timeout > 0)), TimerFor(timeout));
    }
  }

  lemma EventPostInv(s: State, t: Tid, events: set<nat>)
    requires Inv(s) && t in s.tasks
    ensures Inv(EventPost(s, t, events))
  {
    var tcb := s.tasks[t];
    assert Agree(tcb);
    var p := tcb.pending + events;
    if !tcb.flags.event || !Satisfied(p, tcb.wanted, tcb.any) {
      RelabelInv(s, t, tcb.(pending := p));
    } else {
      DisarmedFacts(s, t);
      WokenCore(s, t, tcb.(pending := p - tcb.wanted, seized := p * tcb.wanted,
                flags := tcb.flags.(event := false, timeout := false)), Disarmed(s, t));
    }
  }

  /** Adding an object with an empty queue. */
  lemma InitInv(s: State, q: Qid, r: State)
    requires Inv(s) && q !in s.queues
    requires r == s.(queues := s.queues[q := []], mutexes := r.mutexes, sems := r.sems)
    requires Mutexes(r) && Sems(r)
    ensures Inv(r)
  {
    InitChains(s, q, r);
  }

  lemma InitChains(s: State, q: Qid, r: State)
    requires Chains(s) && q !in s.queues && r.queues == s.queues[q := []] && r.tasks == s.tasks
    ensures Chains(r)
  {
    assert forall x :: x in s.queues ==> r.queues[x] == s.queues[x];
  }

  lemma MutexInitInv(s: State, m: nat)
    requires Inv(s) && m !in s.mutexes
    ensures Inv(MutexInit(s, m))
  {
    InitInv(s, MutexQ(m), MutexInit(s, m));
  }

  lemma SemInitInv(s: State, x: nat, value: int)
    requires Inv(s) && x !in s.sems
    ensures Inv(SemInit(s, x, value))
  {
    InitInv(s, SemQ(x), SemInit(s, x, value));
  }

  lemma MutexJoin(s: State, m: nat, tcb: Tcb)
    requires CanPark(s, tcb, NoTimer) && tcb.place == On(MutexQ(m)) && m in s.mutexes
    requires s.mutexes[m].holder.Some? && s.mutexes[m].holder.value != s.current
    ensures Inv(Park(s, tcb, NoTimer))
  {
    ParkedQueues(s, tcb, NoTimer);
    var r := Parked(s, tcb, NoTimer);
    MutexesUpdate(s, r, m);
    SemsSame(s, r);
    ParkInv(s, tcb, NoTimer);
  }

  lemma SetMutexInv(s: State, m: nat, mx: Mutex)
    requires Inv(s) && m in s.mutexes
    requires MutexClause(mx, s.queues[MutexQ(m)])
    ensures Inv(s.(mutexes := s.mutexes[m := mx]))
  {
  }

  lemma LockParks(s: State, m: nat)
    requires Inv(s) && Enabled(s, OpMutexLock(m)) && Blocks(s, OpMutexLock(m))
    ensures Inv(MutexLock(s, m))
  {
    RunningIsReady(s);
    MutexJoin(s, m, Cur(s).(flags := Cur(s).flags.(mutex := true), place := On(MutexQ(m))));
  }

  lemma MutexLockInv(s: State, m: nat)
    requires Inv(s) && Enabled(s, OpMutexLock(m))
    ensures Inv(MutexLock(s, m))
  {
    hide Core;
    RunningIsReady(s);
    MutexAt(s, m);
    var mx := s.mutexes[m];
    if mx.holder == Some(s.current) {
      SetMutexInv(s, m, mx.(reentries := mx.reentries + 1));
    } else if mx.holder == None {
      QueuedAt(s, MutexQ(m), s.current);
      SetMutexInv(s, m, Mutex(Some(s.current), 1));
    } else {
      LockParks(s, m);
    }
  }

  function Owning(tcb: Tcb): Tcb {
    tcb.(flags := tcb.flags.(mutex := false))
  }

  /** The unlock hands the mutex to the first waiter before that waiter runs. */
  lemma HandoffWakes(s: State, m: nat)
    requires Inv(s) && m in s.mutexes && s.mutexes[m] == Mutex(Some(s.current), 1)
    requires s.queues[MutexQ(m)] != []
    ensures var t := s.queues[MutexQ(m)][0];
      && CanWake(s, t, Owning(Task(s, t)), s.wadog) && s.tasks[t].place == On(MutexQ(m))
      && MutexUnlock(s, m) ==
         Woken(s, t, Owning(Task(s, t)), s.wadog).(mutexes := s.mutexes[m := Mutex(Some(t), 1)])
  {
    var t := s.queues[MutexQ(m)][0];
    assert s.tasks[t].place == On(MutexQ(m)) && Agree(s.tasks[t]) && !Has(s.wadog, t);
  }

  lemma HandoffObjects(s: State, m: nat)
    requires Inv(s) && m in s.mutexes && s.mutexes[m] == Mutex(Some(s.current), 1)
    requires s.queues[MutexQ(m)] != []
    ensures Mutexes(MutexUnlock(s, m)) && Sems(MutexUnlock(s, m))
  {
    HandoffWakes(s, m);
    var t := s.queues[MutexQ(m)][0];
    WokenQueues(s, t, Owning(Task(s, t)), s.wadog);
    WokenSource(s, t, Owning(Task(s, t)), s.wadog);
    assert Sems(s) && Mutexes(s) && MutexQ(m) in s.queues;
    hide Owning, MutexUnlock, Woken, Without, Before, Core, Mutexes, Sems, MainLast, NoDup, CanWake;
    MutexesUpdate(s, MutexUnlock(s, m), m);
    SemsSame(s, MutexUnlock(s, m));
  }

  lemma MutexHandoff(s: State, m: nat)
    requires Inv(s) && m in s.mutexes && s.mutexes[m] == Mutex(Some(s.current), 1)
    requires s.queues[MutexQ(m)] != []
    ensures Inv(MutexUnlock(s, m))
  {
    HandoffWakes(s, m);
    HandoffObjects(s, m);
    var t := s.queues[MutexQ(m)][0];
    var tcb := Owning(Task(s, t));
    var w := Woken(s, t, tcb, s.wadog);
    WokenChains(s, t, tcb, s.wadog);
    WokenTasks(s, t, tcb, s.wadog);
    WokenQueues(s, t, tcb, s.wadog);
    SwapObjects(w, MutexUnlock(s, m));
  }

  lemma SwapObjects(w: State, r: State)
    requires r == w.(mutexes := r.mutexes, sems := r.sems)
    ensures Chains(w) ==> Chains(r)
    ensures MainLast(w) ==> MainLast(r)
    ensures AllAgree(w) ==> AllAgree(r)
    ensures Timers(w) ==> Timers(r)
  {
  }

  lemma MutexUnlockInv(s: State, m: nat)
    requires Inv(s) && m in s.mutexes
    ensures Inv(MutexUnlock(s, m))
  {
    var mx := s.mutexes[m];
    if mx.holder == Some(s.current) {
      RunningIsReady(s);
      if mx.reentries > 1 {
        SetMutexInv(s, m, mx.(reentries := mx.reentries - 1));
      } else if s.queues[MutexQ(m)] == [] {
        SetMutexInv(s, m, Mutex(None, 0));
      } else {
        MutexHandoff(s, m);
      }
    }
  }

  lemma CountedInv(s: State, x: nat)
    requires Inv(s) && x in s.sems
    ensures Inv(Counted(s, x, -1))
  {
    SwapObjects(s, Counted(s, x, -1));
  }

  lemma ParkedSame(s: State, tcb: Tcb, timer: Timer)
    ensures Parked(s, tcb, timer).sems == s.sems && Parked(s, tcb, timer).mutexes == s.mutexes
  {
    hide Without, Inserted;
  }

  lemma SemBound(s: State, x: nat)
    requires Inv(s) && x in s.sems && s.sems[x] <= 0
    ensures SemQ(x) in s.queues && s.sems[x] + |s.queues[SemQ(x)]| <= 0
  {
  }

  lemma ObjectsHold(s: State)
    requires Inv(s)
    ensures Mutexes(s) && Sems(s)
  {
  }

  lemma SemParkObjects(s: State, x: nat, tcb: Tcb, timer: Timer)
    requires CanPark(s, tcb, timer) && x in s.sems && s.sems[x] <= 0 && tcb.place == On(SemQ(x))
    ensures var c := Counted(s, x, -1);
      CanPark(c, tcb, timer) && Mutexes(Parked(c, tcb, timer)) && Sems(Parked(c, tcb, timer))
  {
    hide Core, Mutexes, Sems, MainLast, NoDup, Parked, Agree;
    var c := Counted(s, x, -1);
    CountedInv(s, x);
    SemBound(s, x);
    ObjectsHold(c);
    assert CanPark(c, tcb, timer);
    ParkedQueues(c, tcb, timer);
    ParkedSame(c, tcb, timer);
    hide Inv, CanPark;
    var r := Parked(c, tcb, timer);
    SemsUpdate(c, r, x);
    MutexesSame(c, r);
  }

  lemma SemParkInv(s: State, x: nat, tcb: Tcb, timer: Timer)
    requires CanPark(s, tcb, timer) && x in s.sems && s.sems[x] <= 0 && tcb.place == On(SemQ(x))
    ensures Inv(Park(Counted(s, x, -1), tcb, timer))
  {
    SemParkObjects(s, x, tcb, timer);
    hide *;
    ParkInv(Counted(s, x, -1), tcb, timer);
  }

  lemma SemWaitInv(s: State, x: nat)
    requires Inv(s) && Enabled(s, OpSemWait(x))
    ensures Inv(SemWait(s, x))
  {
    RunningIsReady(s);
    if s.sems[x] <= 0 {
      SemParkInv(s, x, Cur(s).(flags := Cur(s).flags.(sem := true), place := On(SemQ(x))), NoTimer);
    }
  }

  lemma SemTimedParks(s: State, x: nat, timeout: int)
    requires Inv(s) && x in s.sems && s.sems[x] <= 0 && timeout != 0 && s.current != s.main
    ensures Inv(SemTimedWait(s, x, timeout))
  {
    RunningIsReady(s);
    var tcb := Cur(s).(flags := Cur(s).flags.(sem := true, timeout := timeout > 0), place := On(SemQ(x)),
                       waitObj := On(SemQ(x)), code := 0);
    SemParkInv(s, x, tcb, TimerFor(timeout));
  }

  lemma SemTimedWaitInv(s: State, x: nat, timeout: int)
    requires Inv(s) && Enabled(s, OpSemTimedWait(x, timeout))
    ensures Inv(SemTimedWait(s, x, timeout))
  {
    hide Core;
    RunningIsReady(s);
    QueueExists(s, SemQ(x));
    if s.sems[x] > 0 {
      CountedInv(s, x);
    } else if timeout != 0 {
      SemTimedParks(s, x, timeout);
    }
  }

  lemma SemPostInv(s: State, x: nat)
    requires Inv(s) && x in s.sems
    ensures Inv(SemPost(s, x))
  {
    if s.queues[SemQ(x)] != [] {
      SemGrant(s, x);
    }
  }

  lemma GrantWakes(s: State, x: nat)
    requires Inv(s) && x in s.sems && s.queues[SemQ(x)] != []
    ensures var t := s.queues[SemQ(x)][0];
            var w := Disarmed(s, t);
      && CanWake(s, t, Granted(Task(s, t)), w) && s.tasks[t].place == On(SemQ(x))
      && SemPost(s, x) == Woken(s, t, Granted(Task(s, t)), w).(sems := s.sems[x := s.sems[x] + 1])
  {
    var t := s.queues[SemQ(x)][0];
    assert s.tasks[t].place == On(SemQ(x)) && Agree(s.tasks[t]);
    DisarmedFacts(s, t);
  }

  lemma GrantObjects(s: State, x: nat)
    requires Inv(s) && x in s.sems && s.queues[SemQ(x)] != []
    ensures Mutexes(SemPost(s, x)) && Sems(SemPost(s, x))
  {
    GrantWakes(s, x);
    var t := s.queues[SemQ(x)][0];
    var tcb, w := Granted(Task(s, t)), Disarmed(s, t);
    WokenSource(s, t, tcb, w);
    WokenQueues(s, t, tcb, w);
    assert Sems(s) && Mutexes(s) && SemQ(x) in s.queues && s.sems[x] + |s.queues[SemQ(x)]| <= 0;
    hide Granted, Disarmed, SemPost, Woken, Without, Before, Core, Mutexes, Sems, MainLast, NoDup, CanWake;
    SemsUpdate(s, SemPost(s, x), x);
    MutexesSame(s, SemPost(s, x));
  }

  lemma SemGrant(s: State, x: nat)
    requires Inv(s) && x in s.sems && s.queues[SemQ(x)] != []
    ensures Inv(SemPost(s, x))
  {
    GrantWakes(s, x);
    GrantObjects(s, x);
    var t := s.queues[SemQ(x)][0];
    var tcb := Granted(Task(s, t));
    WokenChains(s, t, tcb, Disarmed(s, t));
    WokenTasks(s, t, tcb, Disarmed(s, t));
    WokenQueues(s, t, tcb, Disarmed(s, t));
    SwapObjects(Woken(s, t, tcb, Disarmed(s, t)), SemPost(s, x));
  }

  lemma CondInitInv(s: State, c: nat)
    requires Inv(s) && CondQ(c) !in s.queues
    ensures Inv(CondInit(s, c))
  {
    InitInv(s, CondQ(c), CondInit(s, c));
  }

  lemma CondWaitInv(s: State, c: nat)
    requires Inv(s) && s.current != s.main && CondQ(c) in s.queues
    ensures Inv(CondWait(s, c))
  {
    RunningIsReady(s);
    ParkElsewhereInv(s, Cur(s).(flags := Cur(s).flags.(cond := true), place := On(CondQ(c))), NoTimer);
  }

  lemma CondTimedWaitInv(s: State, c: nat, timeout: int)
    requires Inv(s) && Enabled(s, OpCondTimedWait(c, timeout))
    ensures Inv(CondTimedWait(s, c, timeout))
  {
    RunningIsReady(s);
    if timeout != 0 {
      ParkElsewhereInv(s, Cur(s).(flags := Cur(s).flags.(cond := true, timeout := timeout > 0),
                       place := On(CondQ(c)), waitObj := On(CondQ(c)), code := 0), TimerFor(timeout));
    }
  }

  /** One signal: the first waiter moves from the condition to the ready list, nothing else moves. */
  lemma SignalIsWake(s: State, c: nat)
    requires Queue(s, CondQ(c)) != []
    ensures var t := Queue(s, CondQ(c))[0];
      CondSignal(s, c) == Woken(s, t, Notified(Task(s, t)), Disarmed(s, t))
  {
    hide Woken, Notified, Disarmed;
  }

  lemma CondSignalMoves(s: State, c: nat)
    requires Inv(s) && CondQ(c) in s.queues && s.queues[CondQ(c)] != []
    ensures var t := s.queues[CondQ(c)][0];
            var r := CondSignal(s, c);
      && r.queues.Keys == s.queues.Keys && r.tasks.Keys == s.tasks.Keys
      && r.current == s.current && r.main == s.main
      && r.queues[CondQ(c)] == s.queues[CondQ(c)][1..]
      && r.queues[Ready] == s.queues[Ready][..|s.queues[Ready]| - 1] + [t, s.main]
      && (forall q :: q in s.queues && q != Ready && q != CondQ(c) ==> r.queues[q] == s.queues[q])
      && r.tasks == s.tasks[t := Notified(s.tasks[t]).(place := On(Ready))]
  {
    var t := s.queues[CondQ(c)][0];
    assert s.tasks[t].place == On(CondQ(c)) && Agree(s.tasks[t]);
    DisarmedFacts(s, t);
    WokenQueues(s, t, Notified(Task(s, t)), Disarmed(s, t));
    SignalIsWake(s, c);
    hide Core, Disarmed, Notified, Before, CondSignal;
  }

  lemma CondSignalInv(s: State, c: nat)
    requires Inv(s) && CondQ(c) in s.queues
    ensures Inv(CondSignal(s, c))
  {
    if s.queues[CondQ(c)] != [] {
      var t := s.queues[CondQ(c)][0];
      assert s.tasks[t].place == On(CondQ(c)) && Agree(s.tasks[t]);
      DisarmedFacts(s, t);
      WokenCore(s, t, Notified(Task(s, t)), Disarmed(s, t));
    }
  }

  lemma CondSignalShrinks(s: State, c: nat)
    requires Inv(s) && CondQ(c) in s.queues && s.queues[CondQ(c)] != []
    ensures Inv(CondSignal(s, c)) && CondQ(c) in CondSignal(s, c).queues
    ensures |CondSignal(s, c).queues[CondQ(c)]| == |s.queues[CondQ(c)]| - 1
  {
    CondSignalInv(s, c);
    CondSignalMoves(s, c);
  }

  lemma {:induction false} SignalsInv(s: State, c: nat, n: nat)
    requires Inv(s) && CondQ(c) in s.queues && n <= |s.queues[CondQ(c)]|
    ensures Inv(Signals(s, c, n))
    decreases n
  {
    hide Core;
    if n > 0 {
      CondSignalShrinks(s, c);
      SignalsInv(CondSignal(s, c), c, n - 1);
    }
  }

  /** The tick never falls through its three branches: an armed task always waits for something. */
  lemma FireInv(s: State)
    requires Inv(s) && s.wadog != []
    ensures Wakeable(Task(s, s.wadog[0].task).flags)
    ensures Inv(Fire(s))
  {
    var t := s.wadog[0].task;
    assert Has(s.wadog, t);
    assert Agree(s.tasks[t]);
    WokenCore(s, t, TimedOut(Task(s, t)), s.wadog[1..]);
  }

  lemma {:induction false} TickleInv(s: State, gap: int)
    requires Inv(s)
    ensures Inv(Tickle(s, gap))
    decreases |s.wadog|
  {
    if s.wadog != [] {
      if s.wadog[0].delta > gap {
        var w := [s.wadog[0].(delta := s.wadog[0].delta - gap)] + s.wadog[1..];
        assert w[1..] == s.wadog[1..];
        assert forall x :: Has(w, x) <==> Has(s.wadog, x);
      } else {
        FireInv(s);
        TickleInv(Fire(s), gap);
      }
    }
  }

  // ----- every step, every run ---------------------------------------------------

  /** Every API call keeps the invariant. */
  lemma StepInv(s: State, op: Op)
    requires Inv(s) && Enabled(s, op)
    ensures Inv(Step(s, op))
  {
    hide Core, Park, Parked, Woken, Sched;
    match op
    case OpCreate(t, stale) => CreateInv(s, t, stale);
    case OpExit => ExitInv(s);
    case OpYield(code) => YieldInv(s, code);
    case OpResume(t) => ResumeInv(s, t);
    case OpSchedYield => SchedYieldInv(s);
    case OpUsleep(usec) => UsleepInv(s, usec);
    case OpEventWait(ev, any, timeout) => EventWaitInv(s, ev, any, timeout);
    case OpEventPost(t, ev) => EventPostInv(s, t, ev);
    case OpMutexInit(m) => MutexInitInv(s, m);
    case OpMutexLock(m) => MutexLockInv(s, m);
    case OpMutexUnlock(m) => MutexUnlockInv(s, m);
    case OpSemInit(x, v) => SemInitInv(s, x, v);
    case OpSemWait(x) => SemWaitInv(s, x);
    case OpSemTimedWait(x, timeout) => SemTimedWaitInv(s, x, timeout);
    case OpSemPost(x) => SemPostInv(s, x);
    case OpCondInit(c) => CondInitInv(s, c);
    case OpCondWait(c) => CondWaitInv(s, c);
    case OpCondTimedWait(c, timeout) => CondTimedWaitInv(s, c, timeout);
    case OpCondSignal(c) => CondSignalInv(s, c);
    case OpCondBroadcast(c) => SignalsInv(s, c, |Queue(s, CondQ(c))|);
    case OpTickle(gap) => TickleInv(s, gap);
  }

  lemma BootInv(main: Tid, stale: Tcb)
    ensures Inv(Boot(main, stale))
  {
    var s := Boot(main, stale);
    assert s.queues[Ready] == [main] && s.tasks.Keys == {main};
  }

  lemma {:induction false} RunInv(s: State, ops: seq<Op>)
    requires Inv(s) && EnabledRun(s, ops)
    ensures Inv(Run(s, ops))
    decreases |ops|
  {
    if ops != [] {
      StepInv(s, ops[0]);
      RunInv(Step(s, ops[0]), ops[1..]);
    }
  }
}
