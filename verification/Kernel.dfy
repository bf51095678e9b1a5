/**
  The run-time system as the object it is: one service thread's control data, updated in
  place by the API calls, statement by statement. Every call is proved to take the thread
  from its old `View()` to the state the functions of `Scheduler` prescribe.
 */
module Kernel {
  import opened Options
  import opened DeltaList
  import opened Scheduler
  import opened SchedulerInvariant
  import opened SchedulerEffects
  import opened SchedulerRuns
  import opened CallLaws

  /** How a call ends: with a result, or by switching to another task. */
  datatype Outcome = Returned(ok: bool) | Switched

  class ServiceThread {
    const main: Tid
    var current: Tid
    var tasks: map<Tid, Tcb>
    var queues: map<Qid, seq<Tid>>
    var wadog: seq<Entry>
    var mutexes: map<nat, Mutex>
    var sems: map<nat, int>
    var nLocal: int

    ghost function View(): State
      reads this
    {
      State(main, current, tasks, queues, wadog, mutexes, sems, nLocal)
    }

    ghost predicate Valid()
      reads this
    {
      Inv(View())
    }

    /** pthread_scheduler: the thread's first task is its maintask. */
    constructor (maintask: Tid, stale: Tcb)
      ensures View() == Boot(maintask, stale) && Valid()
    {
      main, current := maintask, maintask;
      tasks := map[maintask := stale.(flags := READY, place := On(Ready))];
      queues := map[Ready := [maintask]];
      wadog, mutexes, sems, nLocal := [], map[], map[], 1;
      new;
      BootInv(maintask, stale);
    }

    // ----- chain macros ------------------------------------------------------

    method ChainRemove(t: Tid)
      requires t in tasks && tasks[t].place.On? && tasks[t].place.q in queues
      modifies this`queues, this`tasks
      ensures var q := old(tasks[t].place.q);
        && queues == old(queues)[q := Without(old(queues)[q], t)]
        && tasks == old(tasks)[t := old(tasks)[t].(place := Off)]
    {
      var q := tasks[t].place.q;
      queues := queues[q := Without(queues[q], t)];
      tasks := tasks[t := tasks[t].(place := Off)];
    }

    method ChainInsertTail(q: Qid, t: Tid)
      requires t in tasks && q in queues
      modifies this`queues, this`tasks
      ensures queues == old(queues)[q := old(queues)[q] + [t]]
      ensures tasks == old(tasks)[t := old(tasks)[t].(place := On(q))]
    {
      queues := queues[q := queues[q] + [t]];
      tasks := tasks[t := tasks[t].(place := On(q))];
    }

    method InsertBeforeMain(t: Tid)
      requires t in tasks && Ready in queues
      modifies this`queues, this`tasks
      ensures queues == old(queues)[Ready := Before(old(queues)[Ready], main, t)]
      ensures tasks == old(tasks)[t := old(tasks)[t].(place := On(Ready))]
    {
      queues := queues[Ready := Before(queues[Ready], main, t)];
      tasks := tasks[t := tasks[t].(place := On(Ready))];
    }

    method SetFlags(t: Tid, f: Flags)
      requires t in tasks
      modifies this`tasks
      ensures tasks == old(tasks)[t := old(tasks)[t].(flags := f)]
    {
      tasks := tasks[t := tasks[t].(flags := f)];
    }

    // ----- scheduling -----------------------------------------------------------

    /** fiber_sched */
    method FiberSched()
      requires Core(View())
      modifies this`current, this`queues, this`tasks
      ensures View() == Sched(old(View()))
    {
      ReadyHead(View());
      hide Core, Without, Before;
      ghost var m := tasks;
      var next := queues[Ready][0];
      if next == current { return; }
      ChainRemove(next);
      current := next;
      if next != main {
        InsertBeforeMain(next);
      } else {
        ChainInsertTail(Ready, next);
      }
      PutBack(m, next, m[next].(place := Off), tasks[next]);
      WithoutHead(old(queues)[Ready]);
      Requeue(old(queues), Ready, Without(old(queues)[Ready], next), queues[Ready]);
    }

    /** fiber_watchdog_insert */
    method WatchdogInsert(t: Tid, timeout: int) returns (rc: nat)
      requires t in tasks
      modifies this`wadog, this`tasks
      ensures old(tasks)[t].flags.timeout ==> rc == 1 && wadog == old(wadog) && tasks == old(tasks)
      ensures !old(tasks)[t].flags.timeout ==>
        && rc == 0 && wadog == Inserted(old(wadog), t, timeout)
        && tasks == old(tasks)[t := old(tasks)[t].(flags := old(tasks)[t].flags.(timeout := true))]
    {
      if tasks[t].flags.timeout { return 1; }
      wadog := WalkInsert(wadog, t, timeout);
      SetFlags(t, tasks[t].flags.(timeout := true));
      return 0;
    }

    /** fiber_watchdog_remove */
    method WatchdogRemove(t: Tid)
      requires t in tasks && (tasks[t].flags.timeout ==> Has(wadog, t))
      modifies this`wadog, this`tasks
      ensures wadog == if old(tasks)[t].flags.timeout then Removed(old(wadog), t) else old(wadog)
      ensures tasks == old(tasks)[t := old(tasks)[t].(flags := old(tasks)[t].flags.(timeout := false))]
    {
      if tasks[t].flags.timeout {
        wadog := Splice(wadog, t);
        SetFlags(t, tasks[t].flags.(timeout := false));
      }
    }

    /** fiber_create */
    method FiberCreate(t: Tid, stale: Tcb)
      requires Valid() && t !in tasks
      modifies this
      ensures View() == Create(old(View()), t, stale) && Valid()
    {
      hide Core, Without, Before, Inserted, Removed, Has, Agree;
      CreateInv(View(), t, stale);
      Basics(View());
      tasks := tasks[t := stale.(flags := READY)];
      nLocal := nLocal + 1;
      InsertBeforeMain(t);
      assert tasks == Create(old(View()), t, stale).tasks;
    }

    /** The tail of cpp_taskmain. */
    method FiberExit()
      requires Valid() && current != main
      modifies this
      ensures View() == Exit(old(View())) && Valid()
      ensures current == main && old(current) !in tasks
    {
      hide Core, Without, Before, Inserted, Removed, Has, Agree;
      ExitInv(View());
      Basics(View());
      var t := current;
      nLocal := nLocal - 1;
      ChainRemove(t);
      tasks := tasks - {t};
      current := main;
      assert tasks == Exit(old(View())).tasks;
    }

    /** fiber_yield through fiber_setstate */
    method FiberYield(code: nat)
      requires Valid() && current != main
      modifies this
      ensures View() == Yield(old(View()), code) && Valid()
    {
      hide Core, Without, Before, Inserted, Removed, Has, Agree;
      Basics(View());
      tasks := tasks[current := tasks[current].(code := code)];
      SetFlags(current, tasks[current].flags.(suspended := true));
      ChainRemove(current);
      Switch(old(View()), OpYield(code));
    }

    /** Common end of the blocking calls: everything is in place but the switch. */
    method Switch(ghost s: State, ghost op: Op)
      requires Inv(s) && Enabled(s, op) && Blocks(s, op)
      requires View() == Parked(ParkBase(s, op), ParkTcb(s, op), ParkTimer(op))
      modifies this`current, this`queues, this`tasks
      ensures View() == Step(s, op) && Valid()
    {
      BlockingIsPark(s, op);
      BlockingCore(s, op);
      StepInv(s, op);
      FiberSched();
    }

    /** fiber_resume */
    method FiberResume(t: Tid) returns (code: nat)
      requires Valid() && t in tasks && tasks[t].flags.suspended
      modifies this
      ensures View() == Resume(old(View()), t) && Valid()
      ensures code == old(tasks)[t].code
    {
      hide Core, Without, Before, Inserted, Removed, Has, Agree;
      ResumeInv(View(), t);
      Basics(View());
      AgreeAt(View(), t);
      code := tasks[t].code;
      SetFlags(t, tasks[t].flags.(suspended := false));
      InsertBeforeMain(t);
      assert tasks == Resume(old(View()), t).tasks;
    }

    /** fiber_sched_yield */
    method FiberSchedYield()
      requires Valid()
      modifies this
      ensures View() == SchedYield(old(View())) && Valid()
    {
      hide Core, Without, Before, Inserted, Removed, Has, Agree;
      SchedYieldInv(View());
      Basics(View());
      ghost var s := View();
      ChainRemove(current);
      if current == main {
        ChainInsertTail(Ready, current);
      } else {
        InsertBeforeMain(current);
      }
      assert tasks == s.tasks;
      ghost var q := Without(s.queues[Ready], current);
      ghost var r := if current == main then q + [current] else Before(q, main, current);
      assert queues == s.queues[Ready := r];
      assert View() == s.(queues := s.queues[Ready := r]);
      SteppedBack(s);
      FiberSched();
    }

    /** fiber_usleep: the timer is armed first, then the fiber leaves the ready list. */
    method FiberUsleep(usec: int)
      requires Valid() && current != main
      modifies this
      ensures View() == Usleep(old(View()), usec) && Valid()
      ensures wadog == Inserted(old(wadog), old(current), usec)
    {
      hide Core, Without, Before, Inserted, Removed, Has, Agree;
      Basics(View());
      ghost var s := View();
      var _ := WatchdogInsert(current, usec);
      SetFlags(current, tasks[current].flags.(usleep := true));
      ChainRemove(current);
      assert tasks == Parked(ParkBase(s, OpUsleep(usec)), ParkTcb(s, OpUsleep(usec)), ParkTimer(OpUsleep(usec))).tasks;
      assert queues == Parked(ParkBase(s, OpUsleep(usec)), ParkTcb(s, OpUsleep(usec)), ParkTimer(OpUsleep(usec))).queues;
      Switch(s, OpUsleep(usec));
    }

    /** Arm the timer of a timed wait and leave the transient state. */
    method ArmTimeout(timeout: int)
      requires current in tasks && !tasks[current].flags.timeout
      modifies this`wadog, this`tasks
      ensures timeout > 0 ==>
        && wadog == Inserted(old(wadog), current, timeout)
        && tasks == old(tasks)[current := old(tasks)[current].(flags := old(tasks)[current].flags.(timeout := true, transient := false))]
      ensures timeout <= 0 ==> wadog == old(wadog) && tasks == old(tasks)
    {
      hide Inserted;
      if timeout > 0 {
        var _ := WatchdogInsert(current, timeout);
        SetFlags(current, tasks[current].flags.(transient := false));
      }
    }

    /** Shared middle of the timed waits: off the ready list, onto the queue, timer armed. */
    method EnterTimed(q: Qid, f: Flags, timeout: int)
      requires current in tasks && tasks[current].place == On(Ready) && Ready in queues && q in queues && q != Ready
      requires !f.timeout && !f.transient
      modifies this`queues, this`tasks, this`wadog
      ensures tasks == old(tasks)[current := old(tasks)[current].(flags := f.(timeout := timeout > 0),
                                  place := On(q), waitObj := On(q), code := 0)]
      ensures queues == old(queues)[Ready := Without(old(queues)[Ready], current)][q := old(queues)[q] + [current]]
      ensures wadog == if timeout > 0 then Inserted(old(wadog), current, timeout) else old(wadog)
    {
      hide Without, Inserted;
      Enter(q, f.(transient := timeout > 0));
      SetWait(q);
      Overwrite(old(tasks), current, old(tasks)[current].(flags := f.(transient := timeout > 0), place := On(q)), tasks[current]);
      ghost var k := tasks[current];
      ArmTimeout(timeout);
      Overwrite(old(tasks), current, k, tasks[current]);
    }

    method SetWait(q: Qid)
      requires current in tasks
      modifies this`tasks
      ensures tasks == old(tasks)[current := old(tasks)[current].(waitObj := On(q), code := 0)]
    {
      tasks := tasks[current := tasks[current].(waitObj := On(q))];
      tasks := tasks[current := tasks[current].(code := 0)];
    }

    /** From the ready list to the tail of a wait queue, with the given state word. */
    method Enter(q: Qid, f: Flags)
      requires current in tasks && tasks[current].place == On(Ready) && Ready in queues && q in queues && q != Ready
      modifies this`queues, this`tasks
      ensures tasks == old(tasks)[current := old(tasks)[current].(flags := f, place := On(q))]
      ensures queues == old(queues)[Ready := Without(old(queues)[Ready], current)][q := old(queues)[q] + [current]]
    {
      hide Without;
      ChainRemove(current);
      ChainInsertTail(q, current);
      SetFlags(current, f);
    }

    /** Shared end of the releasing calls: drop the timer if there is one, then make ready. */
    method MakeReady(t: Tid)
      requires t in tasks && Ready in queues && (tasks[t].flags.timeout ==> Has(wadog, t))
      modifies this`queues, this`tasks, this`wadog
      ensures tasks == old(tasks)[t := old(tasks)[t].(flags := old(tasks)[t].flags.(timeout := false), place := On(Ready))]
      ensures queues == old(queues)[Ready := Before(old(queues)[Ready], main, t)]
      ensures wadog == if old(tasks)[t].flags.timeout then Removed(old(wadog), t) else old(wadog)
    {
      hide Before, Removed;
      if tasks[t].flags.timeout { WatchdogRemove(t); }
      InsertBeforeMain(t);
    }

    // ----- events -----------------------------------------------------------------

    method EnterEvent(events: set<nat>, any: bool, timeout: int)
      requires current in tasks && tasks[current].place == On(Ready) && tasks[current].flags == READY && Ready in queues
      modifies this`queues, this`tasks, this`wadog
      ensures tasks == old(tasks)[current := old(tasks)[current].(seized := {}, wanted := events, any := any, place := Off,
                                  flags := READY.(event := true, timeout := timeout > 0))]
      ensures queues == old(queues)[Ready := Without(old(queues)[Ready], current)]
      ensures wadog == if timeout > 0 then Inserted(old(wadog), current, timeout) else old(wadog)
    {
      hide Without, Inserted;
      tasks := tasks[current := tasks[current].(seized := {}, wanted := events, any := any)];
      SetFlags(current, tasks[current].flags.(transient := timeout > 0, event := true));
      ChainRemove(current);
      ArmTimeout(timeout);
    }

    /** fiber_event_wait; a waiter that parks finds its result in `seized` when it runs again. */
    method EventWaitCall(events: set<nat>, any: bool, timeout: int) returns (now: set<nat>, out: Outcome)
      requires Valid() && Enabled(View(), OpEventWait(events, any, timeout))
      modifies this
      ensures View() == EventWait(old(View()), events, any, timeout) && Valid()
      ensures out.Switched? <==> timeout != 0 && !Meets(old(Cur(View()).pending), events, any)
      ensures now == if Meets(old(Cur(View()).pending), events, any) then old(Cur(View()).pending) * events else {}
      ensures out.Switched? ==> wadog == ArmedFor(old(wadog), old(current), timeout)
    {
      SatisfiedInSets(Cur(View()).pending, events, any);
      TimedLaw(View(), OpEventWait(events, any, timeout), timeout);
      hide Core, Without, Before, Inserted, Removed, Has, Agree, Meets, ArmedFor;
      EventWaitInv(View(), events, any, timeout);
      Basics(View());
      ghost var s := View();
      now := tasks[current].pending * events;
      if now != {} && (now == events || any) {
        tasks := tasks[current := tasks[current].(pending := tasks[current].pending - now)];
        assert s.tasks[current].pending - now == s.tasks[current].pending - events;
        return now, Returned(true);
      }
      now := {};
      if timeout == 0 { return now, Returned(false); }
      EnterEvent(events, any, timeout);
      assert tasks == s.tasks[current := ParkTcb(s, OpEventWait(events, any, timeout))];
      Switch(s, OpEventWait(events, any, timeout));
      out := Switched;
    }

    /** fiber_event_post */
    method EventPostCall(t: Tid, events: set<nat>)
      requires Valid() && t in tasks
      modifies this
      ensures View() == EventPost(old(View()), t, events) && Valid()
      ensures Delivered(old(Task(View(), t)), events, Task(View(), t))
    {
      EventPostDelivers(View(), t, events);
      hide *;
      AddEvents(t, events);
    }

    method AddEvents(t: Tid, events: set<nat>)
      requires Valid() && t in tasks
      modifies this
      ensures View() == EventPost(old(View()), t, events) && Valid()
    {
      hide Core, Without, Before, Inserted, Removed, Has, Agree;
      EventPostInv(View(), t, events);
      Basics(View());
      AgreeAt(View(), t);
      ArmedAt(View(), t);
      ghost var m := tasks;
      tasks := tasks[t := tasks[t].(pending := tasks[t].pending + events)];
      if !tasks[t].flags.event { return; }
      var seized := tasks[t].pending * tasks[t].wanted;
      if seized != {} && (seized == tasks[t].wanted || tasks[t].any) {
        assert tasks[t].pending - seized == tasks[t].pending - tasks[t].wanted;
        ghost var a := tasks[t];
        tasks := tasks[t := tasks[t].(pending := tasks[t].pending - seized, seized := seized)];
        Overwrite(m, t, a, tasks[t]);
        a := tasks[t];
        SetFlags(t, tasks[t].flags.(event := false));
        Overwrite(m, t, a, tasks[t]);
        a := tasks[t];
        MakeReady(t);
        Overwrite(m, t, a, tasks[t]);
      }
    }

    // ----- mutexes ------------------------------------------------------------------

    method MutexInitCall(m: nat)
      requires Valid() && m !in mutexes
      modifies this
      ensures View() == MutexInit(old(View()), m) && Valid()
      ensures mutexes == old(mutexes)[m := Mutex(None, 0)] && queues == old(queues)[MutexQ(m) := []]
    {
      MutexInitInv(View(), m);
      mutexes := mutexes[m := Mutex(None, 0)];
      queues := queues[MutexQ(m) := []];
    }

    /** _fiber_mutex_lock */
    method MutexLockCall(m: nat) returns (out: Outcome)
      requires Valid() && Enabled(View(), OpMutexLock(m))
      modifies this
      ensures View() == MutexLock(old(View()), m) && Valid()
      ensures out == if old(Blocks(View(), OpMutexLock(m))) then Switched else Returned(true)
    {
      hide Core, Without, Before, Inserted, Removed, Has, Agree;
      MutexLockInv(View(), m);
      Basics(View());
      ghost var s := View();
      if mutexes[m].holder == Some(current) {
        mutexes := mutexes[m := mutexes[m].(reentries := mutexes[m].reentries + 1)];
        return Returned(true);
      }
      if mutexes[m].holder == None {
        mutexes := mutexes[m := mutexes[m].(holder := Some(current))];
        mutexes := mutexes[m := mutexes[m].(reentries := 1)];
        assert mutexes == s.mutexes[m := Mutex(Some(current), 1)];
        return Returned(true);
      }
      QueueExists(s, MutexQ(m));
      SetFlags(current, tasks[current].flags.(mutex := true));
      ChainRemove(current);
      ChainInsertTail(MutexQ(m), current);
      assert tasks == Parked(ParkBase(s, OpMutexLock(m)), ParkTcb(s, OpMutexLock(m)), ParkTimer(OpMutexLock(m))).tasks;
      assert queues == Parked(ParkBase(s, OpMutexLock(m)), ParkTcb(s, OpMutexLock(m)), ParkTimer(OpMutexLock(m))).queues;
      Switch(s, OpMutexLock(m));
      out := Switched;
    }

    /** _fiber_mutex_unlock; false when the caller does not hold the mutex. */
    method MutexUnlockCall(m: nat) returns (ok: bool)
      requires Valid() && m in mutexes
      modifies this
      ensures View() == MutexUnlock(old(View()), m) && Valid()
      ensures ok <==> old(mutexes)[m].holder == Some(old(current))
    {
      hide Core, Without, Before, Inserted, Removed, Has, Agree;
      MutexUnlockInv(View(), m);
      Basics(View());
      MutexCounts(View(), m);
      ghost var s := View();
      if mutexes[m].holder != Some(current) { return false; }
      mutexes := mutexes[m := mutexes[m].(reentries := mutexes[m].reentries - 1)];
      if mutexes[m].reentries != 0 { return true; }
      var q := queues[MutexQ(m)];
      mutexes := mutexes[m := mutexes[m].(holder := if q == [] then None else Some(q[0]))];
      if q == [] {
        assert mutexes == s.mutexes[m := Mutex(None, 0)];
        return true;
      }
      HeadOf(s, MutexQ(m));
      ChainRemove(q[0]);
      mutexes := mutexes[m := mutexes[m].(reentries := 1)];
      SetFlags(q[0], tasks[q[0]].flags.(mutex := false));
      InsertBeforeMain(q[0]);
      assert mutexes == MutexUnlock(s, m).mutexes;
      assert tasks == MutexUnlock(s, m).tasks;
      return true;
    }

    // ----- semaphores -----------------------------------------------------------------

    method SemInitCall(x: nat, value: int)
      requires Valid() && x !in sems
      modifies this
      ensures View() == SemInit(old(View()), x, value) && Valid()
      ensures sems == old(sems)[x := value] && queues == old(queues)[SemQ(x) := []]
    {
      SemInitInv(View(), x, value);
      sems := sems[x := value];
      queues := queues[SemQ(x) := []];
    }

    /** fiber_sem_wait */
    method SemWaitCall(x: nat) returns (out: Outcome)
      requires Valid() && Enabled(View(), OpSemWait(x))
      modifies this
      ensures View() == SemWait(old(View()), x) && Valid()
      ensures out == if old(CountOf(View(), x)) > 0 then Returned(true) else Switched
    {
      hide Core, Without, Before, Inserted, Removed, Has, Agree;
      SemWaitInv(View(), x);
      Basics(View());
      ghost var s := View();
      sems := sems[x := sems[x] - 1];
      if sems[x] >= 0 { return Returned(true); }
      QueueExists(s, SemQ(x));
      Enter(SemQ(x), tasks[current].flags.(sem := true));
      assert tasks == Parked(ParkBase(s, OpSemWait(x)), ParkTcb(s, OpSemWait(x)), ParkTimer(OpSemWait(x))).tasks;
      assert queues == Parked(ParkBase(s, OpSemWait(x)), ParkTcb(s, OpSemWait(x)), ParkTimer(OpSemWait(x))).queues;
      Switch(s, OpSemWait(x));
      out := Switched;
    }

    /** fiber_sem_timedwait; a poll that fails gives its decrement back. */
    method SemTimedWaitCall(x: nat, timeout: int) returns (out: Outcome)
      requires Valid() && Enabled(View(), OpSemTimedWait(x, timeout))
      modifies this
      ensures View() == SemTimedWait(old(View()), x, timeout) && Valid()
      ensures out == if old(CountOf(View(), x)) > 0 then Returned(true) else if timeout == 0 then Returned(false) else Switched
      ensures out.Switched? ==> wadog == ArmedFor(old(wadog), old(current), timeout)
    {
      TimedLaw(View(), OpSemTimedWait(x, timeout), timeout);
      SemWaitIs(View(), x, timeout);
      hide *;
      out := TakeOrQueue(x, timeout);
    }

    method TakeOrQueue(x: nat, timeout: int) returns (out: Outcome)
      requires Valid() && Enabled(View(), OpSemTimedWait(x, timeout))
      modifies this
      ensures View() == SemTimedWait(old(View()), x, timeout) && Valid()
      ensures out == if old(CountOf(View(), x)) > 0 then Returned(true) else if timeout == 0 then Returned(false) else Switched
    {
      hide Core, Without, Before, Inserted, Removed, Has, Agree;
      SemTimedWaitInv(View(), x, timeout);
      Basics(View());
      ghost var s := View();
      sems := sems[x := sems[x] - 1];
      if sems[x] >= 0 { return Returned(true); }
      if timeout == 0 {
        sems := sems[x := sems[x] + 1];
        assert sems == s.sems;
        return Returned(false);
      }
      QueueExists(s, SemQ(x));
      EnterTimed(SemQ(x), tasks[current].flags.(sem := true), timeout);
      assert tasks == Parked(ParkBase(s, OpSemTimedWait(x, timeout)), ParkTcb(s, OpSemTimedWait(x, timeout)), ParkTimer(OpSemTimedWait(x, timeout))).tasks;
      assert queues == Parked(ParkBase(s, OpSemTimedWait(x, timeout)), ParkTcb(s, OpSemTimedWait(x, timeout)), ParkTimer(OpSemTimedWait(x, timeout))).queues;
      Switch(s, OpSemTimedWait(x, timeout));
      out := Switched;
    }

    /** fiber_sem_post */
    method SemPostCall(x: nat) returns (ok: bool)
      requires Valid() && x in sems
      modifies this
      ensures View() == SemPost(old(View()), x) && Valid() && ok
    {
      hide Core, Without, Before, Inserted, Removed, Has, Agree;
      SemPostInv(View(), x);
      Basics(View());
      ghost var s, m := View(), tasks;
      QueueExists(s, SemQ(x));
      sems := sems[x := sems[x] + 1];
      var q := queues[SemQ(x)];
      if q == [] { return true; }
      var t := q[0];
      HeadOf(s, SemQ(x));
      ArmedAt(s, t);
      PostFields(s, x);
      hide SemPost, Granted;
      ChainRemove(t);
      ghost var a := tasks[t];
      SetFlags(t, tasks[t].flags.(sem := false));
      Overwrite(m, t, a, tasks[t]);
      a := tasks[t];
      tasks := tasks[t := tasks[t].(code := 1)];
      Overwrite(m, t, a, tasks[t]);
      a := tasks[t];
      MakeReady(t);
      Overwrite(m, t, a, tasks[t]);
      return true;
    }

    // ----- condition variables -----------------------------------------------------------

    method CondInitCall(c: nat)
      requires Valid() && CondQ(c) !in queues
      modifies this
      ensures View() == CondInit(old(View()), c) && Valid()
    {
      CondInitInv(View(), c);
      queues := queues[CondQ(c) := []];
    }

    /** fiber_cond_wait; in this build the mutex calls around it are empty macros. */
    method CondWaitCall(c: nat)
      requires Valid() && current != main && CondQ(c) in queues
      modifies this
      ensures View() == CondWait(old(View()), c) && Valid()
    {
      hide Core, Without, Before, Inserted, Removed, Has, Agree;
      Basics(View());
      ghost var s := View();
      Enter(CondQ(c), tasks[current].flags.(cond := true));
      assert tasks == Parked(ParkBase(s, OpCondWait(c)), ParkTcb(s, OpCondWait(c)), ParkTimer(OpCondWait(c))).tasks;
      assert queues == Parked(ParkBase(s, OpCondWait(c)), ParkTcb(s, OpCondWait(c)), ParkTimer(OpCondWait(c))).queues;
      Switch(s, OpCondWait(c));
    }

    /** fiber_cond_timedwait */
    method CondTimedWaitCall(c: nat, timeout: int) returns (out: Outcome)
      requires Valid() && Enabled(View(), OpCondTimedWait(c, timeout))
      modifies this
      ensures View() == CondTimedWait(old(View()), c, timeout) && Valid()
      ensures out == if timeout == 0 then Returned(false) else Switched
      ensures out.Switched? ==> wadog == ArmedFor(old(wadog), old(current), timeout)
    {
      TimedLaw(View(), OpCondTimedWait(c, timeout), timeout);
      hide Core, Without, Before, Inserted, Removed, Has, Agree, ArmedFor;
      Basics(View());
      ghost var s := View();
      if timeout == 0 { return Returned(false); }
      EnterTimed(CondQ(c), tasks[current].flags.(cond := true), timeout);
      assert tasks == Parked(ParkBase(s, OpCondTimedWait(c, timeout)), ParkTcb(s, OpCondTimedWait(c, timeout)), ParkTimer(OpCondTimedWait(c, timeout))).tasks;
      assert queues == Parked(ParkBase(s, OpCondTimedWait(c, timeout)), ParkTcb(s, OpCondTimedWait(c, timeout)), ParkTimer(OpCondTimedWait(c, timeout))).queues;
      Switch(s, OpCondTimedWait(c, timeout));
      out := Switched;
    }

    /** fiber_cond_signal */
    method CondSignalCall(c: nat) returns (ok: bool)
      requires Valid() && CondQ(c) in queues
      modifies this
      ensures View() == CondSignal(old(View()), c) && Valid() && ok
    {
      hide Core, Without, Before, Inserted, Removed, Has, Agree;
      CondSignalInv(View(), c);
      Basics(View());
      ghost var s := View();
      var q := queues[CondQ(c)];
      if q == [] { return true; }
      HeadOf(s, CondQ(c));
      ArmedAt(s, q[0]);
      ChainRemove(q[0]);
      SetFlags(q[0], tasks[q[0]].flags.(cond := false));
      tasks := tasks[q[0] := tasks[q[0]].(code := 1)];
      MakeReady(q[0]);
      assert tasks == CondSignal(s, c).tasks;
      return true;
    }

    /** fiber_cond_broadcast: empty the queue onto a local chain, then make each task ready. */
    method CondBroadcastCall(c: nat) returns (ok: bool)
      requires Valid() && CondQ(c) in queues
      modifies this
      ensures View() == CondBroadcast(old(View()), c) && Valid() && ok
    {
      hide Core, Inv, Signals, Detached, Swept;
      ghost var s := View();
      SignalsInv(s, c, |s.queues[CondQ(c)]|);
      var q := queues[CondQ(c)];
      SweptNone(s, c);
      var i := 0;
      while i < |q|
        invariant i <= |q| && View() == Swept(s, c, i)
      {
        SweepOne(s, c, i);
        i := i + 1;
      }
      SweptAll(s, c);
      i := 0;
      while i < |q|
        invariant i <= |q| && View() == Detached(Signals(s, c, i), c, q[i..])
      {
        ReleaseOne(s, c, i, q[i]);
        i := i + 1;
      }
      DetachedNone(s, c);
      return true;
    }

    method SweepOne(ghost s: State, c: nat, i: nat)
      requires Inv(s) && CondQ(c) in s.queues && i < |s.queues[CondQ(c)]| && View() == Swept(s, c, i)
      modifies this`queues, this`tasks
      ensures View() == Swept(s, c, i + 1)
    {
      SweptHead(s, c, i);
      var t := queues[CondQ(c)][0];
      hide Inv, Swept, SweptTasks, Without;
      ghost var m := tasks;
      ChainRemove(t);
      ghost var m1 := tasks;
      SetFlags(t, tasks[t].flags.(cond := false));
      Overwrite(m, t, m1[t], tasks[t]);
      ghost var m2 := tasks;
      tasks := tasks[t := tasks[t].(code := 1)];
      Overwrite(m, t, m2[t], tasks[t]);
    }

    method ReleaseOne(ghost s: State, c: nat, i: nat, t: Tid)
      requires Inv(s) && CondQ(c) in s.queues && i < |s.queues[CondQ(c)]| && t == s.queues[CondQ(c)][i]
      requires View() == Detached(Signals(s, c, i), c, s.queues[CondQ(c)][i..])
      modifies this`queues, this`tasks, this`wadog
      ensures View() == Detached(Signals(s, c, i + 1), c, s.queues[CondQ(c)][i + 1..])
    {
      hide Inv, Detached, Signals;
      DetachedStep(s, c, i);
      MakeReady(t);
    }

    // ----- the timer --------------------------------------------------------------------------

    /** fiber_watchdog_tickle; the fall-through after its three branches is dead code. */
    method WatchdogTickle(gap: int)
      requires Valid() && current == main
      modifies this
      ensures View() == Tickle(old(View()), gap) && Valid()
    {
      hide Core, Without, Before, Inserted, Removed, Has, Agree;
      while wadog != []
        invariant Valid() && Tickle(View(), gap) == Tickle(old(View()), gap)
        decreases |wadog|
      {
        if wadog[0].delta > gap {
          TickleInv(View(), gap);
          wadog := [wadog[0].(delta := wadog[0].delta - gap)] + wadog[1..];
          return;
        }
        FireHead();
      }
    }

    method FireHead()
      requires Valid() && wadog != []
      modifies this
      ensures View() == Fire(old(View())) && Valid()
      ensures |wadog| == |old(wadog)| - 1
    {
      hide Core, Without, Before, Inserted, Removed, Has, Agree;
      ghost var s, m := View(), tasks;
      FireInv(s);
      Basics(s);
      ArmedHead(s);
      FireFields(s);
      hide Fire, TimedOut, Wakeable;
      var t := wadog[0].task;
      wadog := wadog[1..];
      SetFlags(t, tasks[t].flags.(timeout := false));
      ghost var a := tasks[t];
      if tasks[t].flags.sem || tasks[t].flags.cond {
        SetFlags(t, tasks[t].flags.(sem := false, cond := false));
        Overwrite(m, t, a, tasks[t]);
        a := tasks[t];
        ChainRemove(t);
        Overwrite(m, t, a, tasks[t]);
        a := tasks[t];
        InsertBeforeMain(t);
      } else if tasks[t].flags.event {
        SetFlags(t, tasks[t].flags.(event := false));
        Overwrite(m, t, a, tasks[t]);
        a := tasks[t];
        InsertBeforeMain(t);
      } else if tasks[t].flags.usleep {
        SetFlags(t, tasks[t].flags.(usleep := false));
        Overwrite(m, t, a, tasks[t]);
        a := tasks[t];
        InsertBeforeMain(t);
      } else {
        assert false;
      }
      Overwrite(m, t, a, tasks[t]);
    }
  }

  /** A notified waiter that is on no chain yet. */
  function Swept1(k: Tcb): Tcb {
    k.(flags := k.flags.(cond := false), code := 1, place := Off)
  }

  function SweptTasks(m: map<Tid, Tcb>, ts: seq<Tid>): map<Tid, Tcb> {
    map t | t in m :: if t in ts then Swept1(m[t]) else m[t]
  }

  /** First loop of the broadcast: the first i waiters have left the condition's queue. */
  ghost function Swept(s: State, c: nat, i: nat): State
    requires i <= |Queue(s, CondQ(c))|
  {
    var q := Queue(s, CondQ(c));
    s.(queues := s.queues[CondQ(c) := q[i..]], tasks := SweptTasks(s.tasks, q[..i]))
  }

  /** Second loop: `rest` is still to be made ready. */
  ghost function Detached(s: State, c: nat, rest: seq<Tid>): State {
    s.(queues := s.queues[CondQ(c) := []], tasks := SweptTasks(s.tasks, rest))
  }

  lemma SweptNone(s: State, c: nat)
    requires CondQ(c) in s.queues
    ensures Swept(s, c, 0) == s
  {
    var q := s.queues[CondQ(c)];
    assert q[0..] == q && q[..0] == [];
    assert SweptTasks(s.tasks, []) == s.tasks;
    assert s.queues[CondQ(c) := q] == s.queues;
  }

  lemma SweptAll(s: State, c: nat)
    requires CondQ(c) in s.queues
    ensures Swept(s, c, |s.queues[CondQ(c)]|) == Detached(Signals(s, c, 0), c, s.queues[CondQ(c)][0..])
  {
    var q := s.queues[CondQ(c)];
    assert q[0..] == q && q[..|q|] == q && q[|q|..] == [];
  }

  lemma SweptHead(s: State, c: nat, i: nat)
    requires Inv(s) && CondQ(c) in s.queues && i < |s.queues[CondQ(c)]|
    ensures var r := Swept(s, c, i);
            var q := s.queues[CondQ(c)];
      && CondQ(c) in r.queues && r.queues[CondQ(c)] == q[i..] && q[i..][0] == q[i]
      && q[i] in r.tasks && r.tasks[q[i]] == s.tasks[q[i]] && s.tasks[q[i]].place == On(CondQ(c))
      && Swept(s, c, i + 1) == r.(queues := r.queues[CondQ(c) := Without(q[i..], q[i])],
                                  tasks := r.tasks[q[i] := Swept1(s.tasks[q[i]])])
  {
    var q := s.queues[CondQ(c)];
    NoDupAt(q, i);
    assert q[..i + 1] == q[..i] + [q[i]];
    assert q[i..][1..] == q[i + 1..];
    assert SweptTasks(s.tasks, q[..i + 1]) == SweptTasks(s.tasks, q[..i])[q[i] := Swept1(s.tasks[q[i]])];
  }

  lemma {:induction false} NoDupAt(q: seq<Tid>, i: nat)
    requires NoDup(q) && i < |q|
    ensures q[i] !in q[..i] && q[i] !in q[i + 1..]
  {
    if i > 0 {
      NoDupAt(q[1..], i - 1);
      assert q[..i] == [q[0]] + q[1..][..i - 1];
      assert q[1..][i..] == q[i + 1..];
    }
  }

  lemma {:induction false} SignalsSnoc(s: State, c: nat, n: nat)
    ensures Signals(s, c, n + 1) == CondSignal(Signals(s, c, n), c)
    decreases n
  {
    if n > 0 { SignalsSnoc(CondSignal(s, c), c, n - 1); }
  }

  /** The state after `MakeReady(t)`. */
  ghost function ReadyMade(d: State, t: Tid): State {
    var k := Task(d, t);
    d.(tasks := d.tasks[t := k.(flags := k.flags.(timeout := false), place := On(Ready))],
       queues := d.queues[Ready := Before(Queue(d, Ready), d.main, t)],
       wadog := if k.flags.timeout then Removed(d.wadog, t) else d.wadog)
  }

  /** A signal, field by field. */
  lemma SignalFields(s: State, c: nat)
    requires Inv(s) && CondQ(c) in s.queues && s.queues[CondQ(c)] != []
    ensures var q := s.queues[CondQ(c)];
            var t, r := q[0], CondSignal(s, c);
      && Ready in s.queues && t in s.tasks && t !in q[1..] && (s.tasks[t].flags.timeout ==> Has(s.wadog, t))
      && r.tasks == s.tasks[t := Notified(s.tasks[t]).(place := On(Ready))]
      && r.queues == s.queues[CondQ(c) := q[1..]][Ready := Before(s.queues[Ready], s.main, t)]
      && r == s.(tasks := r.tasks, queues := r.queues, wadog := Disarmed(s, t))
  {
    HeadOf(s, CondQ(c));
    ArmedAt(s, s.queues[CondQ(c)][0]);
    Basics(s);
    NoDupAt(s.queues[CondQ(c)], 0);
    hide Core, Before, Removed;
  }

  lemma ReleaseHead(s: State, c: nat)
    requires Inv(s) && CondQ(c) in s.queues && s.queues[CondQ(c)] != []
    ensures var q := s.queues[CondQ(c)];
            var d := Detached(s, c, q);
      && q[0] in d.tasks && Ready in d.queues && (d.tasks[q[0]].flags.timeout ==> Has(d.wadog, q[0]))
      && Detached(CondSignal(s, c), c, q[1..]) == ReadyMade(d, q[0])
  {
    var q := s.queues[CondQ(c)];
    var t := q[0];
    SignalFields(s, c);
    ReleaseHeadTasks(s.tasks, q, t);
    var d, r := Detached(s, c, q), CondSignal(s, c);
    assert t in d.tasks && d.tasks[t] == Swept1(s.tasks[t]);
    hide Inv, CondSignal, Before, Removed, SweptTasks, Notified, Swept1;
    Rewrite(s.queues, CondQ(c), Ready, q[1..], Before(s.queues[Ready], s.main, t), []);
    assert Detached(r, c, q[1..]).tasks == ReadyMade(d, t).tasks;
  }

  lemma Rewrite(m: map<Qid, seq<Tid>>, a: Qid, b: Qid, x: seq<Tid>, y: seq<Tid>, z: seq<Tid>)
    requires a != b
    ensures m[a := x][b := y][a := z] == m[a := z][b := y]
  {
  }

  lemma ReleaseHeadTasks(m: map<Tid, Tcb>, q: seq<Tid>, t: Tid)
    requires q != [] && t == q[0] && t in m
    ensures t !in q[1..] ==>
      SweptTasks(m[t := Notified(m[t]).(place := On(Ready))], q[1..]) ==
      SweptTasks(m, q)[t := Swept1(m[t]).(flags := Swept1(m[t]).flags.(timeout := false), place := On(Ready))]
  {
  }

  lemma DetachedStep(s: State, c: nat, i: nat)
    requires Inv(s) && CondQ(c) in s.queues && i < |s.queues[CondQ(c)]|
    ensures var q := s.queues[CondQ(c)];
            var d := Detached(Signals(s, c, i), c, q[i..]);
      && q[i] in d.tasks && Ready in d.queues && (d.tasks[q[i]].flags.timeout ==> Has(d.wadog, q[i]))
      && Detached(Signals(s, c, i + 1), c, q[i + 1..]) == ReadyMade(d, q[i])
  {
    var q := s.queues[CondQ(c)];
    SignalsInv(s, c, i);
    SignalsQueue(s, c, i, CondQ(c));
    SignalsSnoc(s, c, i);
    assert q[i..][0] == q[i] && q[i..][1..] == q[i + 1..];
    hide Inv, Signals, Detached, ReadyMade, CondSignal;
    ReleaseHead(Signals(s, c, i), c);
  }

  lemma DetachedNone(s: State, c: nat)
    requires Inv(s) && CondQ(c) in s.queues
    ensures var n := |s.queues[CondQ(c)]|;
      Detached(Signals(s, c, n), c, s.queues[CondQ(c)][n..]) == Signals(s, c, n)
  {
    var q := s.queues[CondQ(c)];
    SignalsQueue(s, c, |q|, CondQ(c));
    var r := Signals(s, c, |q|);
    assert q[|q|..] == [];
    assert SweptTasks(r.tasks, []) == r.tasks;
    assert r.queues[CondQ(c) := []] == r.queues;
  }

  lemma Overwrite(m: map<Tid, Tcb>, t: Tid, a: Tcb, b: Tcb)
    ensures m[t := a][t := b] == m[t := b]
  {
  }

  lemma ReadyHead(s: State)
    requires Core(s)
    ensures Ready in s.queues && s.queues[Ready] != []
    ensures s.queues[Ready][0] in s.tasks && s.tasks[s.queues[Ready][0]].place == On(Ready)
  {
    assert s.queues[Ready][0] in s.queues[Ready];
  }

  lemma WithoutHead(q: seq<Tid>)
    requires q != []
    ensures Without(q, q[0]) == q[1..]
  {
  }

  lemma Requeue(m: map<Qid, seq<Tid>>, q: Qid, a: seq<Tid>, b: seq<Tid>)
    ensures m[q := a][q := b] == m[q := b]
  {
  }

  /** Writing back what was there undoes a change. */
  lemma PutBack(m: map<Tid, Tcb>, t: Tid, a: Tcb, b: Tcb)
    requires t in m && b == m[t]
    ensures m[t := a][t := b] == m
  {
  }

  lemma SemWaitIs(s: State, x: nat, timeout: int)
    ensures Step(s, OpSemTimedWait(x, timeout)) == SemTimedWait(s, x, timeout)
    ensures Blocks(s, OpSemTimedWait(x, timeout)) <==> CountOf(s, x) <= 0 && timeout != 0
  {
    hide SemTimedWait;
  }

  lemma Basics(s: State)
    requires Inv(s)
    ensures Ready in s.queues && s.current in s.tasks
    ensures s.tasks[s.current].flags == READY && s.tasks[s.current].place == On(Ready)
  {
    RunningIsReady(s);
  }

  lemma SteppedBack(s: State)
    requires Inv(s)
    ensures var q := Without(s.queues[Ready], s.current);
            var r := s.(queues := s.queues[Ready :=
              if s.current == s.main then q + [s.current] else Before(q, s.main, s.current)]);
            Core(r) && SchedYield(s) == Sched(r)
  {
    SchedYieldMoves(s);
    var q := Without(s.queues[Ready], s.current);
    ReorderedCore(s, s.(queues := s.queues[Ready :=
      if s.current == s.main then q + [s.current] else Before(q, s.main, s.current)]));
  }

  lemma MutexCounts(s: State, m: nat)
    requires Inv(s) && m in s.mutexes
    ensures MutexQ(m) in s.queues && (s.mutexes[m].holder.Some? ==> s.mutexes[m].reentries >= 1)
  {
  }

  lemma HeadOf(s: State, q: Qid)
    requires Inv(s) && q in s.queues && s.queues[q] != []
    ensures var t := s.queues[q][0]; t in s.tasks && s.tasks[t].place == On(q) && Agree(s.tasks[t])
  {
  }

  lemma ArmedAt(s: State, t: Tid)
    requires Inv(s) && t in s.tasks
    ensures s.tasks[t].flags.timeout <==> Has(s.wadog, t)
  {
  }

  /** A post that wakes somebody, field by field. */
  lemma PostFields(s: State, x: nat)
    requires Inv(s) && x in s.sems && Queue(s, SemQ(x)) != []
    ensures var t := Queue(s, SemQ(x))[0];
            var r := SemPost(s, x);
      && t in s.tasks && s.tasks[t].place == On(SemQ(x))
      && r.tasks == s.tasks[t := s.tasks[t].(place := On(Ready), code := 1,
           flags := s.tasks[t].flags.(sem := false, timeout := false))]
      && r.queues == s.queues[SemQ(x) := Without(s.queues[SemQ(x)], t)][Ready := Before(Queue(s, Ready), s.main, t)]
      && r == s.(tasks := r.tasks, queues := r.queues, sems := s.sems[x := s.sems[x] + 1], wadog := Disarmed(s, t))
  {
    HeadOf(s, SemQ(x));
    hide Core, Before, Without, Removed;
  }

  /** A wake-up by the tick, field by field. */
  lemma FireFields(s: State)
    requires Inv(s) && s.wadog != []
    ensures var t := s.wadog[0].task;
            var r := Fire(s);
            var f := s.tasks[t].flags;
      && t in s.tasks && (f.sem || f.cond || f.event || f.usleep)
      && r.tasks == s.tasks[t := s.tasks[t].(place := On(Ready), flags :=
           if f.sem || f.cond then f.(timeout := false, sem := false, cond := false)
           else if f.event then f.(timeout := false, event := false)
           else f.(timeout := false, usleep := false))]
      && (f.sem || f.cond ==> s.tasks[t].place.On?)
      && (!(f.sem || f.cond) ==> s.tasks[t].place == Off)
      && r.queues == (if s.tasks[t].place.On? then s.queues[s.tasks[t].place.q := Without(Queue(s, s.tasks[t].place.q), t)]
                      else s.queues)[Ready := Before(Queue(s, Ready), s.main, t)]
      && r == s.(tasks := r.tasks, queues := r.queues, wadog := s.wadog[1..])
  {
    FireInv(s);
    ArmedHead(s);
    hide Core, Before, Without;
  }

  lemma ArmedHead(s: State)
    requires Inv(s) && s.wadog != []
    ensures var t := s.wadog[0].task;
      && t in s.tasks && Agree(s.tasks[t]) && s.tasks[t].flags.timeout
      && (s.tasks[t].place.On? ==> s.tasks[t].place.q in s.queues && s.tasks[t].place.q != Ready)
  {
    assert Has(s.wadog, s.wadog[0].task);
  }

  /** Just before a blocking call switches, all but the running task is settled. */
  lemma BlockingCore(s: State, op: Op)
    requires Inv(s) && Enabled(s, op) && Blocks(s, op)
    ensures Core(Parked(ParkBase(s, op), ParkTcb(s, op), ParkTimer(op)))
  {
    RunningIsReady(s);
    var b, k, w := ParkBase(s, op), ParkTcb(s, op), ParkTimer(op);
    BlockingCanPark(s, op);
    ParkedChains(b, k, w);
    ParkedTasks(b, k, w);
    ParkedTimers(b, k, w);
    BlockingObjects(s, op);
  }

  lemma BlockingCanPark(s: State, op: Op)
    requires Inv(s) && Enabled(s, op) && Blocks(s, op)
    ensures CanPark(ParkBase(s, op), ParkTcb(s, op), ParkTimer(op))
  {
    RunningIsReady(s);
    if op.OpSemWait? || op.OpSemTimedWait? { CountedInv(s, op.x); }
  }

  lemma JoinMutexObjects(b: State, k: Tcb, m: nat)
    requires CanPark(b, k, NoTimer) && k.place == On(MutexQ(m)) && m in b.mutexes
    requires b.mutexes[m].holder.Some? && b.mutexes[m].holder.value != b.current
    ensures Mutexes(Parked(b, k, NoTimer)) && Sems(Parked(b, k, NoTimer))
  {
    ParkedQueues(b, k, NoTimer);
    hide Chains, AllAgree, Timers;
    MutexesUpdate(b, Parked(b, k, NoTimer), m);
    SemsSame(b, Parked(b, k, NoTimer));
  }

  lemma JoinSemObjects(b: State, k: Tcb, w: Timer, x: nat)
    requires CanPark(b, k, w) && k.place == On(SemQ(x)) && x in b.sems
    requires b.sems[x] + |Queue(b, SemQ(x))| < 0
    ensures Mutexes(Parked(b, k, w)) && Sems(Parked(b, k, w))
  {
    ParkedQueues(b, k, w);
    hide Chains, AllAgree, Timers;
    SemsUpdate(b, Parked(b, k, w), x);
    MutexesSame(b, Parked(b, k, w));
  }

  lemma JoinOtherObjects(b: State, k: Tcb, w: Timer)
    requires CanPark(b, k, w) && (k.place.On? ==> k.place.q.CondQ?)
    ensures Mutexes(Parked(b, k, w)) && Sems(Parked(b, k, w))
  {
    ParkedQueues(b, k, w);
    hide Chains, AllAgree, Timers;
    SemsSame(b, Parked(b, k, w));
    MutexesSame(b, Parked(b, k, w));
  }

  lemma SemOwed(s: State, x: nat)
    requires Inv(s) && x in s.sems && s.sems[x] <= 0
    ensures s.sems[x] + |Queue(s, SemQ(x))| <= 0
  {
  }

  lemma BlockingObjects(s: State, op: Op)
    requires Inv(s) && Enabled(s, op) && Blocks(s, op)
    ensures var r := Parked(ParkBase(s, op), ParkTcb(s, op), ParkTimer(op));
      Mutexes(r) && Sems(r)
  {
    hide Core, CanPark, Parked;
    BlockingCanPark(s, op);
    var b, k, w := ParkBase(s, op), ParkTcb(s, op), ParkTimer(op);
    match op
    case OpMutexLock(m) => JoinMutexObjects(b, k, m);
    case OpSemWait(x) => SemOwed(s, x); JoinSemObjects(b, k, w, x);
    case OpSemTimedWait(x, _) => SemOwed(s, x); JoinSemObjects(b, k, w, x);
    case _ => JoinOtherObjects(b, k, w);
  }

}
