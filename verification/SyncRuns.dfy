/**
  Theorems over every run about the synchronisation objects: first-come first-served
  queues, the semaphore's books, mutex ownership, and event delivery.
 */
module SyncRuns {
  import opened Options
  import opened Streams
  import opened DeltaList
  import opened Scheduler
  import opened SchedulerInvariant
  import opened SchedulerEffects
  import opened SchedulerRuns
  import opened CallLaws

  // ----- what the calls leave alone -----------------------------------------------

  lemma {:induction false} SignalsKeep(s: State, c: nat, n: nat)
    ensures Signals(s, c, n).sems == s.sems && Signals(s, c, n).mutexes == s.mutexes
    decreases n
  {
    if n > 0 { SignalsKeep(CondSignal(s, c), c, n - 1); }
  }

  lemma {:induction false} TickleKeeps(s: State, gap: int)
    ensures Tickle(s, gap).sems == s.sems && Tickle(s, gap).mutexes == s.mutexes
    decreases |s.wadog|
  {
    if s.wadog != [] && s.wadog[0].delta <= gap { TickleKeeps(Fire(s), gap); }
  }

  // ----- queues are served in arrival order -------------------------------------------

  /** The tasks that joined q during a run, in order. */
  function Arrivals(s: State, ops: seq<Op>, q: Qid): seq<Tid>
    decreases |ops|
  {
    if ops == [] then []
    else (if MoveOn(s, ops[0], q) == Join then [s.current] else []) + Arrivals(Step(s, ops[0]), ops[1..], q)
  }

  function ServedNow(s: State, op: Op, q: Qid): seq<Tid> {
    match MoveOn(s, op, q)
    case Serve => Queue(s, q)[..if Queue(s, q) == [] then 0 else 1]
    case Clear => Queue(s, q)
    case _ => []
  }

  /** The tasks that were granted, handed the mutex, or notified, in order. */
  function Departures(s: State, ops: seq<Op>, q: Qid): seq<Tid>
    decreases |ops|
  {
    if ops == [] then []
    else ServedNow(s, ops[0], q) + Departures(Step(s, ops[0]), ops[1..], q)
  }

  /** No timer takes a task off q during the run. */
  predicate NoExpiry(s: State, ops: seq<Op>, q: Qid)
    decreases |ops|
  {
    ops == [] ||
    ((ops[0].OpTickle? ==> Expired(s, ops[0].gap, q) == []) && NoExpiry(Step(s, ops[0]), ops[1..], q))
  }

  lemma FifoStep(s: State, op: Op, q: Qid)
    requires Inv(s) && Enabled(s, op) && q in s.queues && q != Ready
    requires op.OpTickle? ==> Expired(s, op.gap, q) == []
    ensures q in Step(s, op).queues
    ensures s.queues[q] + (if MoveOn(s, op, q) == Join then [s.current] else [])
            == ServedNow(s, op, q) + Step(s, op).queues[q]
  {
    StepQueue(s, op, q);
    MovedIsFifo(s, op, q);
    hide *;
  }

  lemma MovedIsFifo(s: State, op: Op, q: Qid)
    requires q in s.queues && (op.OpTickle? ==> Expired(s, op.gap, q) == [])
    ensures s.queues[q] + (if MoveOn(s, op, q) == Join then [s.current] else [])
            == ServedNow(s, op, q) + Moved(s, MoveOn(s, op, q), q)
  {
    hide Blocks;
    assert MoveOn(s, op, q).Expire? ==> op.OpTickle? && op.gap == MoveOn(s, op, q).gap;
    match MoveOn(s, op, q)
    case Serve =>
      if Queue(s, q) != [] { assert s.queues[q] == s.queues[q][..1] + s.queues[q][1..]; }
    case _ =>
  }

  /** First come, first served: arrivals after those already waiting are departures before those left. */
  lemma {:induction false} Fifo(s: State, ops: seq<Op>, q: Qid)
    requires Inv(s) && EnabledRun(s, ops) && q in s.queues && q != Ready && NoExpiry(s, ops, q)
    ensures q in Run(s, ops).queues
    ensures s.queues[q] + Arrivals(s, ops, q) == Departures(s, ops, q) + Run(s, ops).queues[q]
    decreases |ops|
  {
    if ops != [] {
      FifoStep(s, ops[0], q);
      StepInv(s, ops[0]);
      var r := Step(s, ops[0]);
      hide Inv, Step, Enabled, MoveOn, ServedNow;
      Fifo(r, ops[1..], q);
      Compose(s.queues[q], if MoveOn(s, ops[0], q) == Join then [s.current] else [], Arrivals(r, ops[1..], q),
              ServedNow(s, ops[0], q), r.queues[q], Departures(r, ops[1..], q), Run(r, ops[1..]).queues[q]);
    }
  }

  /** A mutex queue never loses a waiter to a timer. */
  lemma {:induction false} MutexNeverExpires(s: State, gap: int, m: nat)
    requires Inv(s)
    ensures Expired(s, gap, MutexQ(m)) == []
    decreases |s.wadog|
  {
    if s.wadog != [] && s.wadog[0].delta <= gap {
      var t := s.wadog[0].task;
      assert Has(s.wadog, t) && Agree(s.tasks[t]);
      FireInv(s);
      hide Inv, Fire;
      MutexNeverExpires(Fire(s), gap, m);
    }
  }

  lemma {:induction false} MutexNoExpiry(s: State, ops: seq<Op>, m: nat)
    requires Inv(s) && EnabledRun(s, ops)
    ensures NoExpiry(s, ops, MutexQ(m))
    decreases |ops|
  {
    if ops != [] {
      if ops[0].OpTickle? { MutexNeverExpires(s, ops[0].gap, m); }
      StepInv(s, ops[0]);
      hide Inv, Step, Enabled, Expired;
      MutexNoExpiry(Step(s, ops[0]), ops[1..], m);
    }
  }

  /** Mutex hand-offs follow arrival order in every run. */
  lemma MutexFifo(s: State, ops: seq<Op>, m: nat)
    requires Inv(s) && EnabledRun(s, ops) && m in s.mutexes
    ensures MutexQ(m) in s.queues && MutexQ(m) in Run(s, ops).queues
    ensures s.queues[MutexQ(m)] + Arrivals(s, ops, MutexQ(m))
            == Departures(s, ops, MutexQ(m)) + Run(s, ops).queues[MutexQ(m)]
  {
    MutexNoExpiry(s, ops, m);
    Fifo(s, ops, MutexQ(m));
  }

  // ----- the semaphore's books -----------------------------------------------------------

  function Posts(op: Op, x: nat): nat {
    if op == OpSemPost(x) then 1 else 0
  }

  /** Waits that succeed at once, and posts that release a waiter. */
  function Grants(s: State, op: Op, x: nat): nat {
    match op
    case OpSemWait(y) => if y == x && CountOf(s, x) > 0 then 1 else 0
    case OpSemTimedWait(y, _) => if y == x && CountOf(s, x) > 0 then 1 else 0
    case OpSemPost(y) => if y == x && Queue(s, SemQ(x)) != [] then 1 else 0
    case _ => 0
  }

  function Timeouts(s: State, op: Op, x: nat): nat {
    if op.OpTickle? then |Expired(s, op.gap, SemQ(x))| else 0
  }

  datatype Books = Books(posts: nat, grants: nat, timeouts: nat)

  function BooksOf(s: State, ops: seq<Op>, x: nat): Books
    decreases |ops|
  {
    if ops == [] then Books(0, 0, 0)
    else
      var b := BooksOf(Step(s, ops[0]), ops[1..], x);
      Books(Posts(ops[0], x) + b.posts, Grants(s, ops[0], x) + b.grants, Timeouts(s, ops[0], x) + b.timeouts)
  }

  /** Every wait but a failed poll takes one from the count; every post adds one. */
  function CountDelta(s: State, op: Op, x: nat): int {
    match op
    case OpSemWait(y) => if y == x then -1 else 0
    case OpSemTimedWait(y, timeout) => if y == x && (CountOf(s, x) > 0 || timeout != 0) then -1 else 0
    case OpSemPost(y) => if y == x then 1 else 0
    case _ => 0
  }

  lemma CountStep(s: State, op: Op, x: nat)
    requires Enabled(s, op) && x in s.sems
    ensures x in Step(s, op).sems && Step(s, op).sems[x] == s.sems[x] + CountDelta(s, op, x)
  {
    if Blocks(s, op) {
      BlockingIsPark(s, op);
      hide Step, ParkTcb, Without, Before, Inserted;
    } else {
      match op
      case OpCondBroadcast(c) => SignalsKeep(s, c, |Queue(s, CondQ(c))|);
      case OpTickle(gap) => TickleKeeps(s, gap);
      case _ => hide Without, Before, Park;
    }
  }

  lemma {:induction false} TickleShrinks(s: State, gap: int, q: Qid)
    requires Inv(s) && q in s.queues && q != Ready
    ensures q in Tickle(s, gap).queues
    ensures |Tickle(s, gap).queues[q]| == |s.queues[q]| - |Expired(s, gap, q)|
    decreases |s.wadog|
  {
    hide Core;
    if s.wadog != [] && s.wadog[0].delta <= gap {
      FireShrinks(s, q);
      hide Fire;
      TickleShrinks(Fire(s), gap, q);
    }
  }

  lemma FireShrinks(s: State, q: Qid)
    requires Inv(s) && s.wadog != [] && q in s.queues && q != Ready
    ensures Inv(Fire(s)) && q in Fire(s).queues
    ensures |Fire(s).queues[q]| == |s.queues[q]| - if Task(s, s.wadog[0].task).place == On(q) then 1 else 0
  {
    FireQueue(s, q);
    var t := s.wadog[0].task;
    assert Has(s.wadog, t);
    WithoutFacts(s.queues[q], t);
  }

  function LengthDelta(s: State, op: Op, x: nat): int {
    match MoveOn(s, op, SemQ(x))
    case Join => 1
    case Serve => -1
    case Expire(gap) => -|Expired(s, gap, SemQ(x))|
    case _ => 0
  }

  lemma QueueLength(s: State, op: Op, x: nat)
    requires Inv(s) && Enabled(s, op) && x in s.sems
    ensures SemQ(x) in s.queues && SemQ(x) in Step(s, op).queues
    ensures |Step(s, op).queues[SemQ(x)]| == |s.queues[SemQ(x)]| + LengthDelta(s, op, x)
  {
    StepQueue(s, op, SemQ(x));
    match op
    case OpTickle(gap) => TickleShrinks(s, gap, SemQ(x));
    case _ =>
  }

  lemma DeltasBalance(s: State, op: Op, x: nat)
    requires x in s.sems
    ensures CountDelta(s, op, x) + LengthDelta(s, op, x) == Posts(op, x) - Grants(s, op, x) - Timeouts(s, op, x)
    ensures Grants(s, op, x) > Posts(op, x) ==> s.sems[x] + CountDelta(s, op, x) >= 0
  {
    hide Expired;
  }

  /** Conservation, one call: tokens in the count, waiters and time-outs balance posts and grants. */
  lemma BooksStep(s: State, op: Op, x: nat)
    requires Inv(s) && Enabled(s, op) && x in s.sems
    ensures x in Step(s, op).sems && SemQ(x) in s.queues && SemQ(x) in Step(s, op).queues
    ensures Step(s, op).sems[x] + |Step(s, op).queues[SemQ(x)]| ==
            s.sems[x] + |s.queues[SemQ(x)]| + Posts(op, x) - Grants(s, op, x) - Timeouts(s, op, x)
    ensures Grants(s, op, x) > Posts(op, x) ==> Step(s, op).sems[x] >= 0
  {
    CountStep(s, op, x);
    QueueLength(s, op, x);
    DeltasBalance(s, op, x);
    hide Inv, Enabled, Step, Expired, CountDelta, LengthDelta, Posts, Grants, Timeouts;
  }

  /** The books over a whole run; a grant never spends a token that was not posted. */
  lemma {:induction false} BooksBalance(s: State, ops: seq<Op>, x: nat)
    requires Inv(s) && EnabledRun(s, ops) && x in s.sems
    ensures var r := Run(s, ops);
            var b := BooksOf(s, ops, x);
      && x in r.sems && SemQ(x) in s.queues && SemQ(x) in r.queues
      && r.sems[x] + |r.queues[SemQ(x)]| == s.sems[x] + |s.queues[SemQ(x)]| + b.posts - b.grants - b.timeouts
    decreases |ops|
  {
    if ops == [] {
      assert SemQ(x) in s.queues;
    } else {
      BooksStep(s, ops[0], x);
      StepInv(s, ops[0]);
      hide Inv, Step, Enabled, Posts, Grants, Timeouts;
      BooksBalance(Step(s, ops[0]), ops[1..], x);
    }
  }

  lemma {:induction false} GrantsCovered(s: State, ops: seq<Op>, x: nat, credit: int)
    requires Inv(s) && EnabledRun(s, ops) && x in s.sems && SemQ(x) in s.queues
    requires 0 <= credit && s.sems[x] + |s.queues[SemQ(x)]| <= credit
    ensures BooksOf(s, ops, x).grants <= credit + BooksOf(s, ops, x).posts
    decreases |ops|
  {
    if ops != [] {
      BooksStep(s, ops[0], x);
      StepInv(s, ops[0]);
      var r := Step(s, ops[0]);
      hide Inv, Step, Enabled, Posts, Grants, Timeouts;
      GrantsCovered(r, ops[1..], x, credit + Posts(ops[0], x) - Grants(s, ops[0], x));
    }
  }

  /**
    Semaphore accounting for every run of a freshly initialised semaphore:
    count = initial + posts - grants - waiters - timeouts, grants never exceed what was
    supplied, and while someone waits at most one token per time-out is withheld.
   */
  lemma SemAccounting(s: State, ops: seq<Op>, x: nat)
    requires Inv(s) && EnabledRun(s, ops) && x in s.sems && Queue(s, SemQ(x)) == [] && s.sems[x] >= 0
    ensures var r := Run(s, ops);
            var b := BooksOf(s, ops, x);
            var waiters := |Queue(r, SemQ(x))|;
      && CountOf(r, x) == s.sems[x] + b.posts - b.grants - waiters - b.timeouts
      && b.grants <= s.sems[x] + b.posts
      && (waiters > 0 ==> s.sems[x] + b.posts - b.grants <= b.timeouts)
      && (b.timeouts == 0 && CountOf(r, x) < 0 ==> waiters == -CountOf(r, x))
      && (b.timeouts == 0 && CountOf(r, x) >= 0 ==> waiters == 0)
  {
    BooksBalance(s, ops, x);
    assert SemQ(x) in s.queues;
    GrantsCovered(s, ops, x, s.sems[x]);
    RunInv(s, ops);
    WaitersOwed(Run(s, ops), x);
    hide Inv, Run, BooksOf;
  }

  /** The same from before the semaphore was initialised, with the value asked for. */
  lemma BooksFromInit(s: State, x: nat, value: int, ops: seq<Op>)
    requires Inv(s) && Enabled(s, OpSemInit(x, value)) && value >= 0
    requires EnabledRun(Step(s, OpSemInit(x, value)), ops)
    ensures var r := Run(Step(s, OpSemInit(x, value)), ops);
            var b := BooksOf(Step(s, OpSemInit(x, value)), ops, x);
      && CountOf(r, x) == value + b.posts - b.grants - |Queue(r, SemQ(x))| - b.timeouts
      && b.grants <= value + b.posts
  {
    InitExactly(s, OpSemInit(x, value));
    StepInv(s, OpSemInit(x, value));
    var i := Step(s, OpSemInit(x, value));
    assert x in i.sems && i.sems[x] == value && Queue(i, SemQ(x)) == [];
    hide Inv, Step, Run, EnabledRun, BooksOf;
    SemAccounting(i, ops, x);
  }

  /**
    A timed-out wait keeps the token it took off the count, so each time-out swallows a later
    post: with nobody waiting, a wait returns at once iff the tokens left outnumber the time-outs.
   */
  lemma TimeoutSwallowsAPost(s: State, ops: seq<Op>, x: nat)
    requires Inv(s) && EnabledRun(s, ops) && x in s.sems && Queue(s, SemQ(x)) == [] && s.sems[x] >= 0
    requires Queue(Run(s, ops), SemQ(x)) == []
    ensures var b := BooksOf(s, ops, x);
      Blocks(Run(s, ops), OpSemWait(x)) <==> s.sems[x] + b.posts - b.grants <= b.timeouts
  {
    hide *;
    SemAccounting(s, ops, x);
    SemWaitBlocksIff(Run(s, ops), x);
  }

  lemma SemWaitBlocksIff(s: State, x: nat)
    ensures Blocks(s, OpSemWait(x)) <==> CountOf(s, x) <= 0
  {
  }

  // A run in which that happens: the wait times out, the post comes, the next wait blocks.

  function Idle(): Tcb { BLANK.(place := On(Ready)) }

  function Waiting(): Tcb {
    BLANK.(flags := READY.(sem := true, timeout := true), place := On(SemQ(0)), waitObj := On(SemQ(0)))
  }

  function GaveUp(): Tcb { BLANK.(place := On(Ready), waitObj := On(SemQ(0))) }

  function SwallowingRun(): seq<Op> {
    [OpSemInit(0, 0), OpCreate(1, BLANK), OpSchedYield, OpSemTimedWait(0, 5), OpTickle(5), OpSemPost(0), OpSchedYield]
  }

  /** The states it goes through. */
  function Stage(n: nat): State
    requires n <= 7
  {
    match n
    case 0 => State(0, 0, map[0 := Idle()], map[Ready := [0]], [], map[], map[], 1)
    case 1 => State(0, 0, map[0 := Idle()], map[Ready := [0], SemQ(0) := []], [], map[], map[0 := 0], 1)
    case 2 => State(0, 0, map[0 := Idle(), 1 := Idle()], map[Ready := [1, 0], SemQ(0) := []], [], map[], map[0 := 0], 2)
    case 3 => State(0, 1, map[0 := Idle(), 1 := Idle()], map[Ready := [1, 0], SemQ(0) := []], [], map[], map[0 := 0], 2)
    case 4 => State(0, 0, map[0 := Idle(), 1 := Waiting()], map[Ready := [0], SemQ(0) := [1]], [Entry(1, 5)], map[], map[0 := -1], 2)
    case 5 => State(0, 0, map[0 := Idle(), 1 := GaveUp()], map[Ready := [1, 0], SemQ(0) := []], [], map[], map[0 := -1], 2)
    case 6 => State(0, 0, map[0 := Idle(), 1 := GaveUp()], map[Ready := [1, 0], SemQ(0) := []], [], map[], map[0 := 0], 2)
    case _ => State(0, 1, map[0 := Idle(), 1 := GaveUp()], map[Ready := [1, 0], SemQ(0) := []], [], map[], map[0 := 0], 2)
  }

  lemma Stage0()
    ensures Enabled(Stage(0), OpSemInit(0, 0)) && Step(Stage(0), OpSemInit(0, 0)) == Stage(1)
  {
    var r := Step(Stage(0), OpSemInit(0, 0));
    assert r.tasks == Stage(1).tasks && r.queues == Stage(1).queues && r.sems == Stage(1).sems;
  }

  lemma Stage1()
    ensures Enabled(Stage(1), OpCreate(1, BLANK)) && Step(Stage(1), OpCreate(1, BLANK)) == Stage(2)
  {
    assert Before([0], 0, 1) == [1, 0];
    var r := Step(Stage(1), OpCreate(1, BLANK));
    assert r.tasks == Stage(2).tasks && r.queues == Stage(2).queues && r.sems == Stage(2).sems;
  }

  lemma Stage2()
    ensures Enabled(Stage(2), OpSchedYield) && Step(Stage(2), OpSchedYield) == Stage(3)
  {
    assert Without([1, 0], 0) == [1] + Without([0], 0);
    assert [1] + [0] == [1, 0] && [1, 0][1..] == [0];
    assert Before([0], 0, 1) == [1, 0];
    var r := Step(Stage(2), OpSchedYield);
    assert r.tasks == Stage(3).tasks && r.queues == Stage(3).queues && r.sems == Stage(3).sems;
  }

  lemma Stage3()
    ensures Enabled(Stage(3), OpSemTimedWait(0, 5)) && Step(Stage(3), OpSemTimedWait(0, 5)) == Stage(4)
  {
    assert Without([1, 0], 1) == [0];
    assert Inserted([], 1, 5) == [Entry(1, 5)];
    var e: seq<Tid> := [];
    assert e + [1] == [1] && [0][1..] == e && e + [0] == [0];
    var r := Step(Stage(3), OpSemTimedWait(0, 5));
    hide Without, Inserted, Before;
    assert r.tasks == Stage(4).tasks && r.queues == Stage(4).queues && r.sems == Stage(4).sems;
  }

  lemma Stage4()
    ensures Enabled(Stage(4), OpTickle(5)) && Step(Stage(4), OpTickle(5)) == Stage(5)
  {
    assert Without([1], 1) == [] && Before([0], 0, 1) == [1, 0];
    assert [Entry(1, 5)][1..] == [];
    assert Tickle(Fire(Stage(4)), 5) == Fire(Stage(4));
    var r := Step(Stage(4), OpTickle(5));
    assert r.tasks == Stage(5).tasks && r.queues == Stage(5).queues && r.sems == Stage(5).sems;
  }

  lemma Stage5()
    ensures Enabled(Stage(5), OpSemPost(0)) && Step(Stage(5), OpSemPost(0)) == Stage(6)
  {
    var r := Step(Stage(5), OpSemPost(0));
    assert r.tasks == Stage(6).tasks && r.queues == Stage(6).queues && r.sems == Stage(6).sems;
  }

  lemma Stage6()
    ensures Enabled(Stage(6), OpSchedYield) && Step(Stage(6), OpSchedYield) == Stage(7)
  {
    assert Without([1, 0], 0) == [1] + Without([0], 0);
    assert [1] + [0] == [1, 0] && [1, 0][1..] == [0];
    assert Before([0], 0, 1) == [1, 0];
    var r := Step(Stage(6), OpSchedYield);
    assert r.tasks == Stage(7).tasks && r.queues == Stage(7).queues && r.sems == Stage(7).sems;
  }

  lemma StageStep(n: nat)
    requires n < 7
    ensures Enabled(Stage(n), SwallowingRun()[n]) && Step(Stage(n), SwallowingRun()[n]) == Stage(n + 1)
  {
    hide Stage, Step, Enabled;
    match n {
      case 0 => Stage0();
      case 1 => Stage1();
      case 2 => Stage2();
      case 3 => Stage3();
      case 4 => Stage4();
      case 5 => Stage5();
      case _ => Stage6();
    }
  }

  lemma {:induction false} StageRuns(n: nat)
    requires n <= 7
    ensures EnabledRun(Stage(n), SwallowingRun()[n..]) && Run(Stage(n), SwallowingRun()[n..]) == Stage(7)
    decreases 7 - n
  {
    hide Stage, Step, Enabled;
    if n < 7 {
      StageStep(n);
      StageRuns(n + 1);
      assert SwallowingRun()[n..][1..] == SwallowingRun()[n + 1..];
    }
  }

  /** What each call of that run posts, grants and times out. */
  lemma StageBooked(n: nat)
    requires 1 <= n < 7
    ensures Posts(SwallowingRun()[n], 0) == if n == 5 then 1 else 0
    ensures Grants(Stage(n), SwallowingRun()[n], 0) == 0
    ensures Timeouts(Stage(n), SwallowingRun()[n], 0) == if n == 4 then 1 else 0
  {
    if n == 4 {
      Stage4();
      var f := Fire(Stage(4));
      assert f.wadog == [] && Expired(f, 5, SemQ(0)) == [];
      assert Expired(Stage(4), 5, SemQ(0)) == [1] + Expired(f, 5, SemQ(0));
    }
  }

  lemma {:induction false} StageBooks(n: nat)
    requires 1 <= n <= 7
    ensures BooksOf(Stage(n), SwallowingRun()[n..], 0) == Books(if n <= 5 then 1 else 0, 0, if n <= 4 then 1 else 0)
    decreases 7 - n
  {
    hide Stage, Step, Posts, Grants, Timeouts;
    if n < 7 {
      StageStep(n);
      StageBooked(n);
      StageBooks(n + 1);
      assert SwallowingRun()[n..][1..] == SwallowingRun()[n + 1..];
    }
  }

  lemma StageEnds()
    ensures Stage(0) == Boot(0, BLANK) && Stage(7).current == 1
    ensures Queue(Stage(7), SemQ(0)) == [] && Blocks(Stage(7), OpSemWait(0))
  {
  }

  /**
    One post, no grant, one time-out, nobody waiting: and still the next wait blocks. The books are
    those since the semaphore was initialised, by the first call of the run.
   */
  lemma PostSwallowed()
    ensures var ops := SwallowingRun();
            var r := Run(Boot(0, BLANK), ops);
      && EnabledRun(Boot(0, BLANK), ops)
      && BooksOf(Step(Boot(0, BLANK), ops[0]), ops[1..], 0) == Books(1, 0, 1)
      && Queue(r, SemQ(0)) == [] && r.current == 1 && Blocks(r, OpSemWait(0))
  {
    StageRuns(0);
    StageEnds();
    StageStep(0);
    StageBooks(1);
    hide *;
    assert SwallowingRun()[0..] == SwallowingRun();
  }

  lemma WaitersOwed(s: State, x: nat)
    requires Inv(s) && x in s.sems
    ensures SemQ(x) in s.queues && (s.queues[SemQ(x)] != [] ==> s.sems[x] + |s.queues[SemQ(x)]| <= 0)
  {
  }


  // ----- mutex ownership ------------------------------------------------------------------

  /** The mutex after a call; only its holder, or a locker of a free mutex, changes it. */
  function MutexAfter(s: State, op: Op, m: nat): Mutex {
    var mx := MutexOf(s, m);
    var q := Queue(s, MutexQ(m));
    match op
    case OpMutexLock(k) =>
      if k != m || Blocks(s, op) then mx
      else if mx.holder == None then Mutex(Some(s.current), 1) else mx.(reentries := mx.reentries + 1)
    case OpMutexUnlock(k) =>
      if k != m || mx.holder != Some(s.current) then mx
      else if mx.reentries > 1 then mx.(reentries := mx.reentries - 1)
      else if q == [] then Mutex(None, 0) else Mutex(Some(q[0]), 1)
    case _ => mx
  }

  lemma MutexStep(s: State, op: Op, m: nat)
    requires Enabled(s, op) && m in s.mutexes
    ensures m in Step(s, op).mutexes && Step(s, op).mutexes[m] == MutexAfter(s, op, m)
  {
    if Blocks(s, op) {
      BlockingIsPark(s, op);
      hide Step, ParkTcb, Without, Before, Inserted;
    } else {
      match op
      case OpCondBroadcast(c) => SignalsKeep(s, c, |Queue(s, CondQ(c))|);
      case OpTickle(gap) => TickleKeeps(s, gap);
      case _ => hide Without, Before, Park;
    }
  }

  /** Lock calls of t that went through, less its unlock calls that did. */
  function LockBalance(s: State, op: Op, m: nat, t: Tid): int {
    var mx := MutexOf(s, m);
    var q := Queue(s, MutexQ(m));
    match op
    case OpMutexLock(k) => if k == m && t == s.current && !Blocks(s, op) then 1 else 0
    case OpMutexUnlock(k) =>
      if k != m || mx.holder != Some(s.current) then 0
      else (if t == s.current then -1 else 0) + (if mx.reentries == 1 && q != [] && t == q[0] then 1 else 0)
    case _ => 0
  }

  function RunBalance(s: State, ops: seq<Op>, m: nat, t: Tid): int
    decreases |ops|
  {
    if ops == [] then 0 else LockBalance(s, ops[0], m, t) + RunBalance(Step(s, ops[0]), ops[1..], m, t)
  }

  function Held(s: State, m: nat, t: Tid): nat {
    if MutexOf(s, m).holder == Some(t) then MutexOf(s, m).reentries else 0
  }

  lemma HeldStep(s: State, op: Op, m: nat, t: Tid)
    requires Inv(s) && Enabled(s, op) && m in s.mutexes
    ensures m in Step(s, op).mutexes
    ensures Held(Step(s, op), m, t) == Held(s, m, t) + LockBalance(s, op, m, t)
  {
    MutexStep(s, op, m);
    assert MutexQ(m) in s.queues;
    hide Step;
  }

  /** `reentries` is exactly the holder's locks minus unlocks, and everyone else's balance is zero. */
  lemma {:induction false} HeldIsBalance(s: State, ops: seq<Op>, m: nat, t: Tid)
    requires Inv(s) && EnabledRun(s, ops) && m in s.mutexes
    ensures Held(Run(s, ops), m, t) == Held(s, m, t) + RunBalance(s, ops, m, t)
    decreases |ops|
  {
    if ops != [] {
      HeldStep(s, ops[0], m, t);
      StepInv(s, ops[0]);
      hide Inv, Step, Enabled, LockBalance, Held;
      HeldIsBalance(Step(s, ops[0]), ops[1..], m, t);
    }
  }

  /** The same from before the mutex was initialised: it starts free. */
  lemma BalanceFromInit(s: State, m: nat, ops: seq<Op>, t: Tid)
    requires Inv(s) && Enabled(s, OpMutexInit(m)) && EnabledRun(Step(s, OpMutexInit(m)), ops)
    ensures Held(Run(Step(s, OpMutexInit(m)), ops), m, t) == RunBalance(Step(s, OpMutexInit(m)), ops, m, t)
    ensures MutexOf(Step(s, OpMutexInit(m)), m).holder == None
  {
    InitExactly(s, OpMutexInit(m));
    StepInv(s, OpMutexInit(m));
    var i := Step(s, OpMutexInit(m));
    assert m in i.mutexes && i.mutexes[m] == Mutex(None, 0) && Held(i, m, t) == 0;
    hide Inv, Step, Run, EnabledRun, RunBalance, Held;
    HeldIsBalance(i, ops, m, t);
  }

  /** Mutual exclusion over runs: two tasks never both have more locks than unlocks. */
  lemma MutualExclusion(s: State, ops: seq<Op>, m: nat, t: Tid, u: Tid)
    requires Inv(s) && EnabledRun(s, ops) && m in s.mutexes && s.mutexes[m].holder == None && t != u
    ensures RunBalance(s, ops, m, t) >= 0
    ensures !(RunBalance(s, ops, m, t) > 0 && RunBalance(s, ops, m, u) > 0)
  {
    HeldIsBalance(s, ops, m, t);
    HeldIsBalance(s, ops, m, u);
  }

  /** A task leaves a mutex queue only as the new holder, with one entry. */
  lemma LeavesQueueAsHolder(s: State, op: Op, m: nat, t: Tid)
    requires Inv(s) && Enabled(s, op) && m in s.mutexes && t in Queue(s, MutexQ(m))
    requires t !in Queue(Step(s, op), MutexQ(m))
    ensures op == OpMutexUnlock(m) && MutexOf(Step(s, op), m) == Mutex(Some(t), 1)
  {
    StepQueue(s, op, MutexQ(m));
    MutexStep(s, op, m);
    if op.OpTickle? { MutexNeverExpires(s, op.gap, m); }
    var q := s.queues[MutexQ(m)];
    hide Inv, Step, Expired;
    if q != [] && op == OpMutexUnlock(m) { assert q == [q[0]] + q[1..]; }
  }

  /** ... and it still is when its lock call returns, however long that takes. */
  lemma {:induction false} HolderKeptUntilRun(s: State, ops: seq<Op>, m: nat, t: Tid)
    requires Inv(s) && EnabledRun(s, ops) && m in s.mutexes && NeverRuns(s, ops, t)
    requires s.mutexes[m] == Mutex(Some(t), 1)
    ensures MutexOf(Run(s, ops), m) == Mutex(Some(t), 1)
    decreases |ops|
  {
    if ops != [] {
      MutexStep(s, ops[0], m);
      StepInv(s, ops[0]);
      hide Inv, Step, Enabled;
      HolderKeptUntilRun(Step(s, ops[0]), ops[1..], m, t);
    }
  }

  lemma {:induction false} QueuedReturnsAsHolder(s: State, ops: seq<Op>, m: nat, t: Tid)
    requires Inv(s) && EnabledRun(s, ops) && m in s.mutexes && t in Queue(s, MutexQ(m))
    requires NeverRuns(s, ops, t) && Run(s, ops).current == t
    ensures MutexOf(Run(s, ops), m) == Mutex(Some(t), 1)
    decreases |ops|
  {
    RunningIsReady(s);
    QueuedAt(s, MutexQ(m), t);
    if ops != [] {
      var r := Step(s, ops[0]);
      MutexStep(s, ops[0], m);
      StepInv(s, ops[0]);
      if t !in Queue(r, MutexQ(m)) { LeavesQueueAsHolder(s, ops[0], m, t); }
      hide Inv, Step, Enabled;
      if t in Queue(r, MutexQ(m)) { QueuedReturnsAsHolder(r, ops[1..], m, t); } else { HolderKeptUntilRun(r, ops[1..], m, t); }
    }
  }

  lemma LockCallParks(s: State, m: nat)
    requires Inv(s) && Enabled(s, OpMutexLock(m)) && Blocks(s, OpMutexLock(m))
    ensures m in Step(s, OpMutexLock(m)).mutexes && s.current in Queue(Step(s, OpMutexLock(m)), MutexQ(m))
  {
    assert MutexQ(m) in s.queues;
    MutexStep(s, OpMutexLock(m), m);
    StepQueue(s, OpMutexLock(m), MutexQ(m));
    hide Inv, Step;
  }

  /** A lock call that blocks, from the call to its return: the caller then holds the mutex, once. */
  lemma LockCallReturns(s: State, m: nat, ops: seq<Op>)
    requires Inv(s) && Enabled(s, OpMutexLock(m)) && Blocks(s, OpMutexLock(m))
    requires var r := Step(s, OpMutexLock(m));
      EnabledRun(r, ops) && NeverRuns(r, ops, s.current) && Run(r, ops).current == s.current
    ensures MutexOf(Run(Step(s, OpMutexLock(m)), ops), m) == Mutex(Some(s.current), 1)
  {
    LockCallParks(s, m);
    StepInv(s, OpMutexLock(m));
    hide Inv, Step, Enabled, Blocks, Run, EnabledRun, NeverRuns;
    QueuedReturnsAsHolder(Step(s, OpMutexLock(m)), ops, m, s.current);
  }

  // ----- events -------------------------------------------------------------------------------

  /** Whoever waits for events has not got them yet: no wake-up is ever missed. */
  lemma NoMissedEvent(main: Tid, stale: Tcb, ops: seq<Op>, t: Tid)
    requires EnabledRun(Boot(main, stale), ops)
    requires t in Run(Boot(main, stale), ops).tasks && Run(Boot(main, stale), ops).tasks[t].flags.event
    ensures var k := Run(Boot(main, stale), ops).tasks[t];
      && k.seized == {}
      && if k.any then k.pending !! k.wanted else k.wanted == {} || exists b :: b in k.wanted && b !in k.pending
  {
    BootInv(main, stale);
    RunInv(Boot(main, stale), ops);
    hide Run, EnabledRun, Boot, Core;
    var k := Run(Boot(main, stale), ops).tasks[t];
    AgreeAt(Run(Boot(main, stale), ops), t);
    SatisfiedInSets(k.pending, k.wanted, k.any);
    hide Satisfied;
  }

  function BitPosts(op: Op, t: Tid, b: nat): nat {
    if op.OpEventPost? && op.t == t && b in op.events then 1 else 0
  }

  /** Is bit b handed to task t by this call, as an immediate or as a delivered wait result? */
  function BitTakes(s: State, op: Op, t: Tid, b: nat): nat {
    match op
    case OpEventWait(ev, any, _) =>
      var p := Task(s, t).pending;
      if t == s.current && p * ev != {} && (any || ev <= p) && b in p && b in ev then 1 else 0
    case OpEventPost(u, ev) =>
      var k := Task(s, t);
      var p := k.pending + ev;
      if u == t && k.flags.event && p * k.wanted != {} && (k.any || k.wanted <= p) && b in p && b in k.wanted
      then 1 else 0
    case _ => 0
  }

  function Pending(s: State, t: Tid, b: nat): nat {
    if b in Task(s, t).pending then 1 else 0
  }

  /** The mailbox of t after a call, bit by bit. */
  lemma BitAccount(s: State, op: Op, t: Tid, b: nat)
    requires t in s.tasks
    ensures var now := if b in TcbAfter(s, op, t).pending then 1 else 0;
      && BitTakes(s, op, t, b) + now <= BitPosts(op, t, b) + Pending(s, t, b)
      && (BitTakes(s, op, t, b) == 0 ==> now >= Pending(s, t, b))
      && (BitTakes(s, op, t, b) == 0 && BitPosts(op, t, b) == 1 ==> now == 1)
  {
    if op.OpEventWait? || op.OpEventPost? { hide Readied; } else { MailboxKept(s, op, t); hide TcbAfter; }
  }

  lemma MailboxKept(s: State, op: Op, t: Tid)
    requires t in s.tasks && !op.OpEventWait? && !op.OpEventPost?
    ensures TcbAfter(s, op, t).pending == s.tasks[t].pending
  {
    hide Readied, Blocks;
  }

  /** A bit leaves the mailbox exactly when a wait takes it. */
  lemma EventStep(s: State, op: Op, t: Tid, b: nat)
    requires Inv(s) && Enabled(s, op) && t in s.tasks && !(op == OpExit && t == s.current)
    ensures t in Step(s, op).tasks
    ensures BitTakes(s, op, t, b) + Pending(Step(s, op), t, b) <= BitPosts(op, t, b) + Pending(s, t, b)
    ensures BitTakes(s, op, t, b) == 0 ==> Pending(Step(s, op), t, b) >= Pending(s, t, b)
    ensures BitTakes(s, op, t, b) == 0 && BitPosts(op, t, b) == 1 ==> Pending(Step(s, op), t, b) == 1
  {
    StepTcb(s, op, t);
    BitAccount(s, op, t, b);
    hide Inv, Enabled, Step, TcbAfter, BitTakes, BitPosts;
  }

  predicate Lives(s: State, ops: seq<Op>, t: Tid)
    decreases |ops|
  {
    ops == [] || (!(ops[0] == OpExit && t == s.current) && Lives(Step(s, ops[0]), ops[1..], t))
  }

  function Takes(s: State, ops: seq<Op>, t: Tid, b: nat): nat
    decreases |ops|
  {
    if ops == [] then 0 else BitTakes(s, ops[0], t, b) + Takes(Step(s, ops[0]), ops[1..], t, b)
  }

  function PostsOf(ops: seq<Op>, t: Tid, b: nat): nat {
    if ops == [] then 0 else BitPosts(ops[0], t, b) + PostsOf(ops[1..], t, b)
  }

  /** No event is invented or lost: what waits took, plus what is pending, was posted; and an
      untaken posted bit is still pending. */
  lemma {:induction false} EventConservation(s: State, ops: seq<Op>, t: Tid, b: nat)
    requires Inv(s) && EnabledRun(s, ops) && t in s.tasks && Lives(s, ops, t)
    ensures Takes(s, ops, t, b) + Pending(Run(s, ops), t, b) <= PostsOf(ops, t, b) + Pending(s, t, b)
    ensures Takes(s, ops, t, b) == 0 && PostsOf(ops, t, b) + Pending(s, t, b) > 0 ==> Pending(Run(s, ops), t, b) == 1
    decreases |ops|
  {
    if ops != [] {
      EventStep(s, ops[0], t, b);
      StepInv(s, ops[0]);
      hide Inv, Step, Enabled, BitTakes, BitPosts, Pending;
      PendingBound(s, t, b);
      PendingBound(Step(s, ops[0]), t, b);
      EventConservation(Step(s, ops[0]), ops[1..], t, b);
    }
  }

  lemma PendingBound(s: State, t: Tid, b: nat)
    ensures Pending(s, t, b) <= 1
  {
  }

  /** A wait that times out returns 0 and consumes nothing. */
  lemma TimedOutEventReturnsZero(s: State, gap: int, t: Tid)
    requires Inv(s) && t in s.tasks && s.tasks[t].flags.event && Has(Fired(s.wadog, gap), t)
    ensures var r := Tickle(s, gap);
      t in r.tasks && r.tasks[t].flags == READY && r.tasks[t].seized == {} && r.tasks[t].pending == s.tasks[t].pending
  {
    assert Agree(s.tasks[t]);
    TickleTcb(s, gap, t);
  }
}
