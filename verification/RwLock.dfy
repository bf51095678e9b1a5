/**
  The read-write lock as a monitor over the run-time system. Fibers pair their calls: only a
  holder unlocks, and it unlocks what it holds.
 */
module RwLock {
  import opened DeltaList
  import opened Scheduler
  import opened SchedulerInvariant
  import opened SchedulerEffects
  import opened CondClients
  import opened Kernel

  datatype Want = Nothing | ToRead | ToWrite

  /** `writer` and `readers` are the lock's fields; the holders are who the calls gave it to. */
  datatype Lock = Lock(
    rt: State, unlocked: nat, writer: bool, readers: int,
    want: map<Tid, Want>, readHolders: multiset<Tid>, writeHolders: multiset<Tid>)

  datatype Act = RdLock | RdUnlock | WrLock | WrUnlock | Other(op: Op)

  function Wants(l: Lock, t: Tid): Want {
    if t in l.want then l.want[t] else Nothing
  }

  function Asleep(l: Lock, w: Want): Lock {
    l.(rt := Step(l.rt, OpCondWait(l.unlocked)), want := l.want[l.rt.current := w])
  }

  /** One turn of rwlock_rdlock: wait while there is a writer, else become a reader. */
  function RdLockTurn(l: Lock): Lock {
    var c := l.rt.current;
    if l.writer then Asleep(l, ToRead)
    else l.(readers := l.readers + 1, readHolders := l.readHolders + multiset{c}, want := l.want[c := Nothing])
  }

  function WrLockTurn(l: Lock): Lock {
    var c := l.rt.current;
    if l.writer || l.readers != 0 then Asleep(l, ToWrite)
    else l.(writer := true, writeHolders := l.writeHolders + multiset{c}, want := l.want[c := Nothing])
  }

  function RdUnlockTurn(l: Lock): Lock {
    var n := l.readers - 1;
    l.(readers := n, readHolders := l.readHolders - multiset{l.rt.current},
       rt := if n == 0 then Step(l.rt, OpCondBroadcast(l.unlocked)) else l.rt)
  }

  function WrUnlockTurn(l: Lock): Lock {
    l.(writer := false, writeHolders := l.writeHolders - multiset{l.rt.current},
       rt := Step(l.rt, OpCondBroadcast(l.unlocked)))
  }

  predicate CanAct(l: Lock, a: Act) {
    var c := l.rt.current;
    match a
    case RdLock => Wants(l, c) != ToWrite && (l.writer ==> c != l.rt.main)
    case WrLock => Wants(l, c) != ToRead && (l.writer || l.readers != 0 ==> c != l.rt.main)
    case RdUnlock => Wants(l, c) == Nothing && c in l.readHolders
    case WrUnlock => Wants(l, c) == Nothing && c in l.writeHolders
    case Other(op) => Wants(l, c) == Nothing && Enabled(l.rt, op) && Spares(op, l.unlocked)
  }

  function Next(l: Lock, a: Act): Lock {
    match a
    case RdLock => RdLockTurn(l)
    case WrLock => WrLockTurn(l)
    case RdUnlock => RdUnlockTurn(l)
    case WrUnlock => WrUnlockTurn(l)
    case Other(op) => l.(rt := Step(l.rt, op))
  }

  // ----- invariant --------------------------------------------------------------------

  /** Only fibers inside the lock's code sleep on it; a sleeping reader faces a writer. */
  predicate SleeperOk(l: Lock, t: Tid) {
    OnCond(l.rt, l.unlocked, t) ==>
      Wants(l, t) != Nothing && (l.writer || (l.readers > 0 && Wants(l, t) == ToWrite))
  }

  ghost predicate Wired(l: Lock) {
    && Inv(l.rt) && CondQ(l.unlocked) in l.rt.queues && Untimed(l.rt, l.unlocked)
    && forall t :: SleeperOk(l, t)
  }

  ghost predicate Exclusive(l: Lock) {
    && l.readers == |l.readHolders|
    && |l.writeHolders| == (if l.writer then 1 else 0)
    && (l.writer ==> l.readers == 0)
  }

  ghost predicate LInv(l: Lock) { Wired(l) && Exclusive(l) }

  // ----- turns ----------------------------------------------------------------------------

  lemma AsleepWired(l: Lock, w: Want)
    requires Wired(l) && l.rt.current != l.rt.main && w != Nothing
    requires l.writer || (l.readers > 0 && w == ToWrite)
    ensures Wired(Asleep(l, w))
  {
    var r := Asleep(l, w);
    StepInv(l.rt, OpCondWait(l.unlocked));
    StepQueue(l.rt, OpCondWait(l.unlocked), CondQ(l.unlocked));
    hide Core, Step;
    forall t
      ensures SleeperOk(r, t)
      ensures OnCond(r.rt, l.unlocked, t) ==> !r.rt.tasks[t].flags.timeout
    {
      WaitEffect(l.rt, l.unlocked, t);
      assert SleeperOk(l, t);
    }
  }

  /** Taking the lock without sleeping: nobody was asleep, or nothing changes for the sleepers. */
  lemma TakenWired(l: Lock, r: Lock)
    requires Wired(l) && r.rt == l.rt && r.unlocked == l.unlocked
    requires r.want == l.want[l.rt.current := Nothing]
    requires (l.writer ==> r.writer) && (l.readers > 0 ==> r.readers > 0)
    ensures Wired(r)
  {
    RunningIsReady(l.rt);
    hide Core;
    forall t ensures SleeperOk(r, t) {
      assert SleeperOk(l, t);
    }
  }

  /** A broadcast leaves nobody asleep. */
  lemma BroadcastWired(l: Lock, r: Lock)
    requires Wired(l) && r.rt == Step(l.rt, OpCondBroadcast(l.unlocked)) && r.unlocked == l.unlocked
    ensures Wired(r)
  {
    StepInv(l.rt, OpCondBroadcast(l.unlocked));
    StepQueue(l.rt, OpCondBroadcast(l.unlocked), CondQ(l.unlocked));
    hide Core, Step;
    forall t ensures SleeperOk(r, t) && !OnCond(r.rt, l.unlocked, t) {
      BroadcastEffect(l.rt, l.unlocked, t);
    }
  }

  lemma OtherWired(l: Lock, op: Op)
    requires Wired(l) && Enabled(l.rt, op) && Spares(op, l.unlocked)
    ensures Wired(l.(rt := Step(l.rt, op)))
  {
    var r := l.(rt := Step(l.rt, op));
    StepInv(l.rt, op);
    SparedQueue(l.rt, op, l.unlocked);
    hide Core, Step;
    forall t ensures SleeperOk(r, t) {
      assert SleeperOk(l, t);
      if OnCond(r.rt, l.unlocked, t) { NobodyJoins(l.rt, op, l.unlocked, t); }
    }
  }

  lemma NextInv(l: Lock, a: Act)
    requires LInv(l) && CanAct(l, a)
    ensures LInv(Next(l, a))
  {
    hide Wired, Step;
    var r := Next(l, a);
    match a
    case RdLock => if l.writer { AsleepWired(l, ToRead); } else { TakenWired(l, r); }
    case WrLock => if l.writer || l.readers != 0 { AsleepWired(l, ToWrite); } else { TakenWired(l, r); }
    case RdUnlock => if l.readers == 1 { BroadcastWired(l, r); } else { StillRead(l, r); }
    case WrUnlock => BroadcastWired(l, r);
    case Other(op) => OtherWired(l, op);
  }

  lemma StillRead(l: Lock, r: Lock)
    requires Wired(l) && r.rt == l.rt && r.unlocked == l.unlocked && r.want == l.want
    requires r.writer == l.writer && (l.readers > 0 ==> r.readers > 0)
    ensures Wired(r)
  {
    hide Core;
    forall t ensures SleeperOk(r, t) { assert SleeperOk(l, t); }
  }

  // ----- every run --------------------------------------------------------------------------

  predicate CanRun(l: Lock, acts: seq<Act>)
    decreases |acts|
  {
    acts == [] || (CanAct(l, acts[0]) && CanRun(Next(l, acts[0]), acts[1..]))
  }

  function RunActs(l: Lock, acts: seq<Act>): Lock
    decreases |acts|
  {
    if acts == [] then l else RunActs(Next(l, acts[0]), acts[1..])
  }

  lemma {:induction false} RunActsInv(l: Lock, acts: seq<Act>)
    requires LInv(l) && CanRun(l, acts)
    ensures LInv(RunActs(l, acts))
    decreases |acts|
  {
    hide LInv, CanAct, Next;
    if acts != [] {
      NextInv(l, acts[0]);
      RunActsInv(Next(l, acts[0]), acts[1..]);
    }
  }

  /** rwlock_init on a running thread. */
  ghost predicate Fresh(l: Lock) {
    && Inv(l.rt) && CondQ(l.unlocked) in l.rt.queues && l.rt.queues[CondQ(l.unlocked)] == []
    && !l.writer && l.readers == 0 && l.want == map[] && l.readHolders == multiset{} && l.writeHolders == multiset{}
  }

  lemma FreshInv(l: Lock)
    requires Fresh(l)
    ensures LInv(l)
  {
    forall t ensures SleeperOk(l, t) { }
  }

  // ----- who holds the lock, counted from the calls of the run -------------------------------

  /** Read holds an act adds: a lock call that met no writer gives one, an unlock takes one. */
  function RdChange(l: Lock, a: Act): int {
    if a == RdLock && !l.writer then 1 else if a == RdUnlock then -1 else 0
  }

  function WrChange(l: Lock, a: Act): int {
    if a == WrLock && !l.writer && l.readers == 0 then 1 else if a == WrUnlock then -1 else 0
  }

  /** Lock calls by fiber t that got the lock for reading, minus its unlock calls. */
  ghost function RdBalance(l: Lock, acts: seq<Act>, t: Tid): int
    decreases |acts|
  {
    if acts == [] then 0
    else (if l.rt.current == t then RdChange(l, acts[0]) else 0) + RdBalance(Next(l, acts[0]), acts[1..], t)
  }

  ghost function WrBalance(l: Lock, acts: seq<Act>, t: Tid): int
    decreases |acts|
  {
    if acts == [] then 0
    else (if l.rt.current == t then WrChange(l, acts[0]) else 0) + WrBalance(Next(l, acts[0]), acts[1..], t)
  }

  /** The same over all fibers. */
  ghost function RdTotal(l: Lock, acts: seq<Act>): int
    decreases |acts|
  {
    if acts == [] then 0 else RdChange(l, acts[0]) + RdTotal(Next(l, acts[0]), acts[1..])
  }

  ghost function WrTotal(l: Lock, acts: seq<Act>): int
    decreases |acts|
  {
    if acts == [] then 0 else WrChange(l, acts[0]) + WrTotal(Next(l, acts[0]), acts[1..])
  }

  lemma ReadHoldsStep(l: Lock, a: Act, t: Tid)
    requires CanAct(l, a)
    ensures var r := Next(l, a);
      && r.readHolders[t] == l.readHolders[t] + (if l.rt.current == t then RdChange(l, a) else 0)
      && |r.readHolders| == |l.readHolders| + RdChange(l, a)
  {
    hide Step, Enabled, Spares;
  }

  lemma WriteHoldsStep(l: Lock, a: Act, t: Tid)
    requires CanAct(l, a)
    ensures var r := Next(l, a);
      && r.writeHolders[t] == l.writeHolders[t] + (if l.rt.current == t then WrChange(l, a) else 0)
      && |r.writeHolders| == |l.writeHolders| + WrChange(l, a)
  {
    hide Step, Enabled, Spares;
  }

  lemma {:induction false} HoldsRun(l: Lock, acts: seq<Act>, t: Tid)
    requires CanRun(l, acts)
    ensures var r := RunActs(l, acts);
      && r.readHolders[t] == l.readHolders[t] + RdBalance(l, acts, t)
      && r.writeHolders[t] == l.writeHolders[t] + WrBalance(l, acts, t)
      && |r.readHolders| == |l.readHolders| + RdTotal(l, acts)
      && |r.writeHolders| == |l.writeHolders| + WrTotal(l, acts)
    decreases |acts|
  {
    hide Next, CanAct, RdChange, WrChange;
    if acts != [] {
      ReadHoldsStep(l, acts[0], t);
      WriteHoldsStep(l, acts[0], t);
      HoldsRun(Next(l, acts[0]), acts[1..], t);
    }
  }

  /** In every run each fiber holds what its own calls took and did not give back. */
  lemma HoldsAreBalances(l: Lock, acts: seq<Act>, t: Tid)
    requires Fresh(l) && CanRun(l, acts)
    ensures RunActs(l, acts).readHolders[t] == RdBalance(l, acts, t) >= 0
    ensures RunActs(l, acts).writeHolders[t] == WrBalance(l, acts, t) >= 0
  {
    HoldsRun(l, acts, t);
    hide RunActs, CanRun, RdBalance, WrBalance;
  }

  /**
    In every run from rwlock_init the two fields are the lock calls that got the lock minus the
    unlock calls; at most one writer, and never with a reader.
   */
  lemma FieldsAreTotals(l: Lock, acts: seq<Act>)
    requires Fresh(l) && CanRun(l, acts)
    ensures RunActs(l, acts).readers == RdTotal(l, acts) >= 0
    ensures 0 <= WrTotal(l, acts) <= 1
    ensures RunActs(l, acts).writer <==> WrTotal(l, acts) == 1
    ensures RdTotal(l, acts) > 0 ==> WrTotal(l, acts) == 0
  {
    FreshInv(l);
    RunActsInv(l, acts);
    HoldsRun(l, acts, 0);
    hide Wired, RunActs, CanRun;
  }

  lemma HolderFields(l: Lock)
    requires Exclusive(l)
    ensures |l.readHolders| > 0 ==> l.readers > 0 && !l.writer
    ensures |l.writeHolders| > 0 ==> l.readers == 0 && l.writer
  {
  }

  lemma PartOfAll(m: multiset<Tid>, t: Tid, u: Tid)
    ensures m[t] <= |m|
    ensures t != u ==> m[t] + m[u] <= |m|
  {
    var p := multiset{}[t := m[t]];
    var q := p[u := m[u]];
    assert m == p + (m - p);
    assert |p| == m[t];
    if t != u {
      assert m == q + (m - q);
      assert q == p + multiset{}[u := m[u]];
      assert |q| == m[t] + m[u];
    }
  }

  /**
    Mutual exclusion by the calls alone: while one fiber's write calls are ahead of its unlocks,
    nobody else's are, and nobody's read calls are ahead of theirs.
   */
  lemma ReadersXorWriter(l: Lock, acts: seq<Act>, t: Tid, u: Tid)
    requires Fresh(l) && CanRun(l, acts) && WrBalance(l, acts, t) > 0
    ensures WrBalance(l, acts, t) == 1
    ensures RdBalance(l, acts, u) == 0
    ensures u != t ==> WrBalance(l, acts, u) == 0
  {
    FieldsAreTotals(l, acts);
    HoldsRun(l, acts, 0);
    HoldsAreBalances(l, acts, t);
    HoldsAreBalances(l, acts, u);
    hide RunActs, CanRun, RdBalance, WrBalance, RdTotal, WrTotal;
    PartOfAll(RunActs(l, acts).writeHolders, t, u);
    PartOfAll(RunActs(l, acts).readHolders, u, t);
  }

  /** In every run: whoever sleeps on the lock, the lock is held; a sleeping reader faces a writer. */
  lemma SleepersFaceAHolder(l: Lock, acts: seq<Act>, t: Tid)
    requires Fresh(l) && CanRun(l, acts) && OnCond(RunActs(l, acts).rt, RunActs(l, acts).unlocked, t)
    ensures RdTotal(l, acts) + WrTotal(l, acts) > 0
    ensures Wants(RunActs(l, acts), t) != Nothing
    ensures Wants(RunActs(l, acts), t) == ToRead ==> WrTotal(l, acts) == 1
  {
    FreshInv(l);
    RunActsInv(l, acts);
    FieldsAreTotals(l, acts);
    hide RunActs, CanRun, Core, RdTotal, WrTotal;
    assert SleeperOk(RunActs(l, acts), t);
  }

  // ----- the lock as an object ---------------------------------------------------------------

  /** A read-write lock on a service thread; each method is one turn, up to the next switch. */
  class RwLockObject {
    const rt: ServiceThread
    const unlocked: nat
    var writer: bool
    var readers: int
    ghost var want: map<Tid, Want>
    ghost var readHolders: multiset<Tid>
    ghost var writeHolders: multiset<Tid>

    ghost function View(): Lock
      reads this, rt
    {
      Lock(rt.View(), unlocked, writer, readers, want, readHolders, writeHolders)
    }

    /** rwlock_init */
    constructor (thread: ServiceThread, cond: nat)
      requires thread.Valid() && CondQ(cond) !in thread.queues
      modifies thread
      ensures rt == thread && View().rt == CondInit(old(thread.View()), cond)
      ensures LInv(View()) && Fresh(View())
    {
      rt, unlocked := thread, cond;
      writer, readers := false, 0;
      want, readHolders, writeHolders := map[], multiset{}, multiset{};
      new;
      rt.CondInitCall(cond);
      FreshInv(View());
    }

    /** rwlock_rdlock: true when the caller got the lock, false when it went to sleep. */
    method RdLockCall() returns (got: bool)
      requires LInv(View()) && CanAct(View(), RdLock)
      modifies this, rt
      ensures View() == Next(old(View()), RdLock) && LInv(View())
      ensures got <==> !old(writer)
      ensures writer == old(writer) && readers == old(readers) + (if got then 1 else 0)
    {
      hide Core;
      NextInv(View(), RdLock);
      if writer {
        want := want[rt.current := ToRead];
        rt.CondWaitCall(unlocked);
        return false;
      }
      want, readHolders := want[rt.current := Nothing], readHolders + multiset{rt.current};
      readers := readers + 1;
      return true;
    }

    /** rwlock_wrlock */
    method WrLockCall() returns (got: bool)
      requires LInv(View()) && CanAct(View(), WrLock)
      modifies this, rt
      ensures View() == Next(old(View()), WrLock) && LInv(View())
      ensures got <==> !old(writer) && old(readers) == 0
      ensures readers == old(readers) && (writer <==> got || old(writer))
    {
      hide Core;
      NextInv(View(), WrLock);
      if writer || readers != 0 {
        want := want[rt.current := ToWrite];
        rt.CondWaitCall(unlocked);
        return false;
      }
      want, writeHolders := want[rt.current := Nothing], writeHolders + multiset{rt.current};
      writer := true;
      return true;
    }

    /** rwlock_rdunlock */
    method RdUnlockCall()
      requires LInv(View()) && CanAct(View(), RdUnlock)
      modifies this, rt
      ensures View() == Next(old(View()), RdUnlock) && LInv(View())
      ensures readers == old(readers) - 1 >= 0 && !writer
    {
      hide Core, Exclusive;
      NextInv(View(), RdUnlock);
      HolderFields(View());
      readHolders := readHolders - multiset{rt.current};
      readers := readers - 1;
      if readers == 0 { var _ := rt.CondBroadcastCall(unlocked); }
    }

    /** rwlock_wrunlock */
    method WrUnlockCall()
      requires LInv(View()) && CanAct(View(), WrUnlock)
      modifies this, rt
      ensures View() == Next(old(View()), WrUnlock) && LInv(View())
      ensures old(writer) && !writer && readers == old(readers) == 0
    {
      hide Core;
      NextInv(View(), WrUnlock);
      HolderFields(View());
      writeHolders := writeHolders - multiset{rt.current};
      writer := false;
      var _ := rt.CondBroadcastCall(unlocked);
    }
  }
}
