/**
  A timed wait in M:N mode: a waiter on one thread, a poster on another, and the timer of the
  waiter's own thread, racing to make the waiter ready. Every flag update, list splice and
  lock operation is an atomic step; the three actors interleave freely. One episode: it starts
  with no post or timer action in progress for the fiber.
 */
module TimedWait {

  /** Semaphore and condition waits join a queue; an event wait only sets its flag. */
  datatype Kind = Queued | EventOnly

  datatype Actor = Waiter | Poster | Timer

  datatype Lock = Free | HeldBy(who: Actor)

  datatype WaiterPc =
    | WStart | WJoin | WFlag | WCode | WUnlock            // under the object's lock
    | WArmLock | WLink | WArmFlag | WArmUnlock | WSettle  // watchdog insert, then clear TRANSIENT
    | WSwitched

  datatype PosterPc =
    | PIdle | PExtract | PClear | PCode | PUnlock         // under the object's lock
    | PSpin | PLook | PTimerLock | PUnlink | PTimerFlag | PTimerUnlock
    | PReady | PDone

  datatype TimerPc =
    | TIdle | TUnlink | TFlag | TLook | TLock | TRecheck | TClear | TExtract | TReady | TUnlock
    | TFinish | TDone

  datatype State = State(
    kind: Kind, timed: bool,
    waiting: bool,    // STATES_WAITFOR_x
    transient: bool,  // STATES_TRANSIENT
    timeout: bool,    // STATES_WAIT_TIMEOUTB
    inQueue: bool,    // node on the object's wait queue
    linked: bool,     // link on the watchdog list
    readied: nat,     // insertions into a ready list
    code: nat,        // yieldCode, or "events were seized"
    qlock: Lock, wlock: Lock,
    w: WaiterPc, p: PosterPc, t: TimerPc)

  function Start(kind: Kind, timed: bool): State {
    State(kind, timed, false, false, false, false, false, 0, 0, Free, Free, WStart, PIdle, TIdle)
  }

  /** Can the poster see this waiter once it has the lock? */
  predicate Visible(s: State) {
    if s.kind == Queued then s.inQueue else s.waiting
  }

  predicate Enabled(s: State, a: Actor) {
    match a
    case Waiter =>
      (match s.w
       case WStart => s.qlock == Free
       case WArmLock => s.wlock == Free
       case WSwitched => false
       case _ => true)
    case Poster =>
      (match s.p
       case PIdle => s.qlock == Free && Visible(s)
       case PSpin => !s.transient
       case PTimerLock => s.wlock == Free
       case PDone => false
       case _ => true)
    case Timer =>
      (match s.t
       case TIdle => s.wlock == Free && s.linked && s.w == WSwitched
       case TLock => s.qlock == Free
       case TDone => false
       case _ => true)
  }

  function WaiterStep(s: State): State {
    match s.w
    case WStart => s.(qlock := HeldBy(Waiter), w := WJoin)
    case WJoin => s.(inQueue := s.kind == Queued, w := WFlag)
    case WFlag => s.(waiting := true, transient := s.timed, w := WCode)
    case WCode => s.(code := 0, w := WUnlock)
    case WUnlock => s.(qlock := Free, w := if s.timed then WArmLock else WSwitched)
    case WArmLock => s.(wlock := HeldBy(Waiter), w := WLink)
    case WLink => s.(linked := true, w := WArmFlag)
    case WArmFlag => s.(timeout := true, w := WArmUnlock)
    case WArmUnlock => s.(wlock := Free, w := WSettle)
    case WSettle => s.(transient := false, w := WSwitched)
    case WSwitched => s
  }

  function PosterStep(s: State): State {
    match s.p
    case PIdle => s.(qlock := HeldBy(Poster), p := PExtract)
    case PExtract => s.(inQueue := false, p := PClear)
    case PClear => s.(waiting := false, p := PCode)
    case PCode => s.(code := 1, p := PUnlock)
    case PUnlock => s.(qlock := Free, p := PSpin)
    case PSpin => s.(p := PLook)
    case PLook => s.(p := if s.timeout then PTimerLock else PReady)
    case PTimerLock => s.(wlock := HeldBy(Poster), p := PUnlink)
    case PUnlink => if s.timeout then s.(linked := false, p := PTimerFlag) else s.(p := PTimerUnlock)
    case PTimerFlag => s.(timeout := false, p := PTimerUnlock)
    case PTimerUnlock => s.(wlock := Free, p := PReady)
    case PReady => s.(readied := s.readied + 1, p := PDone)
    case PDone => s
  }

  function TimerStep(s: State): State {
    match s.t
    case TIdle => s.(wlock := HeldBy(Timer), t := TUnlink)
    case TUnlink => s.(linked := false, t := TFlag)
    case TFlag => s.(timeout := false, t := TLook)
    case TLook => s.(t := if s.waiting then TLock else TFinish)
    case TLock => s.(qlock := HeldBy(Timer), t := TRecheck)
    case TRecheck => s.(t := if s.waiting then TClear else TUnlock)
    case TClear => s.(waiting := false, t := TExtract)
    case TExtract => s.(inQueue := false, t := TReady)
    case TReady => s.(readied := s.readied + 1, t := TUnlock)
    case TUnlock => s.(qlock := Free, t := TFinish)
    case TFinish => s.(wlock := Free, t := TDone)
    case TDone => s
  }

  function Step(s: State, a: Actor): State {
    match a
    case Waiter => WaiterStep(s)
    case Poster => PosterStep(s)
    case Timer => TimerStep(s)
  }

  // ----- invariant ---------------------------------------------------------------

  function WRank(w: WaiterPc): nat {
    match w
    case WStart => 10 case WJoin => 9 case WFlag => 8 case WCode => 7 case WUnlock => 6
    case WArmLock => 5 case WLink => 4 case WArmFlag => 3 case WArmUnlock => 2 case WSettle => 1
    case WSwitched => 0
  }

  function PRank(p: PosterPc): nat {
    match p
    case PIdle => 12 case PExtract => 11 case PClear => 10 case PCode => 9 case PUnlock => 8
    case PSpin => 7 case PLook => 6 case PTimerLock => 5 case PUnlink => 4 case PTimerFlag => 3
    case PTimerUnlock => 2 case PReady => 1 case PDone => 0
  }

  function TRank(t: TimerPc): nat {
    match t
    case TIdle => 11 case TUnlink => 10 case TFlag => 9 case TLook => 8 case TLock => 7
    case TRecheck => 6 case TClear => 5 case TExtract => 4 case TReady => 3 case TUnlock => 2
    case TFinish => 1 case TDone => 0
  }

  /** The poster has taken the waiter off the object. */
  predicate PosterOwns(s: State) { PRank(s.p) <= 10 }

  predicate LocksOk(s: State) {
    && (s.qlock == HeldBy(Waiter) <==> 6 <= WRank(s.w) <= 9)
    && (s.qlock == HeldBy(Poster) <==> 8 <= PRank(s.p) <= 11)
    && (s.qlock == HeldBy(Timer) <==> 2 <= TRank(s.t) <= 6)
    && (s.wlock == HeldBy(Waiter) <==> 2 <= WRank(s.w) <= 4)
    && (s.wlock == HeldBy(Poster) <==> 2 <= PRank(s.p) <= 4)
    && (s.wlock == HeldBy(Timer) <==> 1 <= TRank(s.t) <= 10)
  }

  predicate FlagsOk(s: State) {
    && (s.transient <==> s.timed && 1 <= WRank(s.w) <= 7)
    && (s.waiting <==> WRank(s.w) <= 7 && PRank(s.p) >= 10 && !(3 <= TRank(s.t) <= 4) && !(s.readied == 1 && !PosterOwns(s)))
    && (s.inQueue <==> s.kind == Queued && WRank(s.w) <= 8 && PRank(s.p) >= 11 && s.t != TReady && !(s.readied == 1 && !PosterOwns(s)))
    && (s.linked <==> WRank(s.w) <= 3 && s.timed && TRank(s.t) >= 10 && PRank(s.p) > 3)
    && (s.timeout <==> WRank(s.w) <= 2 && s.timed && TRank(s.t) >= 9 && PRank(s.p) > 2)
  }

  predicate OrderOk(s: State) {
    && (!s.timed ==> !(1 <= WRank(s.w) <= 5) && s.t == TIdle)
    && (s.p != PIdle ==> WRank(s.w) <= 5)
    && (PRank(s.p) <= 6 ==> s.w == WSwitched)
    && (s.t != TIdle ==> s.w == WSwitched && s.timed)
    && (s.p == PTimerFlag ==> s.timeout)
    && (PRank(s.p) <= 4 ==> TRank(s.t) <= 8 || s.t == TIdle)
    && (PRank(s.p) <= 2 && s.timed ==> !s.timeout)
    && (10 <= PRank(s.p) <= 11 ==> s.waiting)
    && (s.p == PExtract && s.kind == Queued ==> s.inQueue)
    && (s.t == TClear ==> s.waiting && !PosterOwns(s))
  }

  predicate WakesOk(s: State) {
    && s.readied <= 1
    && (PosterOwns(s) ==> (s.readied == 1 <==> s.p == PDone) && !(3 <= TRank(s.t) <= 5))
    && (!PosterOwns(s) && s.readied == 1 ==> TRank(s.t) <= 2 && s.p == PIdle)
    && (3 <= TRank(s.t) <= 5 ==> s.p == PIdle && s.readied == 0)
    && (s.code == 1 <==> PRank(s.p) <= 8)
    && s.code <= 1
  }

  predicate Inv(s: State) {
    LocksOk(s) && FlagsOk(s) && OrderOk(s) && WakesOk(s)
  }

  lemma StartInv(kind: Kind, timed: bool)
    ensures Inv(Start(kind, timed))
  {
  }

  lemma StepInv(s: State, a: Actor)
    requires Inv(s) && Enabled(s, a)
    ensures Inv(Step(s, a))
  {
    match a
    case Waiter => WaiterKeeps(s);
    case Poster => PosterKeeps(s);
    case Timer => TimerKeeps(s);
  }

  lemma WaiterKeeps(s: State)
    requires Inv(s) && Enabled(s, Waiter)
    ensures Inv(WaiterStep(s))
  {
    if WRank(s.w) >= 6 { WaiterJoinsKeeps(s); } else { WaiterArmsKeeps(s); }
  }

  lemma WaiterJoinsKeeps(s: State)
    requires Inv(s) && Enabled(s, Waiter) && WRank(s.w) >= 6
    ensures Inv(WaiterStep(s))
  {
  }

  lemma WaiterArmsKeeps(s: State)
    requires Inv(s) && Enabled(s, Waiter) && WRank(s.w) < 6
    ensures Inv(WaiterStep(s))
  {
  }

  lemma PosterKeeps(s: State)
    requires Inv(s) && Enabled(s, Poster)
    ensures Inv(PosterStep(s))
  {
    if PRank(s.p) >= 8 { PosterLockedKeeps(s); } else { PosterTimerKeeps(s); }
  }

  lemma PosterLockedKeeps(s: State)
    requires Inv(s) && Enabled(s, Poster) && PRank(s.p) >= 8
    ensures Inv(PosterStep(s))
  {
  }

  lemma PosterTimerKeeps(s: State)
    requires Inv(s) && Enabled(s, Poster) && PRank(s.p) < 8
    ensures Inv(PosterStep(s))
  {
    if PRank(s.p) >= 5 { PosterLooksKeeps(s); } else { PosterDisarmsKeeps(s); }
  }

  lemma PosterLooksKeeps(s: State)
    requires Inv(s) && Enabled(s, Poster) && 5 <= PRank(s.p) < 8
    ensures Inv(PosterStep(s))
  {
  }

  lemma PosterDisarmsKeeps(s: State)
    requires Inv(s) && Enabled(s, Poster) && PRank(s.p) < 5
    ensures Inv(PosterStep(s))
  {
  }

  lemma TimerKeeps(s: State)
    requires Inv(s) && Enabled(s, Timer)
    ensures Inv(TimerStep(s))
  {
    if TRank(s.t) >= 7 { TimerArmedKeeps(s); } else { TimerLockedKeeps(s); }
  }

  lemma TimerArmedKeeps(s: State)
    requires Inv(s) && Enabled(s, Timer) && TRank(s.t) >= 7
    ensures Inv(TimerStep(s))
  {
  }

  lemma TimerLockedKeeps(s: State)
    requires Inv(s) && Enabled(s, Timer) && TRank(s.t) < 7
    ensures Inv(TimerStep(s))
  {
  }

  // ----- every interleaving -----------------------------------------------------------

  predicate EnabledRun(s: State, actors: seq<Actor>)
    decreases |actors|
  {
    actors == [] || (Enabled(s, actors[0]) && EnabledRun(Step(s, actors[0]), actors[1..]))
  }

  function Run(s: State, actors: seq<Actor>): State
    decreases |actors|
  {
    if actors == [] then s else Run(Step(s, actors[0]), actors[1..])
  }

  lemma {:induction false} RunInv(s: State, actors: seq<Actor>)
    requires Inv(s) && EnabledRun(s, actors)
    ensures Inv(Run(s, actors))
    decreases |actors|
  {
    hide Inv, Enabled, Step;
    if actors != [] {
      StepInv(s, actors[0]);
      RunInv(Step(s, actors[0]), actors[1..]);
    }
  }

  /** Nobody can move any more, and someone was there to end the wait. */
  predicate Settled(s: State) {
    s.w == WSwitched && (s.p == PDone || s.t == TDone) && forall a :: !Enabled(s, a)
  }

  /** At every moment of every interleaving the waiter has been made ready at most once. */
  lemma NeverTwice(kind: Kind, timed: bool, actors: seq<Actor>)
    requires EnabledRun(Start(kind, timed), actors)
    ensures Run(Start(kind, timed), actors).readied <= 1
  {
    StartInv(kind, timed);
    RunInv(Start(kind, timed), actors);
    hide Run, EnabledRun;
  }

  /**
    When the race is over exactly one of poster and timer has made the waiter ready, once; the
    return code tells which; and the fiber is on no wait queue and no watchdog list.
   */
  lemma ExactlyOneWakes(kind: Kind, timed: bool, actors: seq<Actor>)
    requires EnabledRun(Start(kind, timed), actors) && Settled(Run(Start(kind, timed), actors))
    ensures var s := Run(Start(kind, timed), actors);
      && s.readied == 1
      && (s.code == 1 <==> s.p == PDone)
      && (s.code == 0 <==> s.p == PIdle && s.t == TDone)
      && !s.inQueue && !s.linked && !s.waiting && !s.timeout && !s.transient
      && s.qlock == Free && s.wlock == Free
  {
    StartInv(kind, timed);
    RunInv(Start(kind, timed), actors);
    var s := Run(Start(kind, timed), actors);
    hide Run, EnabledRun;
    assert !Enabled(s, Poster) && !Enabled(s, Timer);
  }

  function Rank(s: State): nat { WRank(s.w) + PRank(s.p) + TRank(s.t) }

  lemma StepLowersRank(s: State, a: Actor)
    requires Inv(s) && Enabled(s, a)
    ensures Rank(Step(s, a)) < Rank(s)
  {
  }

  /** No interleaving runs for ever: at most 33 steps make up an episode. */
  lemma {:induction false} EpisodesEnd(s: State, actors: seq<Actor>)
    requires Inv(s) && EnabledRun(s, actors)
    ensures |actors| <= Rank(s)
    decreases |actors|
  {
    hide Inv, Enabled, Step, Rank;
    if actors != [] {
      StepInv(s, actors[0]);
      StepLowersRank(s, actors[0]);
      EpisodesEnd(Step(s, actors[0]), actors[1..]);
    }
  }

  /** No deadlock: while a post or a time-out is under way, or the waiter is not parked, someone can move. */
  lemma NobodyIsStuck(s: State)
    requires Inv(s) && forall a :: !Enabled(s, a)
    ensures s.w == WSwitched && (s.p == PIdle || s.p == PDone) && (s.t == TIdle || s.t == TDone)
    ensures s.p == PDone || s.t == TDone
  {
    assert !Enabled(s, Waiter) && !Enabled(s, Poster) && !Enabled(s, Timer);
  }

  // ----- where an episode may not start -------------------------------------------------

  ghost predicate Reachable(s: State) {
    exists kind, timed, actors :: EnabledRun(Start(kind, timed), actors) && Run(Start(kind, timed), actors) == s
  }

  lemma {:induction false} RunSnoc(s: State, actors: seq<Actor>, a: Actor)
    requires EnabledRun(s, actors) && Enabled(Run(s, actors), a)
    ensures EnabledRun(s, actors + [a]) && Run(s, actors + [a]) == Step(Run(s, actors), a)
    decreases |actors|
  {
    hide Enabled, Step;
    if actors == [] {
      assert (actors + [a])[1..] == [];
    } else {
      RunSnoc(Step(s, actors[0]), actors[1..], a);
      assert (actors + [a])[1..] == actors[1..] + [a];
    }
  }

  lemma ReachStep(s: State, a: Actor)
    requires Reachable(s) && Enabled(s, a)
    ensures Reachable(Step(s, a))
  {
    hide Enabled, Step, Run, EnabledRun;
    var kind, timed, actors :| EnabledRun(Start(kind, timed), actors) && Run(Start(kind, timed), actors) == s;
    RunSnoc(Start(kind, timed), actors, a);
    assert EnabledRun(Start(kind, timed), actors + [a]);
  }

  lemma ReachableInv(s: State)
    requires Reachable(s)
    ensures Inv(s)
  {
    var kind, timed, actors :| EnabledRun(Start(kind, timed), actors) && Run(Start(kind, timed), actors) == s;
    StartInv(kind, timed);
    RunInv(Start(kind, timed), actors);
    hide Run, EnabledRun, Inv;
  }

  /** The timer has begun with this fiber and not finished. */
  predicate InProgress(t: TimerPc) { t != TIdle && t != TDone }

  /** Where a timer action can be when the poster has ended the wait. */
  predicate Outlives(t: TimerPc) { t == TLook || t == TLock || t == TRecheck || t == TUnlock || t == TFinish }

  /**
    A wait that its poster has ended, in every interleaving: an old timer action is still in
    progress iff the watchdog lock is held by the timer, and it is past clearing the timeout flag
    and not waking anybody.
   */
  lemma OutlivesIff(s: State)
    requires Reachable(s) && s.p == PDone
    ensures InProgress(s.t) <==> s.wlock == HeldBy(Timer)
    ensures InProgress(s.t) <==> Outlives(s.t)
    ensures s.readied == 1 && !s.waiting && !s.inQueue && !s.linked && !s.timeout && !s.transient
  {
    ReachableInv(s);
    hide Reachable;
    assert LocksOk(s) && OrderOk(s) && WakesOk(s) && FlagsOk(s);
    match s.t case TIdle => case TDone => case _ =>
  }

  function Parked(kind: Kind, timed: bool): State {
    Start(kind, timed).(inQueue := kind == Queued, waiting := true, linked := timed, timeout := timed, w := WSwitched)
  }

  lemma Go(s: State, a: Actor, r: State)
    requires Reachable(s) && Enabled(s, a) && Step(s, a) == r
    ensures Reachable(r)
  {
    ReachStep(s, a);
  }

  /** Nobody but the waiter has moved yet. */
  predicate Undisturbed(s: State) { s.p == PIdle && s.t == TIdle && s.readied == 0 }

  /** Left alone, the waiter can always take its next step. */
  lemma WaiterGoesOn(s: State)
    requires Inv(s) && Undisturbed(s) && s.w != WSwitched
    ensures Enabled(s, Waiter)
    ensures Undisturbed(WaiterStep(s)) && WRank(WaiterStep(s).w) < WRank(s.w)
    ensures WaiterStep(s).kind == s.kind && WaiterStep(s).timed == s.timed
  {
  }

  /** A waiter that has parked undisturbed is in exactly this state. */
  lemma ParkedState(s: State)
    requires Inv(s) && Undisturbed(s) && s.w == WSwitched
    ensures s == Parked(s.kind, s.timed)
  {
    assert s.qlock == Free && s.wlock == Free by {
      if s.qlock.HeldBy? { match s.qlock.who case Waiter => case Poster => case Timer => }
      if s.wlock.HeldBy? { match s.wlock.who case Waiter => case Poster => case Timer => }
    }
  }

  lemma {:induction false} ParksFrom(s: State)
    requires Reachable(s) && Undisturbed(s)
    ensures Reachable(Parked(s.kind, s.timed))
    decreases WRank(s.w)
  {
    ReachableInv(s);
    if s.w == WSwitched {
      ParkedState(s);
    } else {
      WaiterGoesOn(s);
      hide Reachable, Inv, Undisturbed, WaiterStep, Enabled;
      ReachStep(s, Waiter);
      ParksFrom(WaiterStep(s));
    }
  }

  lemma WaiterParks(kind: Kind, timed: bool)
    ensures Reachable(Parked(kind, timed))
  {
    var s := Start(kind, timed);
    assert EnabledRun(s, []) && Run(s, []) == s;
    assert Reachable(s);
    hide Reachable;
    ParksFrom(s);
  }

  /** ... and every one of those positions occurs, for either outcome of the timer's first look. */
  lemma TimerCanOutliveTheWait(kind: Kind, t: TimerPc)
    requires Outlives(t)
    ensures exists s: State :: Reachable(s) && s.kind == kind && s.p == PDone && s.t == t
  {
    WaiterParks(kind, true);
    hide Reachable;
    var s0 := Parked(kind, true);
    var s1 := s0.(wlock := HeldBy(Timer), t := TUnlink);
    Go(s0, Timer, s1);
    var s2 := s1.(linked := false, t := TFlag);
    Go(s1, Timer, s2);
    var s3 := s2.(timeout := false, t := TLook);
    Go(s2, Timer, s3);
    if t == TLook {
      PosterFinishes(s3);
    } else {
      var s4 := s3.(t := TLock);
      Go(s3, Timer, s4);
      PosterFinishes(s4);
      var s5 := Finished(s4);
      var s6 := s5.(qlock := HeldBy(Timer), t := TRecheck);
      Go(s5, Timer, s6);
      var s7 := s6.(t := TUnlock);
      Go(s6, Timer, s7);
      var s8 := s7.(qlock := Free, t := TFinish);
      Go(s7, Timer, s8);
      assert Reachable(s5) && Reachable(s6) && Reachable(s7) && Reachable(s8);
    }
  }

  /** The state after an undisturbed post. */
  function Finished(s: State): State {
    s.(inQueue := false, waiting := false, code := 1, readied := 1, p := PDone)
  }

  lemma PosterFinishes(s0: State)
    requires Reachable(s0) && s0.qlock == Free && Visible(s0) && s0.p == PIdle
    requires !s0.transient && !s0.timeout && s0.readied == 0
    ensures Reachable(Finished(s0))
  {
    hide Reachable;
    var s1 := s0.(qlock := HeldBy(Poster), p := PExtract);
    Go(s0, Poster, s1);
    var s2 := s1.(inQueue := false, p := PClear);
    Go(s1, Poster, s2);
    var s3 := s2.(waiting := false, p := PCode);
    Go(s2, Poster, s3);
    var s4 := s3.(code := 1, p := PUnlock);
    Go(s3, Poster, s4);
    var s5 := s4.(qlock := Free, p := PSpin);
    Go(s4, Poster, s5);
    var s6 := s5.(p := PLook);
    Go(s5, Poster, s6);
    var s7 := s6.(p := PReady);
    Go(s6, Poster, s7);
    var s8 := s7.(readied := 1, p := PDone);
    Go(s7, Poster, s8);
  }
}
