/**
  A second timed or untimed wait of a fiber whose previous wait was ended by a poster while the
  timer of its old thread is still in the middle of its action. The poster ran on another thread,
  so the fiber has moved on through a global ready list: the new wait has its own watchdog list
  and its own timer, and the old action is a fourth actor beside waiter, poster and timer.
 */
module StaleTimer {
  import opened TimedWait

  datatype Mover = New(a: Actor) | Old

  /**
    `now` is the new wait, `stale` the position of the old timer action. Its `branch` was chosen by
    the flags it looked at; `shared` says that the lock it takes is the lock of the new wait's
    object, `holds` that it has it. A timed call `names` its object in waitingObject, an untimed
    one leaves the previous object there; `named` says that it has done so. With `same` both waits
    are on one object.
   */
  datatype Rewait = Rewait(
    kind: Kind, now: State, stale: TimerPc, branch: Kind, shared: bool, holds: bool, same: bool, names: bool, named: bool)

  /** Every event wait of a fiber uses the fiber's own event lock. */
  predicate SharesLock(branch: Kind, kind: Kind, same: bool) { branch == kind && (kind == EventOnly || same) }

  function Begin(kind: Kind, timed: bool, names: bool, t: TimerPc, branch: Kind, same: bool): Rewait {
    var shared := SharesLock(branch, kind, same);
    Rewait(kind, Start(kind, timed), t, branch, shared, shared && (t == TRecheck || t == TUnlock), same, names, false)
  }

  predicate TakesLock(s: State, a: Actor) {
    (a == Waiter && s.w == WStart) || (a == Poster && s.p == PIdle) || (a == Timer && s.t == TLock)
  }

  predicate Moves(s: Rewait, x: Mover) {
    match x
    case New(a) => Enabled(s.now, a) && (TakesLock(s.now, a) ==> !s.holds)
    case Old => InProgress(s.stale) && (s.stale == TLock && s.shared ==> s.now.qlock == Free)
  }

  /** The code of the timer on the old thread, acting on the fiber's new wait. */
  function OldStep(s: Rewait): Rewait {
    match s.stale
    case TLook =>
      if s.now.waiting then
        s.(stale := TLock, branch := s.kind, shared := s.kind == EventOnly || s.named || s.same)
      else s.(stale := TFinish)
    case TLock => s.(stale := TRecheck, holds := s.shared)
    case TRecheck => s.(stale := if s.now.waiting && s.kind == s.branch then TClear else TUnlock)
    case TClear => s.(stale := TExtract, now := s.now.(waiting := false))
    case TExtract => s.(stale := TReady, now := s.now.(inQueue := false))
    case TReady => s.(stale := TUnlock, now := s.now.(readied := s.now.readied + 1))
    case TUnlock => s.(stale := TFinish, holds := false)
    case TFinish => s.(stale := TDone)
    case _ => s
  }

  function Move(s: Rewait, x: Mover): Rewait {
    match x
    case New(a) => s.(now := Step(s.now, a), named := s.named || (s.names && a == Waiter && s.now.w == WCode))
    case Old => OldStep(s)
  }

  predicate MovesRun(s: Rewait, xs: seq<Mover>)
    decreases |xs|
  {
    xs == [] || (Moves(s, xs[0]) && MovesRun(Move(s, xs[0]), xs[1..]))
  }

  function MoveAll(s: Rewait, xs: seq<Mover>): Rewait
    decreases |xs|
  {
    if xs == [] then s else MoveAll(Move(s, xs[0]), xs[1..])
  }

  // ----- positions from which the old action does no harm ---------------------------------

  /** Positions of an old action at the start of a new wait. */
  predicate Possible(t: TimerPc) { !InProgress(t) || Outlives(t) }

  /**
    From here the old action can reach the new wait: it has not looked yet; or it looked, in the
    same branch, and will look again once it has the lock; or it has a lock that is not the new
    wait's and is about to look again.
   */
  predicate Dangerous(t: TimerPc, branch: Kind, kind: Kind, same: bool) {
    t == TLook || (t == TLock && branch == kind) || (t == TRecheck && branch == kind && !SharesLock(branch, kind, same))
  }

  predicate Quiet(s: Rewait) {
    && (s.holds ==> s.stale == TRecheck || s.stale == TUnlock)
    && match s.stale
       case TLock => s.branch != s.kind && !s.shared
       case TRecheck => s.branch != s.kind || (s.holds && s.now.w == WStart && Undisturbed(s.now) && Inv(s.now))
       case _ => !InProgress(s.stale) || s.stale == TUnlock || s.stale == TFinish
  }

  lemma BeginIsQuiet(kind: Kind, timed: bool, names: bool, t: TimerPc, branch: Kind, same: bool)
    requires Possible(t) && !Dangerous(t, branch, kind, same)
    ensures Quiet(Begin(kind, timed, names, t, branch, same))
  {
    StartInv(kind, timed);
  }

  lemma OldStaysQuiet(s: Rewait)
    requires Quiet(s) && Moves(s, Old)
    ensures Quiet(OldStep(s)) && OldStep(s).now == s.now
  {
  }

  lemma NewStaysQuiet(s: Rewait, a: Actor)
    requires Quiet(s) && Inv(s.now) && Moves(s, New(a))
    ensures Quiet(Move(s, New(a)))
  {
    hide Step;
  }

  // ----- from every other position, the wait behaves as if the old action were not there ----

  /** What waiter, poster and timer of the new wait did in a run. */
  function NewOnly(xs: seq<Mover>): seq<Actor> {
    if xs == [] then [] else (if xs[0].New? then [xs[0].a] else []) + NewOnly(xs[1..])
  }

  /** Leaving out the old action's moves gives a run of the plain protocol with the same outcome. */
  lemma {:induction false} OldIsInvisible(s: Rewait, xs: seq<Mover>)
    requires Quiet(s) && Inv(s.now) && MovesRun(s, xs)
    ensures EnabledRun(s.now, NewOnly(xs)) && MoveAll(s, xs).now == Run(s.now, NewOnly(xs))
    ensures Quiet(MoveAll(s, xs))
    decreases |xs|
  {
    if xs != [] {
      match xs[0] {
        case Old =>
          OldStaysQuiet(s);
          hide Quiet, Inv, Moves, OldStep;
          OldIsInvisible(OldStep(s), xs[1..]);
          assert NewOnly(xs) == NewOnly(xs[1..]);
        case New(a) =>
          NewStaysQuiet(s, a);
          StepInv(s.now, a);
          assert Enabled(s.now, a);
          hide Quiet, Inv, Moves, Step, Enabled;
          OldIsInvisible(Move(s, New(a)), xs[1..]);
          assert NewOnly(xs)[1..] == NewOnly(xs[1..]);
      }
    }
  }

  /** Nobody can move, the old action included. */
  predicate AllSettled(s: Rewait) {
    s.now.w == WSwitched && (s.now.p == PDone || s.now.t == TDone) && !Moves(s, Old)
    && !Moves(s, New(Waiter)) && !Moves(s, New(Poster)) && !Moves(s, New(Timer))
  }

  lemma SettledNow(s: Rewait)
    requires Quiet(s) && AllSettled(s)
    ensures Settled(s.now)
  {
    forall a ensures !Enabled(s.now, a) {
      match a case Waiter => case Poster => case Timer =>
    }
  }

  /** The exactly-once theorem, again, for a wait begun while an old action is somewhere harmless. */
  lemma ExactlyOneWakesAgain(kind: Kind, timed: bool, names: bool, t: TimerPc, branch: Kind, same: bool, xs: seq<Mover>)
    requires Possible(t) && !Dangerous(t, branch, kind, same)
    requires var b := Begin(kind, timed, names, t, branch, same); MovesRun(b, xs) && AllSettled(MoveAll(b, xs))
    ensures var s := MoveAll(Begin(kind, timed, names, t, branch, same), xs).now;
      && s.readied == 1
      && (s.code == 1 <==> s.p == PDone)
      && (s.code == 0 <==> s.p == PIdle && s.t == TDone)
      && !s.inQueue && !s.linked && !s.waiting && !s.timeout && !s.transient
  {
    var b := Begin(kind, timed, names, t, branch, same);
    BeginIsQuiet(kind, timed, names, t, branch, same);
    StartInv(kind, timed);
    OldIsInvisible(b, xs);
    hide Quiet, AllSettled, MoveAll, MovesRun, Run, EnabledRun, Inv;
    SettledNow(MoveAll(b, xs));
    ExactlyOneWakes(kind, timed, NewOnly(xs));
  }

  // ----- from a dangerous position the old action can end the wait --------------------------

  /** The waiter is parked and made ready although nobody posted and its own timer did nothing. */
  predicate EndedByOld(s: Rewait) {
    s.now.w == WSwitched && s.now.readied == 1 && s.now.p == PIdle && s.now.t == TIdle && s.now.code == 0
  }

  ghost predicate Leads(s: Rewait, r: Rewait) {
    exists xs :: MovesRun(s, xs) && MoveAll(s, xs) == r
  }

  lemma LeadsBy(s: Rewait, x: Mover, m: Rewait, r: Rewait)
    requires Moves(s, x) && Move(s, x) == m && Leads(m, r)
    ensures Leads(s, r)
  {
    var xs :| MovesRun(m, xs) && MoveAll(m, xs) == r;
    hide Moves, Move;
    assert ([x] + xs)[1..] == xs;
    assert MovesRun(s, [x] + xs);
  }

  /** Parked, and nobody but the old action has interfered. */
  predicate ReadyToEnd(s: State) { s.w == WSwitched && Undisturbed(s) && s.code == 0 }

  lemma EndsFromReady(s: Rewait) returns (r: Rewait)
    requires s.stale == TReady && ReadyToEnd(s.now)
    ensures Leads(s, r) && EndedByOld(r)
  {
    r := OldStep(s);
    assert MovesRun(r, []) && MoveAll(r, []) == r;
    assert Leads(r, r);
    hide Leads;
    LeadsBy(s, Old, r, r);
  }

  lemma EndsFromExtract(s: Rewait) returns (r: Rewait)
    requires s.stale == TExtract && ReadyToEnd(s.now)
    ensures Leads(s, r) && EndedByOld(r)
  {
    var m := OldStep(s);
    hide Leads;
    r := EndsFromReady(m);
    LeadsBy(s, Old, m, r);
  }

  lemma EndsFromClear(s: Rewait) returns (r: Rewait)
    requires s.stale == TClear && ReadyToEnd(s.now)
    ensures Leads(s, r) && EndedByOld(r)
  {
    var m := OldStep(s);
    hide Leads;
    r := EndsFromExtract(m);
    LeadsBy(s, Old, m, r);
  }

  /** Looks again, finds the new wait, and ends it. */
  lemma OldEnds(s: Rewait) returns (r: Rewait)
    requires s.stale == TRecheck && ReadyToEnd(s.now) && s.now.waiting && s.branch == s.kind
    ensures Leads(s, r) && EndedByOld(r)
  {
    var m := OldStep(s);
    hide Leads;
    r := EndsFromClear(m);
    LeadsBy(s, Old, m, r);
  }

  lemma OldLocksAndEnds(s: Rewait) returns (r: Rewait)
    requires s.stale == TLock && ReadyToEnd(s.now) && s.now.waiting && s.now.qlock == Free && s.branch == s.kind
    ensures Leads(s, r) && EndedByOld(r)
  {
    var s1 := OldStep(s);
    r := OldEnds(s1);
    hide Leads;
    LeadsBy(s, Old, s1, r);
  }

  lemma OldLooksAndEnds(s: Rewait) returns (r: Rewait)
    requires s.stale == TLook && ReadyToEnd(s.now) && s.now.waiting && s.now.qlock == Free
    ensures Leads(s, r) && EndedByOld(r)
  {
    var s1 := OldStep(s);
    r := OldLocksAndEnds(s1);
    hide Leads;
    LeadsBy(s, Old, s1, r);
  }

  /** While the old action pauses, the waiter of the new wait parks. */
  lemma {:induction false} WaiterParksFirst(s: Rewait) returns (r: Rewait)
    requires Inv(s.now) && Undisturbed(s.now) && s.now.kind == s.kind && !s.holds
    requires s.stale == TLook || (s.branch == s.kind && (s.stale == TLock || s.stale == TRecheck))
    ensures Leads(s, r) && EndedByOld(r)
    decreases WRank(s.now.w)
  {
    if s.now.w == WSwitched {
      ParkedState(s.now);
      hide Inv, Leads;
      match s.stale
      case TLook => r := OldLooksAndEnds(s);
      case TLock => r := OldLocksAndEnds(s);
      case TRecheck => r := OldEnds(s);
    } else {
      WaiterGoesOn(s.now);
      StepInv(s.now, Waiter);
      hide Leads, Inv, Enabled, WaiterStep, Undisturbed, EndedByOld;
      var m := Move(s, New(Waiter));
      r := WaiterParksFirst(m);
      LeadsBy(s, New(Waiter), m, r);
    }
  }

  /**
    Exactly when an old timer action can end a wait begun meanwhile: it has not looked at the wait
    state yet, or it waits for the lock in the branch of the new wait, or it is in that branch
    behind the lock of another object.
   */
  lemma OldEndsIff(kind: Kind, timed: bool, names: bool, t: TimerPc, branch: Kind, same: bool)
    requires Possible(t)
    ensures var b := Begin(kind, timed, names, t, branch, same);
      (exists r :: Leads(b, r) && EndedByOld(r)) <==> Dangerous(t, branch, kind, same)
  {
    var b := Begin(kind, timed, names, t, branch, same);
    StartInv(kind, timed);
    if Dangerous(t, branch, kind, same) {
      var r := WaiterParksFirst(b);
    } else {
      BeginIsQuiet(kind, timed, names, t, branch, same);
      forall r | Leads(b, r) ensures !EndedByOld(r) {
        var xs :| MovesRun(b, xs) && MoveAll(b, xs) == r;
        OldIsInvisible(b, xs);
        RunInv(b.now, NewOnly(xs));
        hide Run, EnabledRun, MoveAll, MovesRun, Quiet;
      }
    }
  }

  // ----- can the fiber be made ready twice? ---------------------------------------------------

  /** The old action has not ended the new wait. It looks and clears only under the new wait's own lock. */
  predicate NotYet(s: Rewait) {
    && Inv(s.now)
    && (s.kind == EventOnly || s.same)
    && (s.holds ==> s.now.qlock == Free && (s.stale == TRecheck || s.stale == TClear || s.stale == TUnlock))
    && match s.stale
       case TLock => s.shared
       case TRecheck => s.holds
       case TClear => s.holds && s.now.waiting
       case _ => s.stale == TLook || s.stale == TUnlock || s.stale == TFinish || s.stale == TDone
  }

  /** It has: nobody else can see the waiter any more. */
  predicate Ended(s: Rewait) {
    && s.now.p == PIdle && !s.now.waiting && WRank(s.now.w) <= 5 && !(3 <= TRank(s.now.t) <= 5)
    && (s.holds ==> s.now.qlock == Free)
    && match s.stale
       case TExtract => s.holds && s.now.readied == 0
       case TReady => s.holds && !s.now.inQueue && s.now.readied == 0
       case _ => !s.now.inQueue && s.now.readied == 1 && (s.stale == TUnlock || s.stale == TFinish || s.stale == TDone)
  }

  lemma WaiterLeavesLock(s: State)
    requires s.qlock == Free && s.w != WStart
    ensures WaiterStep(s).qlock == Free
  {
    match s.w case WUnlock => case _ =>
  }

  lemma PosterLeavesLock(s: State)
    requires s.qlock == Free && s.p != PIdle
    ensures PosterStep(s).qlock == Free
  {
    match s.p case PUnlock => case _ =>
  }

  lemma TimerLeavesLock(s: State)
    requires s.qlock == Free && s.t != TLock
    ensures TimerStep(s).qlock == Free
  {
    match s.t case TUnlock => case _ =>
  }

  lemma LockStaysFree(s: State, a: Actor)
    requires Enabled(s, a) && s.qlock == Free && !TakesLock(s, a)
    ensures Step(s, a).qlock == Free
  {
    match a
    case Waiter => WaiterLeavesLock(s);
    case Poster => PosterLeavesLock(s);
    case Timer => TimerLeavesLock(s);
    hide WaiterStep, PosterStep, TimerStep;
  }

  /** With the object's lock free, nobody but a new holder touches the wait flag of a parked waiter. */
  lemma StillWaiting(s: State, a: Actor)
    requires Inv(s) && Enabled(s, a) && s.qlock == Free && !TakesLock(s, a) && s.waiting
    ensures Step(s, a).waiting
  {
  }

  lemma NewBefore(s: Rewait, a: Actor)
    requires NotYet(s) && Moves(s, New(a))
    ensures NotYet(Move(s, New(a)))
  {
    StepInv(s.now, a);
    if s.holds { LockStaysFree(s.now, a); }
    if s.stale == TClear { StillWaiting(s.now, a); }
    hide Inv, Step, Enabled, TakesLock;
  }

  lemma OldBefore(s: Rewait)
    requires NotYet(s) && Moves(s, Old)
    ensures NotYet(OldStep(s)) || Ended(OldStep(s))
  {
    if s.stale == TClear { ClearedAlone(s.now); }
    hide Inv;
  }

  /** A parked waiter whose object's lock is free has not been touched by poster or timer. */
  lemma ClearedAlone(s: State)
    requires Inv(s) && s.waiting && s.qlock == Free
    ensures s.p == PIdle && WRank(s.w) <= 5 && !(3 <= TRank(s.t) <= 5) && s.readied == 0
  {
  }

  lemma NewAfter(s: Rewait, a: Actor)
    requires Ended(s) && Moves(s, New(a))
    ensures Ended(Move(s, New(a)))
  {
    if s.holds { LockStaysFree(s.now, a); }
    match a
    case Waiter => WaiterAfter(s.now);
    case Poster =>
    case Timer => TimerAfter(s.now);
  }

  lemma WaiterAfter(s: State)
    requires Enabled(s, Waiter) && WRank(s.w) <= 5
    ensures var r := WaiterStep(s);
      WRank(r.w) <= 5 && r.p == s.p && r.t == s.t && r.waiting == s.waiting && r.inQueue == s.inQueue && r.readied == s.readied
  {
    match s.w
    case WArmLock => case WLink => case WArmFlag => case WArmUnlock => case WSettle =>
    case _ =>
  }

  lemma TimerAfter(s: State)
    requires Enabled(s, Timer) && !s.waiting && !(3 <= TRank(s.t) <= 5)
    ensures var r := TimerStep(s);
      && !(3 <= TRank(r.t) <= 5) && r.p == s.p && r.w == s.w
      && r.waiting == s.waiting && r.inQueue == s.inQueue && r.readied == s.readied
  {
    match s.t
    case TIdle => case TUnlink => case TFlag => case TLook => case TLock => case TRecheck => case TUnlock => case TFinish =>
    case _ =>
  }

  lemma OldAfter(s: Rewait)
    requires Ended(s) && Moves(s, Old)
    ensures Ended(OldStep(s))
  {
  }

  lemma {:induction false} OnceWhenSheltered(s: Rewait, xs: seq<Mover>)
    requires (NotYet(s) || Ended(s)) && MovesRun(s, xs)
    ensures MoveAll(s, xs).now.readied <= 1
    decreases |xs|
  {
    if xs == [] {
      AtMostOnce(s);
    } else {
      match xs[0] {
        case Old => if NotYet(s) { OldBefore(s); } else { OldAfter(s); }
        case New(a) => if NotYet(s) { NewBefore(s, a); } else { NewAfter(s, a); }
      }
      hide NotYet, Ended, Moves, Move;
      assert xs[0].Old? ==> Move(s, xs[0]) == OldStep(s) by { OldMove(s); }
      OnceWhenSheltered(Move(s, xs[0]), xs[1..]);
    }
  }

  lemma OldMove(s: Rewait)
    ensures Move(s, Old) == OldStep(s)
  {
  }

  lemma AtMostOnce(s: Rewait)
    requires NotYet(s) || Ended(s)
    ensures s.now.readied <= 1
  {
  }

  // The other way round: behind another object's lock both the old action and the poster wake it.

  /** Waiter parked, poster under way, the timer of the new wait asleep. */
  predicate PosterGoing(s: State) { s.w == WSwitched && s.t == TIdle && (s.p == PIdle ==> Visible(s) && s.readied == 0) }

  lemma PosterGoesOn(s: State)
    requires Inv(s) && PosterGoing(s) && s.p != PDone
    ensures Enabled(s, Poster) && PosterGoing(PosterStep(s)) && PRank(PosterStep(s).p) < PRank(s.p)
  {
    FreeLocks(s);
  }

  /** A lock that none of the three holds is free. */
  lemma FreeLocks(s: State)
    ensures s.qlock != HeldBy(Waiter) && s.qlock != HeldBy(Poster) && s.qlock != HeldBy(Timer) ==> s.qlock == Free
    ensures s.wlock != HeldBy(Waiter) && s.wlock != HeldBy(Poster) && s.wlock != HeldBy(Timer) ==> s.wlock == Free
  {
    if s.qlock.HeldBy? { match s.qlock.who case Waiter => case Poster => case Timer => }
    if s.wlock.HeldBy? { match s.wlock.who case Waiter => case Poster => case Timer => }
  }

  /** The old action, past its second look, makes ready once more whatever the others did meanwhile. */
  lemma OldWakesToo(s: Rewait) returns (r: Rewait)
    requires s.stale == TClear && s.now.readied == 1
    ensures Leads(s, r) && r.now.readied == 2
  {
    var s1 := OldStep(s);
    var s2 := OldStep(s1);
    r := OldStep(s2);
    assert s1.stale == TExtract && s2.stale == TReady && r.now.readied == 2;
    assert MovesRun(r, []) && MoveAll(r, []) == r;
    assert Leads(r, r);
    hide Leads;
    LeadsBy(s2, Old, r, r);
    LeadsBy(s1, Old, s2, r);
    LeadsBy(s, Old, s1, r);
  }

  lemma {:induction false} PosterThenOld(s: Rewait) returns (r: Rewait)
    requires Inv(s.now) && PosterGoing(s.now) && s.stale == TClear && !s.holds
    ensures Leads(s, r) && r.now.readied == 2
    decreases PRank(s.now.p)
  {
    if s.now.p == PDone {
      assert s.now.readied == 1;
      r := OldWakesToo(s);
    } else {
      PosterGoesOn(s.now);
      StepInv(s.now, Poster);
      hide Leads, Inv, Enabled, PosterStep, PosterGoing;
      var m := Move(s, New(Poster));
      r := PosterThenOld(m);
      LeadsBy(s, New(Poster), m, r);
    }
  }

  /** Parked and untouched, with the old action behind another lock: it looks, the poster posts, both wake. */
  lemma LookThenBoth(s: Rewait) returns (r: Rewait)
    requires Inv(s.now) && Undisturbed(s.now) && s.now.w == WSwitched && s.now.kind == s.kind
    requires !s.holds && !s.shared && s.branch == s.kind && (s.stale == TLock || s.stale == TRecheck)
    ensures Leads(s, r) && r.now.readied == 2
    decreases if s.stale == TLock then 1 else 0
  {
    ParkedState(s.now);
    var m := OldStep(s);
    if s.stale == TLock {
      r := LookThenBoth(m);
    } else {
      r := PosterThenOld(m);
    }
    hide Leads, Inv;
    LeadsBy(s, Old, m, r);
  }

  lemma {:induction false} ParkThenBoth(s: Rewait) returns (r: Rewait)
    requires Inv(s.now) && Undisturbed(s.now) && s.now.kind == s.kind
    requires !s.holds && !s.shared && s.branch == s.kind && (s.stale == TLock || s.stale == TRecheck)
    ensures Leads(s, r) && r.now.readied == 2
    decreases WRank(s.now.w)
  {
    if s.now.w == WSwitched {
      r := LookThenBoth(s);
    } else {
      WaiterGoesOn(s.now);
      StepInv(s.now, Waiter);
      hide Leads, Inv, Enabled, WaiterStep, Undisturbed;
      var m := Move(s, New(Waiter));
      r := ParkThenBoth(m);
      LeadsBy(s, New(Waiter), m, r);
    }
  }

  /** An old action that has not looked yet looks while waitingObject still names the previous object. */
  lemma LookEarly(s: Rewait) returns (r: Rewait)
    requires s.now == Start(Queued, s.now.timed) && s.kind == Queued && !s.same && !s.named && !s.holds && s.stale == TLook
    ensures Leads(s, r) && r.now.readied == 2
  {
    StartInv(Queued, s.now.timed);
    var s1 := Move(s, New(Waiter));
    var s2 := Move(s1, New(Waiter));
    var s3 := Move(s2, New(Waiter));
    StepInv(s.now, Waiter);
    StepInv(s1.now, Waiter);
    StepInv(s2.now, Waiter);
    var s4 := OldStep(s3);
    assert s3.now.w == WCode && s3.now.waiting && !s3.named;
    assert s4.stale == TLock && !s4.shared && s4.branch == Queued && Undisturbed(s4.now);
    r := ParkThenBoth(s4);
    hide Leads, Inv;
    LeadsBy(s3, Old, s4, r);
    LeadsBy(s2, New(Waiter), s3, r);
    LeadsBy(s1, New(Waiter), s2, r);
    LeadsBy(s, New(Waiter), s1, r);
  }

  /**
    The new wait can be made ready twice iff the old action can reach it and does so behind the lock
    of another object, which happens to queued waits only.
   */
  lemma TwiceIff(kind: Kind, timed: bool, names: bool, t: TimerPc, branch: Kind, same: bool)
    requires Possible(t)
    ensures var b := Begin(kind, timed, names, t, branch, same);
      (exists r :: Leads(b, r) && r.now.readied >= 2) <==> Dangerous(t, branch, kind, same) && kind == Queued && !same
  {
    var b := Begin(kind, timed, names, t, branch, same);
    StartInv(kind, timed);
    if Dangerous(t, branch, kind, same) && kind == Queued && !same {
      var r;
      if t == TLook { r := LookEarly(b); } else { r := ParkThenBoth(b); }
    } else {
      forall r | Leads(b, r) ensures r.now.readied <= 1 {
        var xs :| MovesRun(b, xs) && MoveAll(b, xs) == r;
        if Dangerous(t, branch, kind, same) {
          assert NotYet(b);
          OnceWhenSheltered(b, xs);
        } else {
          BeginIsQuiet(kind, timed, names, t, branch, same);
          OldIsInvisible(b, xs);
          RunInv(b.now, NewOnly(xs));
        }
      }
    }
  }
}
