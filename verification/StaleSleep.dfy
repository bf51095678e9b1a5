/**
  A fiber that sleeps while an old timer action is still in progress for it. A sleep joins no queue and
  takes no lock: its own thread's timer, and the old action if it has not looked yet, go by the flag alone.
 */
module StaleSleep {
  import opened TimedWait

  datatype SleeperPc = SArm | SFlag | SSwitch | SAsleep

  /** The timer of the sleeper's own thread: off the watchdog list, look at the flag, clear it, make ready. */
  datatype WakerPc = NIdle | NLook | NClear | NReady | NDone

  /** An old action before its first look, on its way to wake a sleeper, or past all harm. */
  datatype OldPc = OLook | OClear | OReady | ODone

  datatype Sleep = Sleep(asleep: bool, linked: bool, readied: nat, sleeper: SleeperPc, waker: WakerPc, stale: OldPc)

  datatype Mover = Sleeper | Waker | Old

  /** Past its first look an old action rechecks the flags of a wait, never that of a sleep. */
  function Begin(t: TimerPc): Sleep {
    Sleep(false, false, 0, SArm, NIdle, if t == TLook then OLook else ODone)
  }

  predicate Moves(s: Sleep, x: Mover) {
    match x
    case Sleeper => s.sleeper != SAsleep
    case Waker => s.waker != NDone && (s.waker == NIdle ==> s.linked && s.sleeper == SAsleep)
    case Old => s.stale != ODone
  }

  function Move(s: Sleep, x: Mover): Sleep {
    match x
    case Sleeper =>
      (match s.sleeper
       case SArm => s.(linked := true, sleeper := SFlag)
       case SFlag => s.(asleep := true, sleeper := SSwitch)
       case _ => s.(sleeper := SAsleep))
    case Waker =>
      (match s.waker
       case NIdle => s.(linked := false, waker := NLook)
       case NLook => s.(waker := if s.asleep then NClear else NDone)
       case NClear => s.(asleep := false, waker := NReady)
       case NReady => s.(readied := s.readied + 1, waker := NDone)
       case NDone => s)
    case Old =>
      (match s.stale
       case OLook => s.(stale := if s.asleep then OClear else ODone)
       case OClear => s.(asleep := false, stale := OReady)
       case OReady => s.(readied := s.readied + 1, stale := ODone)
       case ODone => s)
  }

  predicate MovesRun(s: Sleep, xs: seq<Mover>)
    decreases |xs|
  {
    xs == [] || (Moves(s, xs[0]) && MovesRun(Move(s, xs[0]), xs[1..]))
  }

  function MoveAll(s: Sleep, xs: seq<Mover>): Sleep
    decreases |xs|
  {
    if xs == [] then s else MoveAll(Move(s, xs[0]), xs[1..])
  }

  /** Without an old action in the way: the flag is up from going to sleep to the waker clearing it. */
  predicate Undisturbed(s: Sleep) {
    && s.stale == ODone
    && (s.asleep <==> (s.sleeper == SSwitch || s.sleeper == SAsleep) && (s.waker == NIdle || s.waker == NLook || s.waker == NClear))
    && (s.linked <==> s.sleeper != SArm && s.waker == NIdle)
    && (s.waker != NIdle ==> s.sleeper == SAsleep)
    && s.readied == (if s.waker == NDone then 1 else 0)
  }

  lemma {:induction false} StaysUndisturbed(s: Sleep, xs: seq<Mover>)
    requires Undisturbed(s) && MovesRun(s, xs)
    ensures Undisturbed(MoveAll(s, xs))
    decreases |xs|
  {
    if xs != [] {
      assert Undisturbed(Move(s, xs[0]));
      hide Undisturbed, Moves, Move;
      StaysUndisturbed(Move(s, xs[0]), xs[1..]);
    }
  }

  /** From every position but before the first look, a sleep ends exactly once, by its own timer. */
  lemma SleepEndsOnce(t: TimerPc, xs: seq<Mover>)
    requires t != TLook && MovesRun(Begin(t), xs)
    ensures var s := MoveAll(Begin(t), xs);
      s.readied <= 1 && (s.readied == 1 <==> s.waker == NDone) && (s.readied == 1 ==> !s.asleep && !s.linked)
  {
    StaysUndisturbed(Begin(t), xs);
  }

  /** Ready before its time: the sleeper's own timer has not even started. */
  predicate CutShort(s: Sleep) { s.sleeper == SAsleep && s.readied == 1 && s.waker == NIdle && s.linked }

  ghost predicate Leads(s: Sleep, r: Sleep) { exists xs :: MovesRun(s, xs) && MoveAll(s, xs) == r }

  lemma LeadsBy(s: Sleep, x: Mover, m: Sleep, r: Sleep)
    requires Moves(s, x) && Move(s, x) == m && Leads(m, r)
    ensures Leads(s, r)
  {
    var xs :| MovesRun(m, xs) && MoveAll(m, xs) == r;
    hide Moves, Move;
    assert ([x] + xs)[1..] == xs;
    assert MovesRun(s, [x] + xs);
  }

  lemma Here(s: Sleep)
    ensures Leads(s, s)
  {
    assert MovesRun(s, []) && MoveAll(s, []) == s;
  }

  /** An old action that has not looked yet can cut the sleep short, and can wake the sleeper a second time. */
  lemma OldLooksAtSleep() returns (short: Sleep, twice: Sleep)
    ensures Leads(Begin(TLook), short) && CutShort(short)
    ensures Leads(Begin(TLook), twice) && twice.readied == 2
  {
    var s0 := Begin(TLook);
    var s1 := Move(s0, Sleeper);
    var s2 := Move(s1, Sleeper);
    var s3 := Move(s2, Sleeper);
    var s4 := Move(s3, Old);
    var s5 := Move(s4, Old);
    short := Move(s5, Old);
    var u5 := Move(s4, Waker);
    var u6 := Move(u5, Waker);
    var u7 := Move(u6, Waker);
    var u8 := Move(u7, Waker);
    var u9 := Move(u8, Old);
    twice := Move(u9, Old);
    Here(short);
    Here(twice);
    hide Leads;
    LeadsBy(s5, Old, short, short);
    LeadsBy(s4, Old, s5, short);
    LeadsBy(s3, Old, s4, short);
    LeadsBy(s2, Sleeper, s3, short);
    LeadsBy(s1, Sleeper, s2, short);
    LeadsBy(s0, Sleeper, s1, short);
    LeadsBy(u9, Old, twice, twice);
    LeadsBy(u8, Old, u9, twice);
    LeadsBy(u7, Waker, u8, twice);
    LeadsBy(u6, Waker, u7, twice);
    LeadsBy(u5, Waker, u6, twice);
    LeadsBy(s4, Waker, u5, twice);
    LeadsBy(s3, Old, s4, twice);
    LeadsBy(s2, Sleeper, s3, twice);
    LeadsBy(s1, Sleeper, s2, twice);
    LeadsBy(s0, Sleeper, s1, twice);
  }

  /** A sleep can be cut short, and its fiber made ready twice, iff the old action has not looked yet. */
  lemma CutShortIff(t: TimerPc)
    ensures (exists r :: Leads(Begin(t), r) && CutShort(r)) <==> t == TLook
    ensures (exists r :: Leads(Begin(t), r) && r.readied >= 2) <==> t == TLook
  {
    if t == TLook {
      var short, twice := OldLooksAtSleep();
    } else {
      forall r | Leads(Begin(t), r) ensures !CutShort(r) && r.readied < 2 {
        var xs :| MovesRun(Begin(t), xs) && MoveAll(Begin(t), xs) == r;
        SleepEndsOnce(t, xs);
      }
    }
  }
}
