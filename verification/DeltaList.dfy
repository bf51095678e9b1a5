/**
  The watchdog list of a scheduler: timeouts in delta encoding.

  Each entry stores the time between its own expiry and the expiry of the entry
  before it, so that one clock tick touches the front of the list only. The plain
  meaning of a list is the map `Times` from each armed task to its remaining time.
 */
module DeltaList {

  type Tid = nat

  datatype Entry = Entry(task: Tid, delta: int)

  // ----- meaning ---------------------------------------------------------

  predicate Has(l: seq<Entry>, t: Tid) {
    l != [] && (l[0].task == t || Has(l[1..], t))
  }

  predicate Unique(l: seq<Entry>) {
    l != [] ==> !Has(l[1..], l[0].task) && Unique(l[1..])
  }

  predicate NonNegative(l: seq<Entry>) {
    l != [] ==> l[0].delta >= 0 && NonNegative(l[1..])
  }

  /** Remaining time of t: the sum of the deltas up to and including its own. */
  function TimeOf(l: seq<Entry>, t: Tid): int
    requires Has(l, t)
  {
    l[0].delta + if l[0].task == t then 0 else TimeOf(l[1..], t)
  }

  function Sum(l: seq<Entry>): int {
    if l == [] then 0 else l[0].delta + Sum(l[1..])
  }

  function Armed(l: seq<Entry>): (ts: set<Tid>)
    ensures forall t :: t in ts <==> Has(l, t)
  {
    if l == [] then {} else {l[0].task} + Armed(l[1..])
  }

  function Times(l: seq<Entry>): (m: map<Tid, int>) {
    map t | t in Armed(l) :: TimeOf(l, t)
  }

  // ----- fiber_watchdog_insert -------------------------------------------

  function Inserted(l: seq<Entry>, t: Tid, timeout: int): seq<Entry> {
    if timeout == 0 || l == [] then [Entry(t, timeout)] + l
    else if timeout < l[0].delta then
      [Entry(t, timeout)] + ([l[0].(delta := l[0].delta - timeout)] + l[1..])
    else [l[0]] + Inserted(l[1..], t, timeout - l[0].delta)
  }

  lemma {:induction false} InsertedAt(l: seq<Entry>, t: Tid, timeout: int, x: Tid)
    requires !Has(l, t)
    ensures Has(Inserted(l, t, timeout), x) <==> x == t || Has(l, x)
    ensures x == t ==> TimeOf(Inserted(l, t, timeout), x) == timeout
    ensures x != t && Has(l, x) ==> TimeOf(Inserted(l, t, timeout), x) == TimeOf(l, x)
  {
    var r := Inserted(l, t, timeout);
    if timeout == 0 || l == [] {
      assert r[1..] == l;
    } else if timeout < l[0].delta {
      var m := [l[0].(delta := l[0].delta - timeout)] + l[1..];
      assert r[1..] == m && m[1..] == l[1..];
    } else {
      InsertedAt(l[1..], t, timeout - l[0].delta, x);
      assert r[1..] == Inserted(l[1..], t, timeout - l[0].delta);
    }
  }

  /** Arming a task adds exactly the requested time and moves no other deadline. */
  lemma InsertedTimes(l: seq<Entry>, t: Tid, timeout: int)
    requires !Has(l, t)
    ensures Times(Inserted(l, t, timeout)) == Times(l)[t := timeout]
  {
    forall x { InsertedAt(l, t, timeout, x); }
  }

  lemma {:induction false} InsertedUnique(l: seq<Entry>, t: Tid, timeout: int)
    requires !Has(l, t) && Unique(l)
    ensures Unique(Inserted(l, t, timeout))
  {
    var r := Inserted(l, t, timeout);
    if timeout == 0 || l == [] {
      assert r[1..] == l;
    } else if timeout < l[0].delta {
      var m := [l[0].(delta := l[0].delta - timeout)] + l[1..];
      assert r[1..] == m && m[1..] == l[1..];
    } else {
      InsertedUnique(l[1..], t, timeout - l[0].delta);
      InsertedAt(l[1..], t, timeout - l[0].delta, l[0].task);
      assert r[1..] == Inserted(l[1..], t, timeout - l[0].delta);
    }
  }

  lemma {:induction false} InsertedNonNegative(l: seq<Entry>, t: Tid, timeout: int)
    requires NonNegative(l) && timeout >= 0
    ensures NonNegative(Inserted(l, t, timeout))
  {
    var r := Inserted(l, t, timeout);
    if timeout == 0 || l == [] {
      assert r[1..] == l;
    } else if timeout < l[0].delta {
      var m := [l[0].(delta := l[0].delta - timeout)] + l[1..];
      assert r[1..] == m && m[1..] == l[1..];
    } else {
      InsertedNonNegative(l[1..], t, timeout - l[0].delta);
      assert r[1..] == Inserted(l[1..], t, timeout - l[0].delta);
    }
  }

  /** The fibers of a list, first to expire first. */
  function Order(l: seq<Entry>): seq<Tid> {
    if l == [] then [] else [l[0].task] + Order(l[1..])
  }

  lemma {:induction false} OrderSize(l: seq<Entry>)
    ensures |Order(l)| == |l|
  {
    if l != [] { OrderSize(l[1..]); }
  }

  lemma {:induction false} OrderHas(l: seq<Entry>, t: Tid)
    ensures t in Order(l) <==> Has(l, t)
  {
    if l != [] { OrderHas(l[1..], t); }
  }

  lemma OrderOf(e: Entry, l: seq<Entry>)
    ensures Order([e] + l) == [e.task] + Order(l)
  {
    assert ([e] + l)[1..] == l;
  }

  lemma {:induction false} EntryTime(l: seq<Entry>, i: nat)
    requires Unique(l) && i < |l|
    ensures Has(l, l[i].task)
    ensures i > 0 ==> Has(l[1..], l[i].task) && TimeOf(l, l[i].task) == l[0].delta + TimeOf(l[1..], l[i].task)
    ensures i == 0 ==> TimeOf(l, l[i].task) == l[0].delta
  {
    if i > 0 { EntryTime(l[1..], i - 1); }
  }

  /** Time of the i-th entry. */
  function TimeAt(l: seq<Entry>, i: nat): int
    requires Unique(l) && i < |l|
  {
    EntryTime(l, i);
    TimeOf(l, l[i].task)
  }

  lemma TimeAtNext(l: seq<Entry>, i: nat)
    requires Unique(l) && NonNegative(l) && i < |l|
    ensures TimeAt(l, i) >= l[0].delta >= 0
    ensures i == 0 ==> TimeAt(l, i) == l[0].delta
    ensures i > 0 ==> TimeAt(l, i) == l[0].delta + TimeAt(l[1..], i - 1)
  {
    EntryTime(l, i);
    TimeNonNegative(l, l[i].task);
  }

  /** Whether entry i still expires before a fiber inserted now: it is due earlier, or the first of those due with it. */
  predicate GoesFirst(l: seq<Entry>, i: nat, timeout: int)
    requires Unique(l) && i < |l|
  {
    || TimeAt(l, i) < timeout
    || (TimeAt(l, i) == timeout > 0 && (i > 0 ==> TimeAt(l, i - 1) < timeout))
  }

  lemma GoesFirstNext(l: seq<Entry>, i: nat, timeout: int)
    requires Unique(l) && NonNegative(l) && i < |l| && timeout >= 0
    ensures timeout == 0 || timeout < l[0].delta ==> !GoesFirst(l, i, timeout)
    ensures timeout > 0 && timeout >= l[0].delta ==>
      if i == 0 then GoesFirst(l, i, timeout)
      else GoesFirst(l, i, timeout) <==> GoesFirst(l[1..], i - 1, timeout - l[0].delta)
  {
    TimeAtNext(l, i);
    if i > 0 { TimeAtNext(l, i - 1); }
    if i > 1 { TimeAtNext(l[1..], i - 1); TimeAtNext(l[1..], i - 2); }
    hide TimeAt, Unique, NonNegative;
  }

  lemma PlacedFront(l: seq<Entry>, t: Tid, timeout: int)
    requires timeout == 0 || l == [] || timeout < l[0].delta
    ensures Order(Inserted(l, t, timeout)) == [t] + Order(l)
  {
    if timeout == 0 || l == [] {
      OrderOf(Entry(t, timeout), l);
    } else {
      var e := l[0].(delta := l[0].delta - timeout);
      OrderOf(Entry(t, timeout), [e] + l[1..]);
      OrderOf(e, l[1..]);
    }
  }

  /**
    The order of expiry: nobody else changes places, and the new fiber stands behind everybody due
    earlier and, unless it asks for no time at all, behind the first of those due with it. The
    other ones due with it, and everybody due later, come after it.
   */
  lemma {:induction false} InsertedOrder(l: seq<Entry>, t: Tid, timeout: int) returns (p: nat)
    requires Unique(l) && NonNegative(l) && timeout >= 0
    ensures p <= |l| == |Order(l)| && Order(Inserted(l, t, timeout)) == Order(l)[..p] + [t] + Order(l)[p..]
    ensures forall i: nat :: i < |l| ==> (i < p <==> GoesFirst(l, i, timeout))
  {
    OrderSize(l);
    if timeout == 0 || l == [] || timeout < l[0].delta {
      p := 0;
      PlacedFront(l, t, timeout);
    } else {
      var q := InsertedOrder(l[1..], t, timeout - l[0].delta);
      p := q + 1;
      OrderOf(l[0], Inserted(l[1..], t, timeout - l[0].delta));
    }
    hide GoesFirst, TimeAt, Order, Inserted;
    forall i: nat | i < |l| ensures i < p <==> GoesFirst(l, i, timeout) {
      GoesFirstNext(l, i, timeout);
    }
  }

  /** The walk of the source: subtract each delta passed, split the one that is larger. */
  method WalkInsert(list: seq<Entry>, t: Tid, timeout: int) returns (r: seq<Entry>)
    ensures r == Inserted(list, t, timeout)
  {
    var left := timeout;
    var after := 0;
    while left != 0 && after < |list| && left >= list[after].delta
      invariant after <= |list|
      invariant Inserted(list, t, timeout) == list[..after] + Inserted(list[after..], t, left)
      decreases |list| - after
    {
      InsertedSkip(list, after, t, left);
      left := left - list[after].delta;
      after := after + 1;
    }
    if left != 0 && after < |list| {
      r := list[..after] + [Entry(t, left)] + [list[after].(delta := list[after].delta - left)] + list[after + 1..];
      InsertedHere(list, after, t, left);
    } else {
      r := list[..after] + [Entry(t, left)] + list[after..];
      InsertedHere(list, after, t, left);
    }
  }

  lemma InsertedHere(list: seq<Entry>, k: nat, t: Tid, left: int)
    requires k <= |list|
    ensures left == 0 || k == |list| ==>
      list[..k] + Inserted(list[k..], t, left) == list[..k] + [Entry(t, left)] + list[k..]
    ensures left != 0 && k < |list| && left < list[k].delta ==>
      list[..k] + Inserted(list[k..], t, left) ==
      list[..k] + [Entry(t, left)] + [list[k].(delta := list[k].delta - left)] + list[k + 1..]
  {
    if k < |list| { assert list[k..][1..] == list[k + 1..]; }
  }

  lemma InsertedSkip(list: seq<Entry>, k: nat, t: Tid, left: int)
    requires k < |list| && left != 0 && left >= list[k].delta
    ensures list[..k] + Inserted(list[k..], t, left)
            == list[..k + 1] + Inserted(list[k + 1..], t, left - list[k].delta)
  {
    assert list[k..][1..] == list[k + 1..];
    assert list[..k + 1] == list[..k] + [list[k]];
  }

  // ----- fiber_watchdog_remove -------------------------------------------

  function Removed(l: seq<Entry>, t: Tid): seq<Entry> {
    if l == [] then []
    else if l[0].task == t then
      if |l| == 1 then [] else [l[1].(delta := l[1].delta + l[0].delta)] + l[2..]
    else [l[0]] + Removed(l[1..], t)
  }

  lemma {:induction false} RemovedAt(l: seq<Entry>, t: Tid, x: Tid)
    requires Unique(l)
    ensures Has(Removed(l, t), x) <==> Has(l, x) && x != t
    ensures x != t && Has(l, x) ==> TimeOf(Removed(l, t), x) == TimeOf(l, x)
  {
    var r := Removed(l, t);
    if l != [] {
      if l[0].task == t {
        if |l| > 1 {
          assert l[1..][1..] == l[2..];
          assert r[1..] == l[2..];
        }
      } else {
        RemovedAt(l[1..], t, x);
        assert r[1..] == Removed(l[1..], t);
      }
    }
  }

  /** Disarming a task moves no other deadline. */
  lemma RemovedTimes(l: seq<Entry>, t: Tid)
    requires Unique(l)
    ensures Times(Removed(l, t)) == Times(l) - {t}
  {
    forall x { RemovedAt(l, t, x); }
  }

  lemma {:induction false} RemovedUnique(l: seq<Entry>, t: Tid)
    requires Unique(l)
    ensures Unique(Removed(l, t))
    ensures NonNegative(l) ==> NonNegative(Removed(l, t))
  {
    var r := Removed(l, t);
    if l != [] {
      if l[0].task == t {
        if |l| > 1 {
          assert l[1..][1..] == l[2..];
          assert r[1..] == l[2..];
          assert NonNegative(l) ==> NonNegative(l[1..]);
        }
      } else {
        RemovedUnique(l[1..], t);
        RemovedAt(l[1..], t, l[0].task);
        assert r[1..] == Removed(l[1..], t);
      }
    }
  }

  lemma RemovedSkip(list: seq<Entry>, k: nat, t: Tid)
    requires k < |list|
    ensures list[k].task != t ==>
      list[..k] + Removed(list[k..], t) == list[..k + 1] + Removed(list[k + 1..], t)
    ensures list[k].task == t ==>
      list[..k] + Removed(list[k..], t) ==
      if k + 1 == |list| then list[..k]
      else list[..k] + [list[k + 1].(delta := list[k + 1].delta + list[k].delta)] + list[k + 2..]
  {
    assert list[k..][1..] == list[k + 1..];
    if list[k].task != t {
      assert list[..k + 1] == list[..k] + [list[k]];
    } else if k + 1 < |list| {
      assert list[k..][2..] == list[k + 2..];
    }
  }

  /** Splicing by position, as the source does: the successor absorbs the delta. */
  method Splice(list: seq<Entry>, t: Tid) returns (r: seq<Entry>)
    requires Has(list, t)
    ensures r == Removed(list, t)
  {
    var i := 0;
    while list[i].task != t
      invariant i < |list| && Has(list[i..], t)
      invariant Removed(list, t) == list[..i] + Removed(list[i..], t)
      decreases |list| - i
    {
      RemovedSkip(list, i, t);
      assert list[i..][1..] == list[i + 1..];
      i := i + 1;
    }
    RemovedSkip(list, i, t);
    if i + 1 < |list| {
      r := list[..i] + [list[i + 1].(delta := list[i + 1].delta + list[i].delta)] + list[i + 2..];
    } else {
      r := list[..i];
    }
  }

  // ----- fiber_watchdog_tickle -------------------------------------------

  /** The entries one tick of `gap` fires: the walk stops at the first larger delta. */
  function Fired(l: seq<Entry>, gap: int): seq<Entry> {
    if l == [] || l[0].delta > gap then [] else [l[0]] + Fired(l[1..], gap)
  }

  function Survivors(l: seq<Entry>, gap: int): seq<Entry> {
    if l == [] then []
    else if l[0].delta <= gap then Survivors(l[1..], gap)
    else [l[0].(delta := l[0].delta - gap)] + l[1..]
  }

  /**
    Exact effect of a tick on each task: it fires or survives, never both, and a
    survivor loses the gap AND every delta that fired before it.
   */
  lemma {:induction false} TickAt(l: seq<Entry>, gap: int, x: Tid)
    requires Unique(l)
    ensures Has(l, x) <==> Has(Fired(l, gap), x) || Has(Survivors(l, gap), x)
    ensures !(Has(Fired(l, gap), x) && Has(Survivors(l, gap), x))
    ensures Has(Survivors(l, gap), x) ==>
      TimeOf(Survivors(l, gap), x) == TimeOf(l, x) - gap - Sum(Fired(l, gap))
    ensures Has(Fired(l, gap), x) ==> TimeOf(Fired(l, gap), x) == TimeOf(l, x)
  {
    if l != [] {
      if l[0].delta <= gap {
        TickAt(l[1..], gap, x);
        assert Fired(l, gap)[1..] == Fired(l[1..], gap);
        if l[0].task == x { } else { }
      } else {
        assert Survivors(l, gap)[1..] == l[1..];
      }
    }
  }

  /** A tick fires from the front: those fired, then those left, are the list in its order. */
  lemma {:induction false} TickOrder(l: seq<Entry>, gap: int)
    ensures Order(l) == Order(Fired(l, gap)) + Order(Survivors(l, gap))
  {
    if l != [] {
      if l[0].delta <= gap {
        TickOrder(l[1..], gap);
        OrderOf(l[0], Fired(l[1..], gap));
      } else {
        OrderOf(l[0].(delta := l[0].delta - gap), l[1..]);
      }
    }
  }

  lemma {:induction false} TickUnique(l: seq<Entry>, gap: int)
    requires Unique(l)
    ensures Unique(Survivors(l, gap))
    ensures gap >= 0 && NonNegative(l) ==> NonNegative(Survivors(l, gap)) && Sum(Fired(l, gap)) >= 0
  {
    if l != [] {
      if l[0].delta <= gap {
        TickUnique(l[1..], gap);
        assert Fired(l, gap)[1..] == Fired(l[1..], gap);
      } else {
        assert Survivors(l, gap)[1..] == l[1..];
      }
    }
  }

  lemma {:induction false} TimeNonNegative(l: seq<Entry>, x: Tid)
    requires NonNegative(l) && Has(l, x)
    ensures TimeOf(l, x) >= l[0].delta
  {
    if l[0].task != x { TimeNonNegative(l[1..], x); }
  }

  /** Never late, one tick: every task due within the gap is among the fired ones. */
  lemma {:induction false} DueFires(l: seq<Entry>, gap: int, x: Tid)
    requires NonNegative(l) && Has(l, x) && TimeOf(l, x) <= gap
    ensures Has(Fired(l, gap), x)
  {
    TimeNonNegative(l, x);
    assert Fired(l, gap)[1..] == Fired(l[1..], gap);
    if l[0].task != x {
      DueFires(l[1..], gap, x);
    }
  }

  lemma {:induction false} FiredWithinSum(l: seq<Entry>, x: Tid)
    requires NonNegative(l) && Has(l, x)
    ensures TimeOf(l, x) <= Sum(l)
  {
    if l[0].task == x { SumNonNegative(l[1..]); } else { FiredWithinSum(l[1..], x); }
  }

  lemma {:induction false} SumNonNegative(l: seq<Entry>)
    requires NonNegative(l)
    ensures Sum(l) >= 0
  {
    if l != [] { SumNonNegative(l[1..]); }
  }

  lemma {:induction false} FiredNonNegative(l: seq<Entry>, gap: int)
    requires NonNegative(l)
    ensures NonNegative(Fired(l, gap))
  {
    if l != [] && l[0].delta <= gap {
      FiredNonNegative(l[1..], gap);
      assert Fired(l, gap)[1..] == Fired(l[1..], gap);
    }
  }

  lemma {:induction false} LastTime(l: seq<Entry>)
    requires Unique(l) && l != []
    ensures Has(l, l[|l| - 1].task) && TimeOf(l, l[|l| - 1].task) == Sum(l)
  {
    if |l| > 1 { LastTime(l[1..]); } else { assert l[1..] == []; }
  }

  lemma {:induction false} FiredUnique(l: seq<Entry>, gap: int)
    requires Unique(l)
    ensures Unique(Fired(l, gap))
  {
    if l != [] && l[0].delta <= gap {
      FiredUnique(l[1..], gap);
      TickAt(l[1..], gap, l[0].task);
      assert Fired(l, gap)[1..] == Fired(l[1..], gap);
    }
  }

  /** What a tick should do to the remaining times: drop those due, count the others down. */
  function Countdown(m: map<Tid, int>, gap: int): map<Tid, int> {
    map t | t in m && m[t] > gap :: m[t] - gap
  }

  /** Everybody is due. */
  ghost predicate AllDue(m: map<Tid, int>, gap: int) { forall t :: t in m ==> m[t] <= gap }

  /** Whoever is not due at this very instant has more than the gap left. */
  ghost predicate NoneBetween(m: map<Tid, int>, gap: int) { forall t :: t in m ==> m[t] == 0 || m[t] > gap }

  lemma TimesAt(l: seq<Entry>, x: Tid)
    ensures x in Times(l) <==> Has(l, x)
    ensures x in Times(l) ==> Times(l)[x] == TimeOf(l, x)
  {
  }

  /** A task that survives is not due, one that fires keeps its place in the map of times. */
  lemma TickTimes(l: seq<Entry>, gap: int, x: Tid)
    requires Unique(l) && NonNegative(l) && gap >= 0
    ensures x in Countdown(Times(l), gap) ==> TimeOf(l, x) > gap && Countdown(Times(l), gap)[x] == TimeOf(l, x) - gap
    ensures x in Countdown(Times(l), gap) <==> Has(l, x) && TimeOf(l, x) > gap
    ensures x in Times(Survivors(l, gap)) <==> Has(Survivors(l, gap), x)
    ensures Has(Survivors(l, gap), x) ==> Has(l, x) && TimeOf(l, x) > gap
    ensures Has(Survivors(l, gap), x) ==>
      Times(Survivors(l, gap))[x] == TimeOf(l, x) - gap - Sum(Fired(l, gap))
    ensures Has(l, x) && !Has(Survivors(l, gap), x) ==> Has(Fired(l, gap), x) && TimeOf(l, x) <= Sum(Fired(l, gap))
  {
    TimesAt(l, x);
    TimesAt(Survivors(l, gap), x);
    TickAt(l, gap, x);
    if Has(Survivors(l, gap), x) && TimeOf(l, x) <= gap { DueFires(l, gap, x); }
    if Has(Fired(l, gap), x) { FiredNonNegative(l, gap); FiredWithinSum(Fired(l, gap), x); }
  }

  /** Either nothing survives, or the first survivor has more than the gap on top of what fired. */
  lemma {:induction false} FirstSurvivor(l: seq<Entry>, gap: int)
    requires Unique(l) && NonNegative(l) && gap >= 0 && Survivors(l, gap) != []
    ensures var x := Survivors(l, gap)[0].task;
      Has(l, x) && Has(Survivors(l, gap), x) && TimeOf(l, x) > gap + Sum(Fired(l, gap))
  {
    if l[0].delta <= gap {
      FirstSurvivor(l[1..], gap);
      TickAt(l[1..], gap, Survivors(l, gap)[0].task);
      assert Fired(l, gap)[1..] == Fired(l[1..], gap);
    }
  }

  /** If time fires at all, some task fires that is due in the gap but not at once. */
  lemma {:induction false} FirstPositive(l: seq<Entry>, gap: int) returns (x: Tid)
    requires Unique(l) && NonNegative(l) && Sum(Fired(l, gap)) > 0
    ensures Has(l, x) && 0 < TimeOf(l, x) <= gap
  {
    assert Fired(l, gap)[1..] == Fired(l[1..], gap);
    if l[0].delta > 0 { x := l[0].task; } else { x := FirstPositive(l[1..], gap); }
  }

  lemma AllDueIff(l: seq<Entry>, gap: int)
    requires Unique(l) && NonNegative(l) && gap >= 0
    ensures AllDue(Times(l), gap) <==> Sum(Fired(l, gap)) <= gap && Survivors(l, gap) == []
  {
    var f, s := Fired(l, gap), Survivors(l, gap);
    if AllDue(Times(l), gap) {
      if s != [] { FirstSurvivor(l, gap); TimesAt(l, s[0].task); FiredNonNegative(l, gap); SumNonNegative(f); }
      if f != [] {
        FiredUnique(l, gap);
        LastTime(f);
        TickAt(l, gap, f[|f| - 1].task);
        TimesAt(l, f[|f| - 1].task);
      }
    } else {
      var x :| x in Times(l) && Times(l)[x] > gap;
      TimesAt(l, x);
      TickTimes(l, gap, x);
    }
  }

  lemma NoneBetweenIff(l: seq<Entry>, gap: int)
    requires Unique(l) && NonNegative(l) && gap >= 0
    ensures NoneBetween(Times(l), gap) <==> Sum(Fired(l, gap)) == 0
  {
    FiredNonNegative(l, gap);
    SumNonNegative(Fired(l, gap));
    if Sum(Fired(l, gap)) > 0 {
      var x := FirstPositive(l, gap);
      TimesAt(l, x);
    } else {
      forall x | x in Times(l) ensures Times(l)[x] == 0 || Times(l)[x] > gap {
        TimesAt(l, x);
        TickTimes(l, gap, x);
        TimeNonNegative(l, x);
      }
    }
  }

  /**
    A tick is a countdown of every remaining time, nobody fired early and nobody shortened, iff
    everybody is due or whoever is not due at once has more than the gap left.
   */
  lemma TickIsExactIff(l: seq<Entry>, gap: int)
    requires Unique(l) && NonNegative(l) && gap >= 0
    ensures Times(Survivors(l, gap)) == Countdown(Times(l), gap)
      <==> AllDue(Times(l), gap) || NoneBetween(Times(l), gap)
  {
    AllDueIff(l, gap);
    NoneBetweenIff(l, gap);
    var s, c := Times(Survivors(l, gap)), Countdown(Times(l), gap);
    if AllDue(Times(l), gap) || NoneBetween(Times(l), gap) {
      forall x ensures x in s <==> x in c
        ensures x in s && x in c ==> s[x] == c[x]
      {
        TickTimes(l, gap, x);
      }
      assert s == c;
    } else {
      var x := Distorted(l, gap);
      TickTimes(l, gap, x);
    }
  }

  /** A tick that is not a countdown fires somebody early or leaves somebody with too little time. */
  lemma Distorted(l: seq<Entry>, gap: int) returns (x: Tid)
    requires Unique(l) && NonNegative(l) && gap >= 0
    requires !AllDue(Times(l), gap) && !NoneBetween(Times(l), gap)
    ensures Has(l, x) && TimeOf(l, x) > gap
    ensures Has(Survivors(l, gap), x) ==> TimeOf(Survivors(l, gap), x) < TimeOf(l, x) - gap
  {
    AllDueIff(l, gap);
    NoneBetweenIff(l, gap);
    FiredNonNegative(l, gap);
    SumNonNegative(Fired(l, gap));
    x :| x in Times(l) && Times(l)[x] > gap;
    TimesAt(l, x);
    TickAt(l, gap, x);
  }

  // ----- whole runs ------------------------------------------------------

  /** Fibers arm and disarm timers, time passes, and the scheduler loop ticks. */
  datatype Event = Arm(t: Tid, timeout: int) | Disarm(t: Tid) | Pass(time: int) | Tick

  /**
    The list, the instant of the last tick, the present instant, and the instant each armed task
    asked for. The loop measures the gap from tick to tick; calls happen in between.
   */
  datatype Wheel = Wheel(list: seq<Entry>, last: int, now: int, deadline: map<Tid, int>)

  function Gap(w: Wheel): int { w.now - w.last }

  predicate Allowed(w: Wheel, e: Event) {
    match e
    case Arm(t, _) => !Has(w.list, t)
    case Disarm(t) => Has(w.list, t)
    case Pass(time) => time >= 0
    case Tick => Gap(w) > 0
  }

  function Advance(w: Wheel, e: Event): Wheel
    requires Allowed(w, e)
  {
    match e
    case Arm(t, timeout) => w.(list := Inserted(w.list, t, timeout), deadline := w.deadline[t := w.now + timeout])
    case Disarm(t) => w.(list := Removed(w.list, t))
    case Pass(time) => w.(now := w.now + time)
    case Tick => w.(list := Survivors(w.list, Gap(w)), last := w.now)
  }

  predicate AllowedRun(w: Wheel, es: seq<Event>)
    decreases |es|
  {
    es == [] || (Allowed(w, es[0]) && AllowedRun(Advance(w, es[0]), es[1..]))
  }

  function Final(w: Wheel, es: seq<Event>): Wheel
    requires AllowedRun(w, es)
    decreases |es|
  {
    if es == [] then w else Final(Advance(w, es[0]), es[1..])
  }

  predicate NoNegativeRequest(es: seq<Event>) {
    forall i :: 0 <= i < |es| && es[i].Arm? ==> es[i].timeout >= 0
  }

  // ----- nobody is late ----------------------------------------------------

  /** Counted from the last tick, stored times never overshoot the deadline that was asked for. */
  ghost predicate OnTime(w: Wheel) {
    && Unique(w.list)
    && NonNegative(w.list)
    && w.last <= w.now
    && forall t :: Has(w.list, t) ==> t in w.deadline && w.last + TimeOf(w.list, t) <= w.deadline[t]
  }

  lemma AdvanceKeepsOnTime(w: Wheel, e: Event)
    requires OnTime(w) && Allowed(w, e) && (e.Arm? ==> e.timeout >= 0)
    ensures OnTime(Advance(w, e))
  {
    match e
    case Arm(t, timeout) =>
      forall x { InsertedAt(w.list, t, timeout, x); }
      InsertedUnique(w.list, t, timeout);
      InsertedNonNegative(w.list, t, timeout);
    case Disarm(t) =>
      forall x { RemovedAt(w.list, t, x); }
      RemovedUnique(w.list, t);
    case Pass(_) =>
    case Tick =>
      SurvivorsOnTime(w);
  }

  lemma SurvivorsOnTime(w: Wheel)
    requires OnTime(w) && Gap(w) > 0
    ensures OnTime(Advance(w, Tick))
  {
    TickUnique(w.list, Gap(w));
    forall x | Has(Survivors(w.list, Gap(w)), x)
      ensures x in w.deadline && w.now + TimeOf(Survivors(w.list, Gap(w)), x) <= w.deadline[x]
    {
      TickAt(w.list, Gap(w), x);
    }
  }

  lemma {:induction false} RunKeepsOnTime(w: Wheel, es: seq<Event>)
    requires OnTime(w) && AllowedRun(w, es) && NoNegativeRequest(es)
    ensures OnTime(Final(w, es))
    decreases |es|
  {
    if es != [] {
      AdvanceKeepsOnTime(w, es[0]);
      RunKeepsOnTime(Advance(w, es[0]), es[1..]);
    }
  }

  /** After a tick, whoever is still armed asked for an instant that has not come yet. */
  lemma TickLeavesNoneLate(w: Wheel, t: Tid)
    requires OnTime(w) && Gap(w) > 0 && Has(Survivors(w.list, Gap(w)), t)
    ensures t in w.deadline && w.deadline[t] > w.now
  {
    TickAt(w.list, Gap(w), t);
    if TimeOf(w.list, t) <= Gap(w) { DueFires(w.list, Gap(w), t); }
  }

  /** Over every run without negative requests, a tick leaves no expired task on the list. */
  lemma NeverLate(w: Wheel, es: seq<Event>, t: Tid)
    requires OnTime(w) && AllowedRun(w, es) && NoNegativeRequest(es) && Allowed(Final(w, es), Tick)
    requires Has(Advance(Final(w, es), Tick).list, t)
    ensures var after := Advance(Final(w, es), Tick);
            t in after.deadline && after.deadline[t] > after.now
  {
    RunKeepsOnTime(w, es);
    TickLeavesNoneLate(Final(w, es), t);
  }

  function Midnight(): Wheel { Wheel([], 0, 0, map[]) }

  /** Requests of at least b, in a run from an empty list that ends with a tick. */
  predicate RunAbove(es: seq<Event>, b: int) {
    && AllowedRun(Midnight(), es)
    && (forall i :: 0 <= i < |es| && es[i].Arm? ==> es[i].timeout >= b)
    && Allowed(Final(Midnight(), es), Tick)
  }

  predicate LateAfter(es: seq<Event>, t: Tid)
    requires AllowedRun(Midnight(), es) && Allowed(Final(Midnight(), es), Tick)
  {
    var after := Advance(Final(Midnight(), es), Tick);
    Has(after.list, t) && (t in after.deadline ==> after.deadline[t] <= after.now)
  }

  /** A lower bound on the requests keeps everybody from being late iff it is not negative. */
  lemma NeverLateIff(b: int)
    ensures (forall es, t :: RunAbove(es, b) ==> !LateAfter(es, t)) <==> b >= 0
  {
    if b >= 0 {
      forall es, t | RunAbove(es, b) ensures !LateAfter(es, t) {
        if Has(Advance(Final(Midnight(), es), Tick).list, t) { NeverLate(Midnight(), es, t); }
      }
    } else {
      NegativeRequestDelaysOthers(b);
      assert RunAbove(DelayingRun(b), b) && LateAfter(DelayingRun(b), 2);
    }
  }

  function DelayingRun(r: int): seq<Event> { [Arm(1, r), Arm(2, 1), Pass(1)] }

  /** A negative request delays whoever is armed behind it: its entry absorbs the negative delta. */
  lemma NegativeRequestDelaysOthers(r: int)
    requires r < 0
    ensures AllowedRun(Midnight(), DelayingRun(r)) && Allowed(Final(Midnight(), DelayingRun(r)), Tick)
    ensures LateAfter(DelayingRun(r), 2)
  {
    var es := DelayingRun(r);
    var w := Midnight();
    var w1 := Advance(w, Arm(1, r));
    assert w1.list == [Entry(1, r)] && w1.list[1..] == [];
    assert Inserted([], 2, 1 - r) == [Entry(2, 1 - r)];
    var w2 := Advance(w1, Arm(2, 1));
    assert w2.list == [Entry(1, r), Entry(2, 1 - r)];
    var w3 := Advance(w2, Pass(1));
    assert es[1..] == [Arm(2, 1), Pass(1)] && es[1..][1..] == [Pass(1)] && es[1..][1..][1..] == [];
    assert AllowedRun(w2, es[1..][1..]) && Final(w2, es[1..][1..]) == w3;
    assert AllowedRun(w1, es[1..]) && Final(w1, es[1..]) == w3;
    assert AllowedRun(w, es) && Final(w, es) == w3;
    assert w3.list[1..] == [Entry(2, 1 - r)];
    assert Survivors([Entry(2, 1 - r)], 1) == [Entry(2, -r)];
    assert Survivors(w3.list, 1) == [Entry(2, -r)];
  }

  // ----- waking early ------------------------------------------------------

  /** How far the timer of t runs ahead of the deadline it was armed for. */
  function Lead(w: Wheel, t: Tid): int
    requires Has(w.list, t) && t in w.deadline
  {
    w.deadline[t] - (w.last + TimeOf(w.list, t))
  }

  /** Every armed task has a deadline. */
  ghost predicate Dated(w: Wheel) { Unique(w.list) && forall t :: Has(w.list, t) ==> t in w.deadline }

  lemma AdvanceKeepsDated(w: Wheel, e: Event)
    requires Dated(w) && Allowed(w, e)
    ensures Dated(Advance(w, e))
  {
    match e
    case Arm(t, timeout) =>
      forall x { InsertedAt(w.list, t, timeout, x); }
      InsertedUnique(w.list, t, timeout);
    case Disarm(t) =>
      forall x { RemovedAt(w.list, t, x); }
      RemovedUnique(w.list, t);
    case Pass(_) =>
    case Tick =>
      forall x { TickAt(w.list, Gap(w), x); }
      TickUnique(w.list, Gap(w));
  }

  /** What one event adds to the lead of everybody it leaves armed: a tick, the deltas it fires. */
  function Hurry(w: Wheel, e: Event): int { if e.Tick? then Sum(Fired(w.list, Gap(w))) else 0 }

  /** A timer starts ahead by the time since the last tick, and gains what every tick fires before it. */
  lemma LeadStep(w: Wheel, e: Event, t: Tid)
    requires Dated(w) && Allowed(w, e) && Has(Advance(w, e).list, t)
    ensures Dated(Advance(w, e))
    ensures e.Arm? && e.t == t ==> Lead(Advance(w, e), t) == Gap(w)
    ensures !(e.Arm? && e.t == t) ==> Has(w.list, t) && Lead(Advance(w, e), t) == Lead(w, t) + Hurry(w, e)
  {
    AdvanceKeepsDated(w, e);
    match e
    case Arm(u, timeout) => InsertedAt(w.list, u, timeout, t);
    case Disarm(u) => RemovedAt(w.list, u, t);
    case Pass(_) =>
    case Tick => TickAt(w.list, Gap(w), t);
  }

  /** Task t stays armed by one and the same call throughout the run. */
  predicate StaysArmed(w: Wheel, es: seq<Event>, t: Tid)
    requires AllowedRun(w, es)
    decreases |es|
  {
    Has(w.list, t) && (es == [] || StaysArmed(Advance(w, es[0]), es[1..], t))
  }

  function HurryOf(w: Wheel, es: seq<Event>): int
    requires AllowedRun(w, es)
    decreases |es|
  {
    if es == [] then 0 else Hurry(w, es[0]) + HurryOf(Advance(w, es[0]), es[1..])
  }

  /** Exactly how early, over every run: the lead is the lead at the start plus all deltas fired since. */
  lemma {:induction false} LeadLaw(w: Wheel, es: seq<Event>, t: Tid)
    requires Dated(w) && AllowedRun(w, es) && StaysArmed(w, es, t)
    ensures Dated(Final(w, es)) && Has(Final(w, es).list, t)
    ensures Lead(Final(w, es), t) == Lead(w, t) + HurryOf(w, es)
    decreases |es|
  {
    if es != [] {
      LeadStep(w, es[0], t);
      LeadLaw(Advance(w, es[0]), es[1..], t);
    }
  }

  /** Exactly how early a wake is: the lead gathered so far, plus what the tick took off beyond its gap. */
  lemma WakeLaw(w: Wheel, es: seq<Event>, t: Tid)
    requires Dated(w) && AllowedRun(w, es) && StaysArmed(w, es, t) && Allowed(Final(w, es), Tick)
    requires Has(Fired(Final(w, es).list, Gap(Final(w, es))), t)
    ensures var b := Final(w, es);
      && Has(b.list, t) && t in b.deadline
      && b.deadline[t] - b.now == Lead(w, t) + HurryOf(w, es) + TimeOf(b.list, t) - Gap(b)
      && (WokenEarly(b, Tick, t) <==> Lead(w, t) + HurryOf(w, es) + TimeOf(b.list, t) > Gap(b))
  {
    LeadLaw(w, es, t);
  }

  /** The stored times are exactly the times from the last tick to the deadlines asked for. */
  ghost predicate Punctual(w: Wheel) {
    && Unique(w.list)
    && NonNegative(w.list)
    && w.last <= w.now
    && forall t :: Has(w.list, t) ==> t in w.deadline && Lead(w, t) == 0
  }

  /** A tick finds everybody due, or nobody due later in the gap; a call arms at the instant of a tick. */
  ghost predicate MeetsGuard(w: Wheel, e: Event) {
    match e
    case Tick => AllDue(Times(w.list), Gap(w)) || NoneBetween(Times(w.list), Gap(w))
    case Arm(_, _) => Gap(w) == 0
    case _ => true
  }

  /** Task t leaves the list in this tick, before its deadline. */
  predicate WokenEarly(w: Wheel, e: Event, t: Tid) {
    e.Tick? && Has(w.list, t) && Has(Fired(w.list, Gap(w)), t) && t in w.deadline && w.deadline[t] > w.now
  }

  /** Task t is on the list with less than the time it has left. */
  predicate RunsFast(w: Wheel, t: Tid) {
    Has(w.list, t) && t in w.deadline && Lead(w, t) > 0
  }

  lemma GuardKeepsPunctual(w: Wheel, e: Event)
    requires Punctual(w) && Allowed(w, e) && (e.Arm? ==> e.timeout >= 0) && MeetsGuard(w, e)
    ensures Punctual(Advance(w, e)) && forall t :: !WokenEarly(w, e, t)
  {
    match e
    case Arm(t, timeout) =>
      forall x { InsertedAt(w.list, t, timeout, x); }
      InsertedUnique(w.list, t, timeout);
      InsertedNonNegative(w.list, t, timeout);
    case Disarm(t) =>
      forall x { RemovedAt(w.list, t, x); }
      RemovedUnique(w.list, t);
    case Pass(_) =>
    case Tick =>
      TickKeepsPunctual(w);
  }

  lemma TickKeepsPunctual(w: Wheel)
    requires Punctual(w) && Gap(w) > 0 && MeetsGuard(w, Tick)
    ensures Punctual(Advance(w, Tick)) && forall t :: !WokenEarly(w, Tick, t)
  {
    var gap := Gap(w);
    TickUnique(w.list, gap);
    AllDueIff(w.list, gap);
    NoneBetweenIff(w.list, gap);
    forall x ensures Has(Survivors(w.list, gap), x) ==>
               Has(w.list, x) && TimeOf(Survivors(w.list, gap), x) == TimeOf(w.list, x) - gap
      ensures !WokenEarly(w, Tick, x)
    {
      TickAt(w.list, gap, x);
      TickTimes(w.list, gap, x);
    }
  }

  /** One event from a punctual list: somebody is woken early or runs fast iff the guard fails. */
  lemma EarlyIff(w: Wheel, e: Event)
    requires Punctual(w) && Allowed(w, e) && (e.Arm? ==> e.timeout >= 0)
    ensures MeetsGuard(w, e) <==> forall t :: !WokenEarly(w, e, t) && !RunsFast(Advance(w, e), t)
  {
    if MeetsGuard(w, e) {
      GuardKeepsPunctual(w, e);
    } else if e.Arm? {
      InsertedAt(w.list, e.t, e.timeout, e.t);
      assert RunsFast(Advance(w, e), e.t);
    } else {
      var x := Distorted(w.list, Gap(w));
      TickAt(w.list, Gap(w), x);
      assert WokenEarly(w, e, x) || RunsFast(Advance(w, e), x);
    }
  }

  ghost predicate GuardedRun(w: Wheel, es: seq<Event>)
    requires AllowedRun(w, es)
    decreases |es|
  {
    es == [] || (MeetsGuard(w, es[0]) && GuardedRun(Advance(w, es[0]), es[1..]))
  }

  /** At no moment of the run is anybody woken early or left with too little time. */
  ghost predicate PunctualRun(w: Wheel, es: seq<Event>)
    requires AllowedRun(w, es)
    decreases |es|
  {
    && (forall t :: !RunsFast(w, t))
    && (es == [] || ((forall t :: !WokenEarly(w, es[0], t)) && PunctualRun(Advance(w, es[0]), es[1..])))
  }

  /**
    Over every run without negative requests: no timer runs ahead and nobody is woken early iff every tick
    meets its guard and every timer is armed at the instant of a tick.
   */
  lemma {:induction false} NeverEarlyIff(w: Wheel, es: seq<Event>)
    requires Punctual(w) && AllowedRun(w, es) && NoNegativeRequest(es)
    ensures PunctualRun(w, es) <==> GuardedRun(w, es)
    decreases |es|
  {
    if es != [] {
      var r := Advance(w, es[0]);
      EarlyIff(w, es[0]);
      if MeetsGuard(w, es[0]) {
        GuardKeepsPunctual(w, es[0]);
        NeverEarlyIff(r, es[1..]);
      } else {
        assert PunctualRun(w, es) ==> PunctualRun(r, es[1..]);
      }
    }
  }

  lemma Onward(w: Wheel, e: Event, w1: Wheel, es: seq<Event>, r: Wheel)
    requires Allowed(w, e) && Advance(w, e) == w1 && AllowedRun(w1, es) && Final(w1, es) == r
    ensures AllowedRun(w, [e] + es) && Final(w, [e] + es) == r
  {
    assert ([e] + es)[1..] == es;
  }

  /** Two tasks armed at 0, a tick at 5, then time until 10. */
  function EarlyRun(): seq<Event> { [Arm(1, 5), Arm(2, 15), Pass(5), Tick, Pass(5)] }

  function EarlyStage(n: nat): Wheel {
    match n
    case 0 => Midnight()
    case 1 => Wheel([Entry(1, 5)], 0, 0, map[1 := 5])
    case 2 => Wheel([Entry(1, 5), Entry(2, 10)], 0, 0, map[1 := 5, 2 := 15])
    case 3 => Wheel([Entry(1, 5), Entry(2, 10)], 0, 5, map[1 := 5, 2 := 15])
    case 4 => Wheel([Entry(2, 5)], 5, 5, map[1 := 5, 2 := 15])
    case _ => Wheel([Entry(2, 5)], 5, 10, map[1 := 5, 2 := 15])
  }

  lemma EarlyStep(n: nat)
    requires n < 5
    ensures Allowed(EarlyStage(n), EarlyRun()[n]) && Advance(EarlyStage(n), EarlyRun()[n]) == EarlyStage(n + 1)
  {
    match n
    case 1 =>
      var l := [Entry(1, 5)];
      assert l[1..] == [] && Inserted(l, 2, 15) == [l[0]] + Inserted(l[1..], 2, 10);
    case 3 =>
      var l := [Entry(1, 5), Entry(2, 10)];
      assert l[1..] == [Entry(2, 10)] && Survivors(l, 5) == Survivors(l[1..], 5);
    case _ =>
  }

  lemma {:induction false} EarlyStages(n: nat)
    requires n <= 5
    ensures AllowedRun(EarlyStage(n), EarlyRun()[n..]) && Final(EarlyStage(n), EarlyRun()[n..]) == EarlyStage(5)
    decreases 5 - n
  {
    hide EarlyStage, Allowed, Advance;
    if n < 5 {
      EarlyStep(n);
      EarlyStages(n + 1);
      assert EarlyRun()[n..] == [EarlyRun()[n]] + EarlyRun()[n + 1..];
      Onward(EarlyStage(n), EarlyRun()[n], EarlyStage(n + 1), EarlyRun()[n + 1..], EarlyStage(5));
    }
  }

  lemma EarlyEnds()
    ensures var b := EarlyStage(5);
      && EarlyStage(0) == Midnight() && EarlyRun()[0..] == EarlyRun()
      && Allowed(b, Tick) && WokenEarly(b, Tick, 2) && b.now == 10 && 2 in b.deadline && b.deadline[2] == 15
  {
    var l := [Entry(2, 5)];
    assert Fired(l, 5) == [l[0]] + Fired(l[1..], 5);
  }

  /**
    Task 2, due at 15, is woken at 10 although the first tick fires only a due task: that tick took
    the fired delta off the survivor's time as well.
   */
  lemma EarlyWake()
    ensures AllowedRun(Midnight(), EarlyRun())
    ensures var b := Final(Midnight(), EarlyRun());
      Allowed(b, Tick) && WokenEarly(b, Tick, 2) && b.now == 10 && 2 in b.deadline && b.deadline[2] == 15
  {
    hide *;
    EarlyStages(0);
    EarlyEnds();
  }

  /**
    Task 1 asks at 8 for 5 more, that is for 13, and is woken at 9, although that tick finds everybody
    due: its gap counts from the last tick, at 0, and not from the call.
   */
  lemma EarlyByLateCall()
    ensures var es := [Pass(8), Arm(1, 5), Pass(1)];
            AllowedRun(Midnight(), es) &&
            var b := Final(Midnight(), es);
            && Allowed(b, Tick) && AllDue(Times(b.list), Gap(b))
            && WokenEarly(b, Tick, 1) && b.now == 9 && b.deadline[1] == 13
  {
    var w := Midnight();
    var w1, w2 := w.(now := 8), Wheel([Entry(1, 5)], 0, 8, map[1 := 13]);
    var w3 := w2.(now := 9);
    assert Advance(w, Pass(8)) == w1 && Advance(w1, Arm(1, 5)) == w2 && Advance(w2, Pass(1)) == w3;
    assert AllowedRun(w3, []) && Final(w3, []) == w3;
    Onward(w2, Pass(1), w3, [], w3);
    Onward(w1, Arm(1, 5), w2, [Pass(1)] + [], w3);
    Onward(w, Pass(8), w1, [Arm(1, 5)] + ([Pass(1)] + []), w3);
    assert [Pass(8)] + ([Arm(1, 5)] + ([Pass(1)] + [])) == [Pass(8), Arm(1, 5), Pass(1)];
    assert Fired(w3.list, 9) == [w3.list[0]] + Fired(w3.list[1..], 9);
    TimesAt(w3.list, 1);
    assert w3.list[1..] == [] && forall x :: Has(w3.list, x) ==> x == 1;
  }
}
