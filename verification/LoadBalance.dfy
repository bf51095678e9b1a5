/**
  The load-balance counters of the M:N build, one API call per step. Every service thread has a
  scheduler with a local fiber counter and a cursor over the four global ready lists; fibers move
  between schedulers only by being exported to a global list and pulled from it.
 */
module LoadBalance {
  import opened Options

  type Tid = nat

  /** A control block: the owning scheduler (NULL on a global list), the hash group, a wait flag. */
  datatype Task = Task(owner: Option<nat>, group: nat, blocked: bool)

  /** A service thread: its maintask, nLocalFibTasks, the group to poll next. */
  datatype Sched = Sched(main: Tid, nLocal: int, cursor: nat, live: bool)

  /** mServiceThreads is m; lists are the global ready lists. */
  datatype State = State(scheds: seq<Sched>, m: int, nGlobal: int, lists: seq<seq<Tid>>, tcb: map<Tid, Task>)

  const GROUPS: nat := 4

  datatype Op =
    | Join(main: Tid)
    | Create(on: nat, t: Tid, group: nat)
    | Exit(t: Tid)
    | Leave(on: nat)
    | Block(t: Tid)
    | Wake(on: nat, t: Tid)
    | Resume(t: Tid)
    | Balance(on: nat)

  predicate LiveAt(s: State, i: nat) { i < |s.scheds| && s.scheds[i].live }

  predicate Local(s: State, t: Tid) {
    t in s.tcb && s.tcb[t].owner.Some? && LiveAt(s, s.tcb[t].owner.value)
  }

  predicate Running(s: State, t: Tid) {
    Local(s, t) && !s.tcb[t].blocked && s.scheds[s.tcb[t].owner.value].main != t
  }

  /** What the callers of each operation guarantee. */
  predicate Enabled(s: State, op: Op) {
    match op
    case Join(t) => t !in s.tcb
    case Create(i, t, g) => LiveAt(s, i) && t !in s.tcb && g < GROUPS
    case Exit(t) => Running(s, t)
    case Leave(i) => LiveAt(s, i) && s.scheds[i].nLocal == 1 && s.scheds[i].main in s.tcb
    case Block(t) => Running(s, t)
    case Wake(i, t) => LiveAt(s, i) && Local(s, t) && s.tcb[t].blocked
    case Resume(t) => Local(s, t) && s.tcb[t].blocked
    case Balance(i) => LiveAt(s, i)
  }

  /** A service thread is below its share and tries to pull. */
  function PullBelow(nGlobal: int, m: int): int
    requires m > 0
  {
    (nGlobal * 16 / 15 + m - 1) / m
  }

  /** A service thread above this exports the fiber it creates. */
  function ExportAbove(nGlobal: int, m: int): int
    requires m > 0
  {
    (nGlobal * 7 / 6 + m - 1) / m
  }

  predicate Below(s: State, i: nat)
    requires i < |s.scheds| && s.m > 0
  {
    s.scheds[i].nLocal < PullBelow(s.nGlobal, s.m)
  }

  function Bump(s: State, i: nat, d: int): (r: State)
    requires i < |s.scheds|
  {
    s.(scheds := s.scheds[i := s.scheds[i].(nLocal := s.scheds[i].nLocal + d)])
  }

  /** pushIntoGlobalReadyList */
  function Export(s: State, t: Tid, k: Task): (r: State)
    requires k.group < |s.lists|
  {
    s.(lists := s.lists[k.group := s.lists[k.group] + [t]],
       tcb := s.tcb[t := k.(owner := None, blocked := false)])
  }

  /** popFromGlobalReadyList on a non-empty list, and the local count. */
  function Pull(s: State, i: nat, g: nat): (r: State)
    requires i < |s.scheds| && g < |s.lists| && s.lists[g] != [] && s.lists[g][0] in s.tcb
  {
    var t := s.lists[g][0];
    Bump(s.(lists := s.lists[g := s.lists[g][1..]],
            tcb := s.tcb[t := s.tcb[t].(owner := Some(i), blocked := false)]), i, 1)
  }

  function Advance(s: State, i: nat): (r: State)
    requires i < |s.scheds|
  {
    s.(scheds := s.scheds[i := s.scheds[i].(cursor := (s.scheds[i].cursor + 1) % GROUPS)])
  }

  /** What the shape of the state must be for the operations to be defined at all. */
  predicate Shape(s: State) {
    && |s.lists| == GROUPS
    && (forall i :: 0 <= i < |s.scheds| ==> s.scheds[i].cursor < GROUPS)
    && (forall t :: t in s.tcb ==> s.tcb[t].group < GROUPS)
    && (forall g, k :: 0 <= g < |s.lists| && 0 <= k < |s.lists[g]| ==> s.lists[g][k] in s.tcb)
    && ((exists i :: 0 <= i < |s.scheds| && s.scheds[i].live) ==> s.m > 0)
  }

  predicate Exports(s: State, i: nat)
    requires i < |s.scheds| && s.m > 0
  {
    s.scheds[i].nLocal > ExportAbove(s.nGlobal + 1, s.m)
  }

  function CreateStep(s: State, i: nat, t: Tid, g: nat): (r: State)
    requires Shape(s) && LiveAt(s, i) && g < GROUPS
  {
    var s1 := s.(nGlobal := s.nGlobal + 1);
    if Exports(s, i) then Export(s1, t, Task(None, g, false))
    else Bump(s1.(tcb := s.tcb[t := Task(Some(i), g, false)]), i, 1)
  }

  function WakeStep(s: State, i: nat, t: Tid): (r: State)
    requires Shape(s) && LiveAt(s, i) && Local(s, t)
  {
    if s.tcb[t].owner.value == i then s.(tcb := s.tcb[t := s.tcb[t].(blocked := false)])
    else Export(Bump(s, s.tcb[t].owner.value, -1), t, s.tcb[t])
  }

  function BalanceStep(s: State, i: nat): (r: State)
    requires Shape(s) && LiveAt(s, i)
  {
    if !Below(s, i) then s
    else if s.lists[s.scheds[i].cursor] == [] then Advance(s, i)
    else Advance(Pull(s, i, s.scheds[i].cursor), i)
  }

  function Step(s: State, op: Op): (r: State)
    requires Shape(s) && Enabled(s, op)
  {
    match op
    case Join(t) =>
      s.(m := s.m + 1, nGlobal := s.nGlobal + 1, scheds := s.scheds + [Sched(t, 1, 0, true)],
         tcb := s.tcb[t := Task(Some(|s.scheds|), 0, false)])
    case Create(i, t, g) => CreateStep(s, i, t, g)
    case Exit(t) =>
      Bump(s.(nGlobal := s.nGlobal - 1, tcb := s.tcb - {t}), s.tcb[t].owner.value, -1)
    case Leave(i) =>
      s.(m := s.m - 1, nGlobal := s.nGlobal - 1, tcb := s.tcb - {s.scheds[i].main},
         scheds := s.scheds[i := s.scheds[i].(nLocal := s.scheds[i].nLocal - 1, live := false)])
    case Block(t) => s.(tcb := s.tcb[t := s.tcb[t].(blocked := true)])
    case Wake(i, t) => WakeStep(s, i, t)
    case Resume(t) => s.(tcb := s.tcb[t := s.tcb[t].(blocked := false)])
    case Balance(i) => BalanceStep(s, i)
  }

  // ----- when a fiber moves, and what else does not ------------------------------------------

  /** x stays below a quota of a b-th of a * n, shared by m threads with both roundings. */
  lemma ShareIs(n: int, m: int, x: int, a: int, b: int)
    requires m > 0 && b > 0
    ensures x < (n * a / b + m - 1) / m <==> b * (x * m + 1) <= a * n
    ensures x > (n * a / b + m - 1) / m <==> a * n < b * ((x - 1) * m + 1)
  {
    var y := n * a / b;
    FloorIs(n * a, b, y, x * m + 1);
    FloorIs(n * a, b, y, (x - 1) * m + 1);
    CeilIs(y, m, x);
    CeilIs(y, m, x - 1);
  }

  lemma Scaled(p: int, q: int, m: int)
    requires p <= q && m > 0
    ensures p * m <= q * m
    ensures (p + 1) * m == p * m + m
  {
    assert q * m == p * m + (q - p) * m;
  }

  lemma FloorIs(z: int, b: int, y: int, w: int)
    requires b > 0 && y == z / b
    ensures w <= y <==> b * w <= z
  {
    var k := z % b;
    assert z == y * b + k && 0 <= k < b;
    if w <= y { Scaled(w, y, b); } else { Scaled(y, y, b); Scaled(y + 1, w, b); }
  }

  lemma CeilIs(y: int, m: int, x: int)
    requires m > 0
    ensures x < (y + m - 1) / m <==> x * m + 1 <= y
  {
    var q, k := (y + m - 1) / m, (y + m - 1) % m;
    assert y + m - 1 == q * m + k && 0 <= k < m;
    if x < q { Scaled(x, x, m); Scaled(x + 1, q, m); } else { Scaled(q, x, m); }
  }

  /** Seven sixths of the live fibers per thread, this one included, is what a creator keeps. */
  predicate MustExport(nLocal: int, nGlobal: int, m: int) { 7 * (nGlobal + 1) < 6 * ((nLocal - 1) * m + 1) }

  /** Below sixteen fifteenths of its share a thread pulls. */
  predicate MustPull(nLocal: int, nGlobal: int, m: int) { 15 * (nLocal * m + 1) <= 16 * nGlobal }

  /** A create gives the fiber away to its group's list, last, exactly above the creator's quota. */
  lemma CreateExactly(s: State, i: nat, t: Tid, g: nat)
    requires Shape(s) && Enabled(s, Create(i, t, g))
    ensures var r, x := Step(s, Create(i, t, g)), s.scheds[i];
      && r.nGlobal == s.nGlobal + 1 && r.m == s.m
      && if MustExport(x.nLocal, s.nGlobal, s.m) then
           && r.tcb == s.tcb[t := Task(None, g, false)] && r.scheds == s.scheds
           && r.lists == s.lists[g := s.lists[g] + [t]]
         else
           && r.tcb == s.tcb[t := Task(Some(i), g, false)] && r.lists == s.lists
           && r.scheds == s.scheds[i := Sched(x.main, x.nLocal + 1, x.cursor, true)]
  {
    ShareIs(s.nGlobal + 1, s.m, s.scheds[i].nLocal, 7, 6);
    assert Exports(s, i) <==> MustExport(s.scheds[i].nLocal, s.nGlobal, s.m);
    hide Exports, MustExport, Shape;
  }

  /**
    A thread at or above its quota leaves everything alone; one below it looks at one list, takes
    its first fiber if there is one, and looks at the next list the next time.
   */
  lemma BalanceExactly(s: State, i: nat)
    requires Shape(s) && Enabled(s, Balance(i))
    ensures var r, x := Step(s, Balance(i)), s.scheds[i];
      var l := s.lists[x.cursor];
      && r.nGlobal == s.nGlobal && r.m == s.m
      && if !MustPull(x.nLocal, s.nGlobal, s.m) then r == s
         else if l == [] then
           && r.tcb == s.tcb && r.lists == s.lists
           && r.scheds == s.scheds[i := Sched(x.main, x.nLocal, (x.cursor + 1) % 4, true)]
         else
           && r.tcb == s.tcb[l[0] := Task(Some(i), s.tcb[l[0]].group, false)]
           && r.lists == s.lists[x.cursor := l[1..]]
           && r.scheds == s.scheds[i := Sched(x.main, x.nLocal + 1, (x.cursor + 1) % 4, true)]
  {
    ShareIs(s.nGlobal, s.m, s.scheds[i].nLocal, 16, 15);
    assert Below(s, i) <==> MustPull(s.scheds[i].nLocal, s.nGlobal, s.m);
    hide Below, MustPull;
  }

  /** A fiber woken on its own thread stays there; one woken from elsewhere goes to its group's list. */
  lemma WakeExactly(s: State, i: nat, t: Tid)
    requires Shape(s) && Enabled(s, Wake(i, t))
    ensures var r, k := Step(s, Wake(i, t)), s.tcb[t];
      var j := k.owner.value;
      var x := s.scheds[j];
      && r.nGlobal == s.nGlobal && r.m == s.m
      && if j == i then r.tcb == s.tcb[t := Task(Some(i), k.group, false)] && r.lists == s.lists && r.scheds == s.scheds
         else
           && r.tcb == s.tcb[t := Task(None, k.group, false)]
           && r.lists == s.lists[k.group := s.lists[k.group] + [t]]
           && r.scheds == s.scheds[j := Sched(x.main, x.nLocal - 1, x.cursor, true)]
  {
  }

  // ----- the invariant -----------------------------------------------------------------------

  ghost function Owned(tcb: map<Tid, Task>, i: nat): set<Tid> {
    set t | t in tcb && tcb[t].owner == Some(i)
  }

  /** Each local counter is the number of fibers the scheduler owns. */
  ghost predicate Counted(scheds: seq<Sched>, tcb: map<Tid, Task>) {
    forall i: nat :: i < |scheds| ==> scheds[i].nLocal == |Owned(tcb, i)|
  }

  predicate LiveIn(scheds: seq<Sched>, i: nat) { i < |scheds| && scheds[i].live }

  /** Owners are live, and every live scheduler owns its maintask, which never blocks. */
  ghost predicate Owners(scheds: seq<Sched>, tcb: map<Tid, Task>) {
    && (forall t :: t in tcb && tcb[t].owner.Some? ==> LiveIn(scheds, tcb[t].owner.value))
    && (forall i: nat :: LiveIn(scheds, i) ==> Owns(tcb, scheds[i].main, i))
    && (forall i: nat :: LiveIn(scheds, i) ==> !tcb[scheds[i].main].blocked)
  }

  /** Whether scheduler i owns t. */
  predicate Owns(tcb: map<Tid, Task>, t: Tid, i: nat) { t in tcb && tcb[t].owner == Some(i) }

  /** The list of one group: ready fibers nobody owns, each once. */
  ghost predicate ListOk(l: seq<Tid>, g: nat, tcb: map<Tid, Task>) {
    && (forall k :: 0 <= k < |l| ==> l[k] in tcb && tcb[l[k]] == Task(None, g, false))
    && (forall j, k :: 0 <= j < k < |l| ==> l[j] != l[k])
  }

  /** A fiber is on a global list exactly when nobody owns it, and then only on its group's, once. */
  ghost predicate Listed(lists: seq<seq<Tid>>, tcb: map<Tid, Task>) {
    && |lists| == GROUPS
    && (forall g: nat :: g < GROUPS ==> ListOk(lists[g], g, tcb))
    && (forall t :: t in tcb ==> tcb[t].group < GROUPS)
    && (forall t :: t in tcb && tcb[t].owner == None ==> t in lists[tcb[t].group])
  }

  function Waiting(lists: seq<seq<Tid>>): int
    requires |lists| == GROUPS
  {
    |lists[0]| + |lists[1]| + |lists[2]| + |lists[3]|
  }

  function SumLocal(scheds: seq<Sched>): int {
    if scheds == [] then 0 else scheds[0].nLocal + SumLocal(scheds[1..])
  }

  function LiveCount(scheds: seq<Sched>): nat {
    if scheds == [] then 0 else (if scheds[0].live then 1 else 0) + LiveCount(scheds[1..])
  }

  /** Locals and global lists add up to the system-wide counter, which counts live fibers. */
  ghost predicate Totals(s: State)
    requires |s.lists| == GROUPS
  {
    && SumLocal(s.scheds) + Waiting(s.lists) == s.nGlobal == |s.tcb|
    && s.m == LiveCount(s.scheds)
    && Cursors(s.scheds)
  }

  predicate Cursors(scheds: seq<Sched>) {
    forall i :: 0 <= i < |scheds| ==> scheds[i].cursor < GROUPS
  }

  ghost predicate Inv(s: State) {
    Counted(s.scheds, s.tcb) && Owners(s.scheds, s.tcb) && Listed(s.lists, s.tcb) && Totals(s)
  }

  lemma {:induction false} SumUpdate(a: seq<Sched>, i: nat, x: Sched)
    requires i < |a|
    ensures SumLocal(a[i := x]) == SumLocal(a) - a[i].nLocal + x.nLocal
    ensures LiveCount(a[i := x]) == LiveCount(a) - (if a[i].live then 1 else 0) + (if x.live then 1 else 0)
  {
    if i > 0 {
      assert a[i := x][1..] == a[1..][i - 1 := x];
      SumUpdate(a[1..], i - 1, x);
    } else {
      assert a[i := x][1..] == a[1..];
    }
  }

  lemma {:induction false} SumAppend(a: seq<Sched>, x: Sched)
    ensures SumLocal(a + [x]) == SumLocal(a) + x.nLocal
    ensures LiveCount(a + [x]) == LiveCount(a) + (if x.live then 1 else 0)
  {
    if a != [] {
      assert (a + [x])[1..] == a[1..] + [x];
      SumAppend(a[1..], x);
    }
  }

  lemma {:induction false} LiveIsCounted(a: seq<Sched>, i: nat)
    requires i < |a| && a[i].live
    ensures LiveCount(a) > 0
  {
    if i > 0 { LiveIsCounted(a[1..], i - 1); }
  }

  lemma InvShape(s: State)
    requires Inv(s)
    ensures Shape(s)
  {
    forall g, k | 0 <= g < |s.lists| && 0 <= k < |s.lists[g]| ensures s.lists[g][k] in s.tcb {
      assert ListOk(s.lists[g], g, s.tcb);
    }
    forall i | 0 <= i < |s.scheds| && s.scheds[i].live ensures s.m > 0 { LiveIsCounted(s.scheds, i); }
  }

  lemma OwnedSets(tcb: map<Tid, Task>, t: Tid, k: Task, i: nat)
    ensures Owned(tcb[t := k], i) == (if k.owner == Some(i) then Owned(tcb, i) + {t} else Owned(tcb, i) - {t})
    ensures Owned(tcb - {t}, i) == Owned(tcb, i) - {t}
  {
  }

  /** Changing one control block changes the ownership counts by that block only. */
  lemma OwnedUpdate(tcb: map<Tid, Task>, t: Tid, k: Task, i: nat)
    ensures |Owned(tcb[t := k], i)| == |Owned(tcb, i)|
      - (if Owns(tcb, t, i) then 1 else 0) + (if k.owner == Some(i) then 1 else 0)
    ensures |Owned(tcb - {t}, i)| == |Owned(tcb, i)| - (if Owns(tcb, t, i) then 1 else 0)
  {
    OwnedSets(tcb, t, k, i);
    var o := Owned(tcb, i);
    assert t in o <==> Owns(tcb, t, i);
    hide Owned, Owns;
  }

  lemma CountUpdate(tcb: map<Tid, Task>, t: Tid, k: Task)
    ensures |tcb[t := k]| == |tcb| + (if t in tcb then 0 else 1)
    ensures |tcb - {t}| == |tcb| - (if t in tcb then 1 else 0)
  {
    assert tcb[t := k].Keys == tcb.Keys + {t};
    assert (tcb - {t}).Keys == tcb.Keys - {t};
    assert |tcb[t := k]| == |tcb[t := k].Keys| && |tcb| == |tcb.Keys| && |tcb - {t}| == |(tcb - {t}).Keys|;
  }

  // ----- every operation keeps it -----------------------------------------------------------

  function One(b: bool): int { if b then 1 else 0 }

  lemma CountedSet(a: seq<Sched>, tcb: map<Tid, Task>, b: seq<Sched>, t: Tid, k: Task)
    requires Counted(a, tcb) && |a| == |b|
    requires forall j: nat :: j < |a| ==> b[j].nLocal == a[j].nLocal - One(Owns(tcb, t, j)) + One(k.owner == Some(j))
    ensures Counted(b, tcb[t := k])
  {
    hide Owned;
    forall j: nat | j < |b| ensures b[j].nLocal == |Owned(tcb[t := k], j)| { OwnedUpdate(tcb, t, k, j); }
  }

  lemma CountedDrop(a: seq<Sched>, tcb: map<Tid, Task>, b: seq<Sched>, t: Tid)
    requires Counted(a, tcb) && |a| == |b| && t in tcb
    requires forall j: nat :: j < |a| ==> b[j].nLocal == a[j].nLocal - One(Owns(tcb, t, j))
    ensures Counted(b, tcb - {t})
  {
    hide Owned;
    forall j: nat | j < |b| ensures b[j].nLocal == |Owned(tcb - {t}, j)| { OwnedUpdate(tcb, t, tcb[t], j); }
  }

  /** Same threads, same maintasks. */
  ghost predicate SameThreads(a: seq<Sched>, b: seq<Sched>) {
    |a| == |b| && forall j: nat :: j < |a| ==> a[j].main == b[j].main && a[j].live == b[j].live
  }

  lemma OwnersSet(a: seq<Sched>, tcb: map<Tid, Task>, b: seq<Sched>, t: Tid, k: Task)
    requires Owners(a, tcb) && SameThreads(a, b)
    requires k.owner.Some? ==> LiveIn(a, k.owner.value)
    requires forall i: nat :: LiveIn(a, i) ==> t != a[i].main
    ensures Owners(b, tcb[t := k])
  {
    forall i: nat | LiveIn(b, i) ensures Owns(tcb[t := k], b[i].main, i) && !tcb[t := k][b[i].main].blocked {
      assert LiveIn(a, i);
    }
    var tcb2 := tcb[t := k];
    forall u | u in tcb2 && tcb2[u].owner.Some? ensures LiveIn(b, tcb2[u].owner.value) {
      assert u != t ==> LiveIn(a, tcb[u].owner.value);
    }
  }

  lemma OwnersDrop(a: seq<Sched>, tcb: map<Tid, Task>, b: seq<Sched>, t: Tid)
    requires Owners(a, tcb) && |a| == |b|
    requires forall j: nat :: j < |a| ==> a[j].main == b[j].main && (b[j].live ==> a[j].live && a[j].main != t)
    requires forall j: nat :: LiveIn(a, j) && !b[j].live ==> Owned(tcb, j) <= {t}
    ensures Owners(b, tcb - {t})
  {
    forall i: nat | LiveIn(b, i) ensures Owns(tcb - {t}, b[i].main, i) && !(tcb - {t})[b[i].main].blocked {
      assert LiveIn(a, i);
    }
    forall u | u in tcb - {t} && tcb[u].owner.Some? ensures LiveIn(b, tcb[u].owner.value) {
      var i := tcb[u].owner.value;
      assert LiveIn(a, i);
      assert u in Owned(tcb, i) && u !in {t};
    }
  }

  /** A fiber that is on no list may change anything but become ownerless. */
  lemma ListedSet(lists: seq<seq<Tid>>, tcb: map<Tid, Task>, t: Tid, k: Task)
    requires Listed(lists, tcb) && (t in tcb ==> tcb[t].owner.Some?)
    requires k.owner.Some? && k.group < GROUPS
    ensures Listed(lists, tcb[t := k])
  {
    forall g: nat | g < GROUPS ensures ListOk(lists[g], g, tcb[t := k]) { assert ListOk(lists[g], g, tcb); }
  }

  lemma ListedDrop(lists: seq<seq<Tid>>, tcb: map<Tid, Task>, t: Tid)
    requires Listed(lists, tcb) && t in tcb && tcb[t].owner.Some?
    ensures Listed(lists, tcb - {t})
  {
    forall g: nat | g < GROUPS ensures ListOk(lists[g], g, tcb - {t}) { assert ListOk(lists[g], g, tcb); }
  }

  lemma ListedExport(lists: seq<seq<Tid>>, tcb: map<Tid, Task>, t: Tid, g: nat)
    requires Listed(lists, tcb) && (t in tcb ==> tcb[t].owner.Some?) && g < GROUPS
    ensures Listed(lists[g := lists[g] + [t]], tcb[t := Task(None, g, false)])
    ensures Waiting(lists[g := lists[g] + [t]]) == Waiting(lists) + 1
  {
    var l2, t2 := lists[g := lists[g] + [t]], tcb[t := Task(None, g, false)];
    forall h: nat | h < GROUPS ensures ListOk(l2[h], h, t2) { assert ListOk(lists[h], h, tcb); }
    assert t == l2[g][|lists[g]|];
  }

  lemma ListedPull(lists: seq<seq<Tid>>, tcb: map<Tid, Task>, g: nat, i: nat)
    requires Listed(lists, tcb) && g < GROUPS && lists[g] != []
    ensures lists[g][0] in tcb && tcb[lists[g][0]] == Task(None, g, false)
    ensures Listed(lists[g := lists[g][1..]], tcb[lists[g][0] := Task(Some(i), g, false)])
    ensures Waiting(lists[g := lists[g][1..]]) == Waiting(lists) - 1
  {
    var t := lists[g][0];
    assert ListOk(lists[g], g, tcb);
    var l2, t2 := lists[g := lists[g][1..]], tcb[t := Task(Some(i), g, false)];
    forall h: nat | h < GROUPS ensures ListOk(l2[h], h, t2) { assert ListOk(lists[h], h, tcb); }
    forall u | u in t2 && t2[u].owner == None ensures u in l2[t2[u].group] {
      assert u in lists[tcb[u].group];
      assert lists[g] == [t] + lists[g][1..];
    }
  }

  // One operation at a time.

  lemma CountedJoin(a: seq<Sched>, tcb: map<Tid, Task>, t: Tid, x: Sched, k: Task)
    requires Counted(a, tcb) && Owners(a, tcb) && t !in tcb && x.nLocal == 1 && k.owner == Some(|a|)
    ensures Counted(a + [x], tcb[t := k])
  {
    assert Owned(tcb, |a|) == {} by { assert forall u | u in tcb && tcb[u].owner == Some(|a|) :: LiveIn(a, |a|); }
    hide Owned, Owners;
    forall i: nat | i < |a| + 1 ensures (a + [x])[i].nLocal == |Owned(tcb[t := k], i)| {
      OwnedUpdate(tcb, t, k, i);
    }
  }

  lemma OwnersJoin(a: seq<Sched>, tcb: map<Tid, Task>, t: Tid, x: Sched, k: Task)
    requires Owners(a, tcb) && t !in tcb && x.main == t && x.live && k.owner == Some(|a|) && !k.blocked
    ensures Owners(a + [x], tcb[t := k])
  {
    var b, tcb2 := a + [x], tcb[t := k];
    forall i: nat | LiveIn(b, i) ensures Owns(tcb2, b[i].main, i) && !tcb2[b[i].main].blocked {
      assert i < |a| ==> LiveIn(a, i);
    }
    forall u | u in tcb2 && tcb2[u].owner.Some? ensures LiveIn(b, tcb2[u].owner.value) {
      assert u != t ==> LiveIn(a, tcb[u].owner.value);
    }
  }

  lemma JoinInv(s: State, t: Tid)
    requires Inv(s) && Shape(s) && Enabled(s, Join(t))
    ensures Inv(Step(s, Join(t)))
  {
    var x, k := Sched(t, 1, 0, true), Task(Some(|s.scheds|), 0, false);
    hide Owned, SumLocal, LiveCount, Listed, Counted, Owners, Shape, Waiting;
    SumAppend(s.scheds, x);
    CountUpdate(s.tcb, t, k);
    ListedSet(s.lists, s.tcb, t, k);
    CountedJoin(s.scheds, s.tcb, t, x, k);
    OwnersJoin(s.scheds, s.tcb, t, x, k);
  }

  /** The maintasks are owned, so an unowned or new fiber is none of them. */
  lemma NotMain(s: State, t: Tid)
    requires Inv(s)
    ensures t !in s.tcb || s.tcb[t].owner == None || s.tcb[t].blocked ==>
      forall i: nat :: LiveIn(s.scheds, i) ==> t != s.scheds[i].main
    ensures t in s.tcb && s.tcb[t].owner.Some? && t != s.scheds[s.tcb[t].owner.value].main ==>
      forall i: nat :: LiveIn(s.scheds, i) ==> t != s.scheds[i].main
  {
  }

  lemma CreateLocalInv(s: State, i: nat, t: Tid, g: nat)
    requires Inv(s) && LiveAt(s, i) && t !in s.tcb && g < GROUPS
    ensures Inv(Bump(s.(nGlobal := s.nGlobal + 1, tcb := s.tcb[t := Task(Some(i), g, false)]), i, 1))
  {
    var k := Task(Some(i), g, false);
    var b := s.scheds[i := s.scheds[i].(nLocal := s.scheds[i].nLocal + 1)];
    var r := State(b, s.m, s.nGlobal + 1, s.lists, s.tcb[t := k]);
    hide Owned, SumLocal, LiveCount, Listed, Counted, Owners, Waiting, SameThreads, Cursors;
    NotMain(s, t);
    CountUpdate(s.tcb, t, k);
    BumpTotals(s.scheds, i, 1);
    ListedSet(s.lists, s.tcb, t, k);
    CountedGain(s.scheds, s.tcb, i, t, k);
    OwnersSet(s.scheds, s.tcb, b, t, k);
    assert Totals(r);
    hide Totals;
    assert Inv(r);
  }

  lemma CreateExportInv(s: State, t: Tid, g: nat)
    requires Inv(s) && t !in s.tcb && g < GROUPS
    ensures |s.lists| == GROUPS && Inv(Export(s.(nGlobal := s.nGlobal + 1), t, Task(None, g, false)))
  {
    var k := Task(None, g, false);
    NotMain(s, t);
    ListedExport(s.lists, s.tcb, t, g);
    hide Owned, SumLocal, LiveCount, Listed, Counted, Owners, Waiting;
    CountUpdate(s.tcb, t, k);
    CountedSet(s.scheds, s.tcb, s.scheds, t, k);
    OwnersSet(s.scheds, s.tcb, s.scheds, t, k);
  }

  lemma CreateInv(s: State, i: nat, t: Tid, g: nat)
    requires Inv(s) && Shape(s) && Enabled(s, Create(i, t, g))
    ensures Inv(Step(s, Create(i, t, g)))
  {
    hide Inv;
    if Exports(s, i) { CreateExportInv(s, t, g); } else { CreateLocalInv(s, i, t, g); }
  }

  lemma ExitInv(s: State, t: Tid)
    requires Inv(s) && Shape(s) && Enabled(s, Exit(t))
    ensures Inv(Step(s, Exit(t)))
  {
    var r := Step(s, Exit(t));
    var i := s.tcb[t].owner.value;
    CountUpdate(s.tcb, t, s.tcb[t]);
    SumUpdate(s.scheds, i, r.scheds[i]);
    NotMain(s, t);
    hide Owned, SumLocal, LiveCount, Listed, Counted, Owners;
    CountedDrop(s.scheds, s.tcb, r.scheds, t);
    OwnersDrop(s.scheds, s.tcb, r.scheds, t);
    ListedDrop(s.lists, s.tcb, t);
  }

  /** A scheduler whose counter is 1 owns its maintask and nothing else. */
  lemma AloneOwnsMain(s: State, i: nat)
    requires Inv(s) && LiveAt(s, i) && s.scheds[i].nLocal == 1
    ensures Owned(s.tcb, i) == {s.scheds[i].main}
  {
    assert LiveIn(s.scheds, i) && s.scheds[i].main in Owned(s.tcb, i);
    var rest := Owned(s.tcb, i) - {s.scheds[i].main};
    assert |rest| == 0;
  }

  lemma LeaveInv(s: State, i: nat)
    requires Inv(s) && Shape(s) && Enabled(s, Leave(i))
    ensures Inv(Step(s, Leave(i)))
  {
    var r, t := Step(s, Leave(i)), s.scheds[i].main;
    AloneOwnsMain(s, i);
    CountUpdate(s.tcb, t, s.tcb[t]);
    SumUpdate(s.scheds, i, r.scheds[i]);
    assert LiveIn(s.scheds, i) && Owns(s.tcb, t, i);
    forall j: nat | LiveIn(s.scheds, j) && j != i ensures s.scheds[j].main != t { assert Owns(s.tcb, s.scheds[j].main, j); }
    hide Owned, SumLocal, LiveCount, Listed, Counted, Owners;
    CountedDrop(s.scheds, s.tcb, r.scheds, t);
    OwnersDrop(s.scheds, s.tcb, r.scheds, t);
    ListedDrop(s.lists, s.tcb, t);
  }

  /** Setting or clearing a wait flag moves no fiber. */
  lemma FlagInv(s: State, t: Tid, b: bool)
    requires Inv(s) && Local(s, t) && (Running(s, t) || s.tcb[t].blocked)
    ensures Inv(s.(tcb := s.tcb[t := s.tcb[t].(blocked := b)]))
  {
    var k := s.tcb[t].(blocked := b);
    CountUpdate(s.tcb, t, k);
    NotMain(s, t);
    assert k.group < GROUPS;
    hide Owned, SumLocal, LiveCount, Listed, Counted, Owners;
    CountedSet(s.scheds, s.tcb, s.scheds, t, k);
    OwnersSet(s.scheds, s.tcb, s.scheds, t, k);
    ListedSet(s.lists, s.tcb, t, k);
  }

  /** Moving a local counter by one: the sum follows, the threads stay. */
  lemma BumpTotals(a: seq<Sched>, i: nat, d: int)
    requires i < |a|
    ensures var b := a[i := a[i].(nLocal := a[i].nLocal + d)];
      && SumLocal(b) == SumLocal(a) + d && LiveCount(b) == LiveCount(a) && SameThreads(a, b)
      && (Cursors(a) ==> Cursors(b))
  {
    hide SumLocal, LiveCount;
    SumUpdate(a, i, a[i].(nLocal := a[i].nLocal + d));
  }

  /** A fiber that loses its owner o takes one from o's counter. */
  lemma CountedLose(a: seq<Sched>, tcb: map<Tid, Task>, o: nat, t: Tid, k: Task)
    requires Counted(a, tcb) && o < |a| && Owns(tcb, t, o) && k.owner == None
    ensures Counted(a[o := a[o].(nLocal := a[o].nLocal + -1)], tcb[t := k])
  {
    hide Counted, Owned;
    CountedSet(a, tcb, a[o := a[o].(nLocal := a[o].nLocal + -1)], t, k);
  }

  /** A fiber that had no owner adds one to its new owner's counter. */
  lemma CountedGain(a: seq<Sched>, tcb: map<Tid, Task>, o: nat, t: Tid, k: Task)
    requires Counted(a, tcb) && o < |a| && (t in tcb ==> tcb[t].owner == None) && k.owner == Some(o)
    ensures Counted(a[o := a[o].(nLocal := a[o].nLocal + 1)], tcb[t := k])
  {
    hide Counted, Owned;
    CountedSet(a, tcb, a[o := a[o].(nLocal := a[o].nLocal + 1)], t, k);
  }

  lemma WakeExportInv(s: State, t: Tid)
    requires Inv(s) && Local(s, t) && s.tcb[t].blocked
    ensures |s.lists| == GROUPS && s.tcb[t].group < GROUPS
    ensures Inv(Export(Bump(s, s.tcb[t].owner.value, -1), t, s.tcb[t]))
  {
    assert |s.lists| == GROUPS && s.tcb[t].group < GROUPS;
    hide Owned, SumLocal, LiveCount, Listed, Counted, Owners, Waiting, SameThreads, Cursors;
    var o, k := s.tcb[t].owner.value, Task(None, s.tcb[t].group, false);
    var b := s.scheds[o := s.scheds[o].(nLocal := s.scheds[o].nLocal + -1)];
    var l2, tcb2 := s.lists[k.group := s.lists[k.group] + [t]], s.tcb[t := k];
    NotMain(s, t);
    ListedExport(s.lists, s.tcb, t, k.group);
    BumpTotals(s.scheds, o, -1);
    CountedLose(s.scheds, s.tcb, o, t, k);
    OwnersSet(s.scheds, s.tcb, b, t, k);
    CountUpdate(s.tcb, t, k);
    var r := State(b, s.m, s.nGlobal, l2, tcb2);
    assert Totals(r);
    hide Totals;
    assert Inv(r);
    assert Export(Bump(s, o, -1), t, s.tcb[t]) == r;
  }

  lemma WakeInv(s: State, i: nat, t: Tid)
    requires Inv(s) && Shape(s) && Enabled(s, Wake(i, t))
    ensures Inv(Step(s, Wake(i, t)))
  {
    hide Inv;
    if s.tcb[t].owner.value == i { FlagInv(s, t, false); } else { WakeExportInv(s, t); }
  }

  lemma AdvanceInv(s: State, i: nat)
    requires Inv(s) && i < |s.scheds|
    ensures Inv(Advance(s, i))
  {
    var r := Advance(s, i);
    SumUpdate(s.scheds, i, r.scheds[i]);
    hide Owned, SumLocal, LiveCount;
    forall j: nat | LiveIn(r.scheds, j) ensures LiveIn(s.scheds, j) && r.scheds[j].main == s.scheds[j].main { }
    forall u | u in s.tcb && s.tcb[u].owner.Some? ensures LiveIn(r.scheds, s.tcb[u].owner.value) {
      assert LiveIn(s.scheds, s.tcb[u].owner.value);
    }
  }

  lemma PullInv(s: State, i: nat, g: nat)
    requires Inv(s) && LiveAt(s, i) && g < GROUPS && |s.lists| == GROUPS && s.lists[g] != []
    ensures s.lists[g][0] in s.tcb && Inv(Pull(s, i, g))
  {
    ListedPull(s.lists, s.tcb, g, i);
    var t, k := s.lists[g][0], Task(Some(i), g, false);
    var b := s.scheds[i := s.scheds[i].(nLocal := s.scheds[i].nLocal + 1)];
    hide Owned, SumLocal, LiveCount, Listed, Counted, Owners, Waiting, SameThreads, Cursors;
    NotMain(s, t);
    CountUpdate(s.tcb, t, k);
    BumpTotals(s.scheds, i, 1);
    CountedGain(s.scheds, s.tcb, i, t, k);
    OwnersSet(s.scheds, s.tcb, b, t, k);
  }

  lemma StepInv(s: State, op: Op)
    requires Inv(s) && Shape(s) && Enabled(s, op)
    ensures Inv(Step(s, op)) && Shape(Step(s, op))
  {
    hide Inv, Shape;
    match op {
      case Join(t) => JoinInv(s, t);
      case Create(i, t, g) => CreateInv(s, i, t, g);
      case Exit(t) => ExitInv(s, t);
      case Leave(i) => LeaveInv(s, i);
      case Block(t) => FlagInv(s, t, true);
      case Wake(i, t) => WakeInv(s, i, t);
      case Resume(t) => FlagInv(s, t, false);
      case Balance(i) => BalanceInv(s, i);
    }
    InvShape(Step(s, op));
  }

  lemma BalanceInv(s: State, i: nat)
    requires Inv(s) && Shape(s) && LiveAt(s, i)
    ensures Inv(BalanceStep(s, i))
  {
    if Below(s, i) {
      if s.lists[s.scheds[i].cursor] == [] { AdvanceInv(s, i); }
      else { PullInv(s, i, s.scheds[i].cursor); AdvanceInv(Pull(s, i, s.scheds[i].cursor), i); }
    }
  }

  // ----- whole runs ----------------------------------------------------------------------------

  /** Runs from a state, refusing operations whose callers break their promise. */
  ghost predicate Runs(s: State, ops: seq<Op>, r: State)
    decreases |ops|
  {
    if ops == [] then r == s
    else Shape(s) && Enabled(s, ops[0]) && Runs(Step(s, ops[0]), ops[1..], r)
  }

  function Boot(): State { State([], 0, 0, [[], [], [], []], map[]) }

  lemma BootInv()
    ensures Inv(Boot())
  {
  }

  lemma {:induction false} RunInv(s: State, ops: seq<Op>, r: State)
    requires Inv(s) && Runs(s, ops, r)
    ensures Inv(r)
    decreases |ops|
  {
    hide Inv, Shape, Step, Enabled;
    if ops != [] {
      StepInv(s, ops[0]);
      RunInv(Step(s, ops[0]), ops[1..], r);
    }
  }

  lemma InvMeans(r: State)
    requires Inv(r)
    ensures forall i: nat :: i < |r.scheds| ==> r.scheds[i].nLocal == |Owned(r.tcb, i)|
    ensures |r.lists| == GROUPS && SumLocal(r.scheds) + Waiting(r.lists) == r.nGlobal == |r.tcb|
    ensures r.m == LiveCount(r.scheds)
  {
    hide Owned, SumLocal, LiveCount, Waiting, Owners;
  }

  /** In every reachable state the counters say where every fiber is. */
  lemma CountersAreExact(ops: seq<Op>, r: State)
    requires Runs(Boot(), ops, r)
    ensures forall i: nat :: i < |r.scheds| ==> r.scheds[i].nLocal == |Owned(r.tcb, i)|
    ensures |r.lists| == GROUPS && SumLocal(r.scheds) + Waiting(r.lists) == r.nGlobal == |r.tcb|
    ensures r.m == LiveCount(r.scheds)
  {
    hide *;
    BootInv();
    RunInv(Boot(), ops, r);
    InvMeans(r);
  }

  // ----- the pull threshold --------------------------------------------------------------------

  lemma CeilCovers(x: int, m: int)
    requires m > 0
    ensures (x + m - 1) / m * m >= x
  {
    var y := x + m - 1;
    assert y == y / m * m + y % m;
  }

  /** If every live thread held at least h, the locals would sum to at least h each. */
  lemma {:induction false} SumAtLeast(a: seq<Sched>, h: int)
    requires forall i :: 0 <= i < |a| ==> a[i].nLocal >= 0 && (a[i].live ==> a[i].nLocal >= h)
    ensures SumLocal(a) >= LiveCount(a) * h
  {
    if a != [] {
      SumAtLeast(a[1..], h);
      var n: int := LiveCount(a[1..]);
      assert (n + 1) * h == n * h + h;
    }
  }

  ghost predicate SomeBelow(s: State)
    requires s.m > 0
  {
    exists i: nat :: LiveAt(s, i) && Below(s, i)
  }

  lemma Shares(total: int, m: int, h: int, n: int)
    requires m > 0 && h == PullBelow(n, m) && total >= m * h && n >= 0
    ensures total >= n
  {
    CeilCovers(n * 16 / 15, m);
  }

  lemma NonNegative(s: State)
    requires Inv(s)
    ensures s.nGlobal >= 0 && forall i :: 0 <= i < |s.scheds| ==> s.scheds[i].nLocal >= 0
  {
    hide Owned;
  }

  /** A fiber waiting on a global list always has a service thread below the pull threshold. */
  lemma WaitingHasAPuller(s: State)
    requires Inv(s) && s.m > 0 && Waiting(s.lists) > 0
    ensures SomeBelow(s)
  {
    NonNegative(s);
    hide Counted, Owners, Listed, Waiting, SumLocal, LiveCount, PullBelow;
    if !SomeBelow(s) {
      var h := PullBelow(s.nGlobal, s.m);
      forall i | 0 <= i < |s.scheds| ensures s.scheds[i].live ==> s.scheds[i].nLocal >= h {
        assert LiveAt(s, i) ==> !Below(s, i);
      }
      SumAtLeast(s.scheds, h);
      Shares(SumLocal(s.scheds), s.m, h, s.nGlobal);
      assert false;
    }
  }

  // ----- exports -------------------------------------------------------------------------------

  lemma Thresholds(n: int, m: int)
    requires m > 0 && n >= 0
    ensures PullBelow(n, m) <= ExportAbove(n, m)
  {
    DivMonotone(n * 16 / 15 + m - 1, n * 7 / 6 + m - 1, m);
  }

  lemma DivMonotone(a: int, b: int, m: int)
    requires m > 0 && a <= b
    ensures a / m <= b / m
  {
    var p, q := a / m, b / m;
    assert a == p * m + a % m && b == q * m + b % m;
    assert p >= q + 1 ==> p * m >= (q + 1) * m;
  }

  /**
    A create that exports leaves its own thread at or above the pull threshold, so it does not
    take the fiber straight back, and some other live thread below it.
   */
  lemma ExportGoesElsewhere(s: State, i: nat, t: Tid, g: nat)
    requires Inv(s) && Shape(s) && Enabled(s, Create(i, t, g)) && Exports(s, i)
    ensures var r := Step(s, Create(i, t, g));
      && r.m > 0 && !Below(r, i)
      && exists j: nat :: j != i && LiveAt(r, j) && Below(r, j)
  {
    var r := Step(s, Create(i, t, g));
    StepInv(s, Create(i, t, g));
    NonNegative(s);
    Thresholds(s.nGlobal + 1, s.m);
    assert t in r.lists[g] by { assert t == r.lists[g][|s.lists[g]|]; }
    hide Inv, PullBelow, ExportAbove;
    WaitingHasAPuller(r);
    var j: nat :| LiveAt(r, j) && Below(r, j);
  }

  /** With a single service thread nothing is ever exported by a create. */
  lemma SingleThreadNeverExports(s: State, i: nat)
    requires Inv(s) && Shape(s) && LiveAt(s, i) && s.m == 1
    ensures !Exports(s, i)
  {
    NonNegative(s);
    SumAtLeastOne(s.scheds, i);
    hide SumLocal;
    assert s.scheds[i].nLocal <= s.nGlobal;
  }

  lemma {:induction false} SumAtLeastOne(a: seq<Sched>, i: nat)
    requires i < |a| && forall j :: 0 <= j < |a| ==> a[j].nLocal >= 0
    ensures SumLocal(a) >= a[i].nLocal
  {
    SumAtLeast(a[1..], 0);
    if i > 0 { SumAtLeastOne(a[1..], i - 1); }
  }

  // ----- polling --------------------------------------------------------------------------------

  /** Passes of the cursor before it stands at g. */
  function Dist(cursor: nat, g: nat): (d: nat)
    requires cursor < GROUPS && g < GROUPS
    ensures d < GROUPS
  {
    (g + GROUPS - cursor) % GROUPS
  }

  predicate WaitsAt(s: State, f: Tid, g: nat, k: nat) {
    g < |s.lists| && k < |s.lists[g]| && s.lists[g][k] == f
  }

  function Rank(s: State, i: nat, g: nat, k: nat): nat
    requires i < |s.scheds| && s.scheds[i].cursor < GROUPS && g < GROUPS
  {
    4 * k + Dist(s.scheds[i].cursor, g)
  }

  /** A pass of thread i that looks at a global list. */
  predicate Polls(s: State, op: Op, i: nat) {
    op == Balance(i) && LiveAt(s, i) && s.m > 0 && Below(s, i)
  }

  ghost predicate Pulled(s: State, f: Tid) { f in s.tcb && s.tcb[f].owner.Some? }

  /** Whatever any thread does, a waiting fiber never falls back, and each poll of i brings it closer. */
  lemma PollStep(s: State, op: Op, i: nat, f: Tid, g: nat, k: nat)
    requires Inv(s) && Shape(s) && Enabled(s, op) && WaitsAt(s, f, g, k) && i < |s.scheds|
    ensures var r := Step(s, op);
      || Pulled(r, f)
      || (i < |r.scheds| && r.scheds[i].cursor < GROUPS && exists k2: nat ::
            WaitsAt(r, f, g, k2) && Rank(r, i, g, k2) + One(Polls(s, op, i)) <= Rank(s, i, g, k))
  {
    var r := Step(s, op);
    assert ListOk(s.lists[g], g, s.tcb);
    hide Inv, Below;
    if op.Balance? {
      BalancePoll(s, op.on, i, f, g, k);
    } else {
      assert WaitsAt(r, f, g, k);
      assert r.scheds[i].cursor == s.scheds[i].cursor;
    }
  }

  lemma BalancePoll(s: State, j: nat, i: nat, f: Tid, g: nat, k: nat)
    requires Shape(s) && LiveAt(s, j) && WaitsAt(s, f, g, k) && i < |s.scheds|
    requires ListOk(s.lists[g], g, s.tcb)
    ensures var r := BalanceStep(s, j);
      || Pulled(r, f)
      || (i < |r.scheds| && r.scheds[i].cursor < GROUPS && exists k2: nat ::
            WaitsAt(r, f, g, k2) && Rank(r, i, g, k2) + One(Polls(s, Balance(j), i)) <= Rank(s, i, g, k))
  {
    var r := BalanceStep(s, j);
    var c := s.scheds[j].cursor;
    var k2: nat := if Below(s, j) && c == g && k > 0 then k - 1 else k;
    hide Below;
    if Below(s, j) && c == g && k == 0 {
      assert Pulled(r, f);
    } else {
      assert WaitsAt(r, f, g, k2);
    }
  }

  ghost predicate WaitsThroughout(s: State, ops: seq<Op>, f: Tid)
    decreases |ops|
  {
    && f in s.tcb && s.tcb[f].owner == None
    && (ops != [] && Shape(s) && Enabled(s, ops[0]) ==> WaitsThroughout(Step(s, ops[0]), ops[1..], f))
  }

  ghost function PollCount(s: State, ops: seq<Op>, i: nat): nat
    decreases |ops|
  {
    if ops == [] || !Shape(s) || !Enabled(s, ops[0]) then 0
    else (if Polls(s, ops[0], i) then 1 else 0) + PollCount(Step(s, ops[0]), ops[1..], i)
  }

  /**
    However the threads interleave, thread i polls at most 4k + 3 times while the fiber at
    position k of a global list stays there: the next poll finds it pulled.
   */
  lemma {:induction false} PulledWithin(s: State, ops: seq<Op>, r: State, i: nat, f: Tid, g: nat, k: nat)
    requires Inv(s) && Shape(s) && Runs(s, ops, r) && WaitsAt(s, f, g, k) && i < |s.scheds|
    requires WaitsThroughout(s, ops, f)
    ensures PollCount(s, ops, i) <= Rank(s, i, g, k) <= 4 * k + 3
    decreases |ops|
  {
    if ops != [] {
      var s1 := Step(s, ops[0]);
      StepInv(s, ops[0]);
      PollStep(s, ops[0], i, f, g, k);
      hide Inv, Step, Enabled, Polls, Dist;
      assert !Pulled(s1, f) by { assert WaitsThroughout(s1, ops[1..], f); }
      var k2: nat :| WaitsAt(s1, f, g, k2) && Rank(s1, i, g, k2) + One(Polls(s, ops[0], i)) <= Rank(s, i, g, k);
      PulledWithin(s1, ops[1..], r, i, f, g, k2);
    }
  }

  // ----- leaving --------------------------------------------------------------------------------

  /** A dead thread owns nothing. */
  lemma DeadOwnsNothing(s: State, i: nat)
    requires Inv(s) && i < |s.scheds| && !s.scheds[i].live
    ensures s.scheds[i].nLocal == 0
  {
    assert Owned(s.tcb, i) == {} by { assert forall u | u in s.tcb && s.tcb[u].owner == Some(i) :: LiveIn(s.scheds, i); }
  }

  lemma {:induction false} SumOfOne(a: seq<Sched>, i: nat)
    requires i < |a| && a[i].live && LiveCount(a) == 1
    requires forall j :: 0 <= j < |a| && !a[j].live ==> a[j].nLocal == 0
    ensures SumLocal(a) == a[i].nLocal
  {
    if i == 0 { SumOfNone(a[1..]); } else {
      LiveIsCounted(a[1..], i - 1);
      SumOfOne(a[1..], i - 1);
    }
  }

  lemma {:induction false} SumOfNone(a: seq<Sched>)
    requires LiveCount(a) == 0
    requires forall j :: 0 <= j < |a| && !a[j].live ==> a[j].nLocal == 0
    ensures SumLocal(a) == 0
  {
    if a != [] { SumOfNone(a[1..]); }
  }

  /**
    The loop exits on its own counter alone. When the last service thread leaves, the fibers that
    remain are exactly those on the global lists: none are stranded iff the lists are empty.
   */
  lemma LastLeaverStrands(s: State, i: nat)
    requires Inv(s) && Shape(s) && Enabled(s, Leave(i)) && s.m == 1
    ensures var r := Step(s, Leave(i));
      && r.m == 0 && |r.tcb| == Waiting(s.lists)
      && (r.tcb == map[] <==> Waiting(s.lists) == 0)
  {
    var r := Step(s, Leave(i));
    StepInv(s, Leave(i));
    InvMeans(s);
    InvMeans(r);
    forall j | 0 <= j < |s.scheds| && !s.scheds[j].live ensures s.scheds[j].nLocal == 0 { DeadOwnsNothing(s, j); }
    hide Inv, Waiting, Shape;
    SumOfOne(s.scheds, i);
    assert |r.tcb| == Waiting(s.lists);
    if |r.tcb| == 0 { assert r.tcb == map[]; }
  }

  /** Thread 0's fiber, woken from thread 1, stays on list 1 while both threads leave. */
  function StrandingRun(): seq<Op> {
    [Join(1), Join(2), Create(0, 3, 1), Create(1, 4, 0), Block(3), Wake(1, 3),
     Balance(0), Leave(0), Exit(4), Leave(1)]
  }

  /** The states that run goes through. */
  function Stage(n: nat): State
    requires n <= 10
  {
    match n
    case 0 => State([], 0, 0, [[], [], [], []],
      map[])
    case 1 => State([Sched(1, 1, 0, true)], 1, 1, [[], [], [], []],
      map[1 := Task(Some(0), 0, false)])
    case 2 => State([Sched(1, 1, 0, true), Sched(2, 1, 0, true)], 2, 2, [[], [], [], []],
      map[1 := Task(Some(0), 0, false), 2 := Task(Some(1), 0, false)])
    case 3 => State([Sched(1, 2, 0, true), Sched(2, 1, 0, true)], 2, 3, [[], [], [], []],
      map[1 := Task(Some(0), 0, false), 2 := Task(Some(1), 0, false), 3 := Task(Some(0), 1, false)])
    case 4 => State([Sched(1, 2, 0, true), Sched(2, 2, 0, true)], 2, 4, [[], [], [], []],
      map[1 := Task(Some(0), 0, false), 2 := Task(Some(1), 0, false), 3 := Task(Some(0), 1, false), 4 := Task(Some(1), 0, false)])
    case 5 => State([Sched(1, 2, 0, true), Sched(2, 2, 0, true)], 2, 4, [[], [], [], []],
      map[1 := Task(Some(0), 0, false), 2 := Task(Some(1), 0, false), 3 := Task(Some(0), 1, true), 4 := Task(Some(1), 0, false)])
    case 6 => State([Sched(1, 1, 0, true), Sched(2, 2, 0, true)], 2, 4, [[], [3], [], []],
      map[1 := Task(Some(0), 0, false), 2 := Task(Some(1), 0, false), 3 := Task(None, 1, false), 4 := Task(Some(1), 0, false)])
    case 7 => State([Sched(1, 1, 1, true), Sched(2, 2, 0, true)], 2, 4, [[], [3], [], []],
      map[1 := Task(Some(0), 0, false), 2 := Task(Some(1), 0, false), 3 := Task(None, 1, false), 4 := Task(Some(1), 0, false)])
    case 8 => State([Sched(1, 0, 1, false), Sched(2, 2, 0, true)], 1, 3, [[], [3], [], []],
      map[2 := Task(Some(1), 0, false), 3 := Task(None, 1, false), 4 := Task(Some(1), 0, false)])
    case 9 => State([Sched(1, 0, 1, false), Sched(2, 1, 0, true)], 1, 2, [[], [3], [], []],
      map[2 := Task(Some(1), 0, false), 3 := Task(None, 1, false)])
    case _ => State([Sched(1, 0, 1, false), Sched(2, 0, 0, false)], 0, 1, [[], [3], [], []],
      map[3 := Task(None, 1, false)])
  }

  lemma Stage0()
    ensures Shape(Stage(0)) && Enabled(Stage(0), Join(1)) && Step(Stage(0), Join(1)) == Stage(1)
  {
    assert Shape(Stage(0));
    hide Shape;
  }

  lemma Stage1()
    ensures Shape(Stage(1)) && Enabled(Stage(1), Join(2)) && Step(Stage(1), Join(2)) == Stage(2)
  {
    assert Shape(Stage(1));
    hide Shape;
  }

  lemma Stage2()
    ensures Shape(Stage(2)) && Enabled(Stage(2), Create(0, 3, 1)) && Step(Stage(2), Create(0, 3, 1)) == Stage(3)
  {
    assert Shape(Stage(2));
    hide Shape;
  }

  lemma Stage3()
    ensures Shape(Stage(3)) && Enabled(Stage(3), Create(1, 4, 0)) && Step(Stage(3), Create(1, 4, 0)) == Stage(4)
  {
    assert Shape(Stage(3));
    hide Shape;
  }

  lemma Stage4()
    ensures Shape(Stage(4)) && Enabled(Stage(4), Block(3)) && Step(Stage(4), Block(3)) == Stage(5)
  {
    assert Shape(Stage(4));
    hide Shape;
  }

  lemma Stage5()
    ensures Shape(Stage(5)) && Enabled(Stage(5), Wake(1, 3)) && Step(Stage(5), Wake(1, 3)) == Stage(6)
  {
    assert Shape(Stage(5));
    hide Shape;
    var r := Step(Stage(5), Wake(1, 3));
    assert Stage(5).lists[1] + [3] == [3];
    assert r.scheds == Stage(6).scheds && r.lists == Stage(6).lists;
    assert r.tcb == Stage(6).tcb;
  }

  lemma Stage6()
    ensures Shape(Stage(6)) && Enabled(Stage(6), Balance(0)) && Step(Stage(6), Balance(0)) == Stage(7)
  {
    assert Shape(Stage(6));
    hide Shape;
  }

  lemma Stage7()
    ensures Shape(Stage(7)) && Enabled(Stage(7), Leave(0)) && Step(Stage(7), Leave(0)) == Stage(8)
  {
    assert Shape(Stage(7));
    hide Shape;
  }

  lemma Stage8()
    ensures Shape(Stage(8)) && Enabled(Stage(8), Exit(4)) && Step(Stage(8), Exit(4)) == Stage(9)
  {
    assert Shape(Stage(8));
    hide Shape;
  }

  lemma Stage9()
    ensures Shape(Stage(9)) && Enabled(Stage(9), Leave(1)) && Step(Stage(9), Leave(1)) == Stage(10)
  {
    assert Shape(Stage(9));
    hide Shape;
  }

  lemma StageStep(n: nat)
    requires n < 10
    ensures Shape(Stage(n)) && Enabled(Stage(n), StrandingRun()[n])
    ensures Step(Stage(n), StrandingRun()[n]) == Stage(n + 1)
  {
    hide Stage, Step, Enabled, Shape;
    match n {
      case 0 => Stage0();
      case 1 => Stage1();
      case 2 => Stage2();
      case 3 => Stage3();
      case 4 => Stage4();
      case 5 => Stage5();
      case 6 => Stage6();
      case 7 => Stage7();
      case 8 => Stage8();
      case _ => Stage9();
    }
  }

  lemma {:induction false} StageRuns(n: nat)
    requires n <= 10
    ensures Runs(Stage(n), StrandingRun()[n..], Stage(10))
    decreases 10 - n
  {
    hide Stage, Step, Enabled, Shape;
    if n < 10 {
      StageStep(n);
      StageRuns(n + 1);
      assert StrandingRun()[n..][1..] == StrandingRun()[n + 1..];
    }
  }

  lemma StageEnds()
    ensures Stage(0) == Boot() && Stage(10).m == 0
    ensures Stage(10).lists == [[], [3], [], []] && 3 in Stage(10).tcb
  {
  }

  lemma FibersCanBeStranded()
    ensures exists r :: Runs(Boot(), StrandingRun(), r) && r.m == 0 && r.lists == [[], [3], [], []] && 3 in r.tcb
  {
    hide Runs, Stage, Boot, StrandingRun;
    StageRuns(0);
    StageEnds();
    assert StrandingRun()[0..] == StrandingRun();
    assert Runs(Boot(), StrandingRun(), Stage(10));
  }
}
