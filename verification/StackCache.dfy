/**
  The stack cache: eight local slots and sixty-four global ones, each with a mask whose set bits
  mark free slots. A mask is modelled as the sequence of its bits, lowest first.
 */
module StackCache {

  datatype Slot = Slot(base: bv64, size: nat)

  const NULL: Slot := Slot(0, 0)

  datatype Cache = Cache(localFree: seq<bool>, localSlots: seq<Slot>, globalFree: seq<bool>, globalSlots: seq<Slot>)

  predicate Shaped(c: Cache) {
    |c.localFree| == 8 == |c.localSlots| && |c.globalFree| == 64 == |c.globalSlots|
  }

  /** Find first set: 0 when no bit is set, else the position counted from 1. */
  function Ffs(bits: seq<bool>): (r: nat)
    ensures r <= |bits|
    ensures r == 0 ==> forall j :: 0 <= j < |bits| ==> !bits[j]
    ensures r > 0 ==> bits[r - 1] && forall j :: 0 <= j < r - 1 ==> !bits[j]
  {
    if bits == [] then 0
    else if bits[0] then 1
    else
      var k := Ffs(bits[1..]);
      assert forall j :: 1 <= j < |bits| ==> bits[j] == bits[1..][j - 1];
      if k == 0 then 0 else k + 1
  }

  /** The slot a full cache gives up, taken from the address bits of the incoming stack. */
  function Victim(base: bv64): (r: nat)
    ensures r < 8
  {
    var u := (base >> 8) ^ (base >> 16) ^ (base >> 24) ^ (base >> 32);
    var v := ((u >> 4) + u) & 7;
    assert v <= 7;
    v as nat
  }

  /** No slot is spared: each of the eight is given up for some stack. */
  lemma EverySlotIsAVictim(v: nat)
    requires v < 8
    ensures exists base :: base != 0 && Victim(base) == v
  {
    assert Victim(0x1_0000) == 1 && Victim(0x2_0000) == 2 && Victim(0x3_0000) == 3 && Victim(0x4_0000) == 4;
    assert Victim(0x5_0000) == 5 && Victim(0x6_0000) == 6 && Victim(0x7_0000) == 7 && Victim(0x8_0000) == 0;
  }

  // ----- looking for a fitting slot ---------------------------------------------------------

  predicate Fits(free: seq<bool>, slots: seq<Slot>, size: nat, i: int)
    requires |free| == |slots|
  {
    0 <= i < |slots| && !free[i] && slots[i].size >= size
  }

  /**
    What the nibble scan returns: a fitting slot of the first group of four that has one, the
    last one in that group, because clearing the mask does not stop the group's other callbacks.
   */
  ghost predicate Scanned(free: seq<bool>, slots: seq<Slot>, size: nat, r: int)
    requires |free| == |slots|
  {
    if r < 0 then r == -1 && forall i :: 0 <= i < |slots| ==> !Fits(free, slots, size, i)
    else
      && Fits(free, slots, size, r)
      && (forall i :: 0 <= i < r / 4 * 4 ==> !Fits(free, slots, size, i))
      && (forall i :: r < i < r / 4 * 4 + 4 ==> !Fits(free, slots, size, i))
  }

  /** At most one index meets that description. */
  lemma ScannedUnique(free: seq<bool>, slots: seq<Slot>, size: nat, r: int, q: int)
    requires |free| == |slots| && Scanned(free, slots, size, r) && Scanned(free, slots, size, q)
    ensures r == q
  {
  }

  function LastFit(free: seq<bool>, slots: seq<Slot>, size: nat, lo: nat, hi: nat): (r: int)
    requires |free| == |slots| && lo <= hi <= |slots|
    ensures r == -1 ==> forall i :: lo <= i < hi ==> !Fits(free, slots, size, i)
    ensures r != -1 ==> lo <= r < hi && Fits(free, slots, size, r)
    ensures r != -1 ==> forall i :: r < i < hi ==> !Fits(free, slots, size, i)
    decreases hi - lo
  {
    if lo == hi then -1
    else if Fits(free, slots, size, hi - 1) then hi - 1
    else LastFit(free, slots, size, lo, hi - 1)
  }

  function ScanFrom(free: seq<bool>, slots: seq<Slot>, size: nat, p: nat): (r: int)
    requires |free| == |slots| && |slots| % 4 == 0 && p % 4 == 0 && p <= |slots|
    ensures -1 <= r < |slots|
    ensures (forall i :: 0 <= i < p ==> !Fits(free, slots, size, i)) ==> Scanned(free, slots, size, r)
    decreases |slots| - p
  {
    if p == |slots| then -1
    else
      var x := LastFit(free, slots, size, p, p + 4);
      if x >= 0 then x else ScanFrom(free, slots, size, p + 4)
  }

  /** callback_on_setbit with either of the two slot callbacks. */
  method ScanNibbles(free: seq<bool>, slots: seq<Slot>, size: nat) returns (index: int)
    requires |free| == |slots| && |slots| % 4 == 0
    ensures Scanned(free, slots, size, index)
    ensures -1 <= index < |slots|
  {
    index := -1;
    var p := 0;
    while p < |free| && index < 0
      invariant 0 <= p <= |free| && p % 4 == 0
      invariant index < 0 ==> index == -1 && forall i :: 0 <= i < p ==> !Fits(free, slots, size, i)
      invariant index >= 0 ==> index < |slots| && Scanned(free, slots, size, index)
    {
      var q := p;
      while q < p + 4
        invariant p <= q <= p + 4
        invariant index < 0 ==> index == -1 && forall i :: 0 <= i < q ==> !Fits(free, slots, size, i)
        invariant index >= 0 ==> p <= index < q && Fits(free, slots, size, index)
        invariant index >= 0 ==> forall i :: index < i < q ==> !Fits(free, slots, size, i)
        invariant forall i :: 0 <= i < p ==> !Fits(free, slots, size, i)
      {
        if !free[q] && slots[q].size >= size { index := q; }
        q := q + 1;
      }
      p := p + 4;
    }
  }

  // ----- put and get -------------------------------------------------------------------------

  /** The cache after a put, and the stack it unmaps (NULL for none). */
  datatype Put = Put(cache: Cache, dropped: Slot)

  function PutStack(c: Cache, x: Slot): (r: Put)
    requires Shaped(c)
    ensures Shaped(r.cache)
  {
    var i, g := Ffs(c.localFree), Ffs(c.globalFree);
    if i != 0 then
      Put(c.(localFree := c.localFree[i - 1 := false], localSlots := c.localSlots[i - 1 := x]), NULL)
    else
      var c1 := if g == 0 then c
                else c.(globalFree := c.globalFree[g - 1 := false], globalSlots := c.globalSlots[g - 1 := x]);
      // the test is on the decremented index, so global slot 0 counts as "not found"
      if g <= 1 then
        var v := Victim(x.base);
        Put(c1.(localSlots := c1.localSlots[v := x]), c.localSlots[v])
      else Put(c1, NULL)
  }

  datatype Got = Hit(cache: Cache, slot: Slot) | Miss

  function GetStack(c: Cache, size: nat): (r: Got)
    requires Shaped(c)
    ensures r.Hit? ==> Shaped(r.cache) && r.slot.size >= size
  {
    var i, g := ScanFrom(c.localFree, c.localSlots, size, 0), ScanFrom(c.globalFree, c.globalSlots, size, 0);
    if i >= 0 then Hit(c.(localFree := c.localFree[i := true]), c.localSlots[i])
    else if g >= 0 then Hit(c.(globalFree := c.globalFree[g := true]), c.globalSlots[g])
    else Miss
  }

  /** The two caches and the two operations that update them. */
  class StackPool {
    var localFree: seq<bool>
    var localSlots: seq<Slot>
    var globalFree: seq<bool>
    var globalSlots: seq<Slot>

    function View(): Cache
      reads this
    {
      Cache(localFree, localSlots, globalFree, globalSlots)
    }

    /** The masks start as 0xFF and 0; the slots are zeroed. */
    constructor ()
      ensures View() == Fresh() && Shaped(View())
    {
      localFree, localSlots := seq(8, i => true), seq(8, i => NULL);
      globalFree, globalSlots := seq(64, i => false), seq(64, i => NULL);
    }

    method PutCall(x: Slot) returns (dropped: Slot)
      requires Shaped(View())
      modifies this
      ensures View() == PutStack(old(View()), x).cache && dropped == PutStack(old(View()), x).dropped
      ensures Shaped(View())
    {
      dropped := NULL;
      var index := Ffs(localFree);
      if index == 0 {
        index := Ffs(globalFree);
        if index != 0 {
          index := index - 1;
          globalFree, globalSlots := globalFree[index := false], globalSlots[index := x];
        }
        if index == 0 {
          index := Victim(x.base);
          dropped := localSlots[index];
          localSlots := localSlots[index := x];
        }
      } else {
        index := index - 1;
        localFree, localSlots := localFree[index := false], localSlots[index := x];
      }
    }

    method GetCall(size: nat) returns (hit: bool, slot: Slot)
      requires Shaped(View())
      modifies this
      ensures hit == GetStack(old(View()), size).Hit?
      ensures hit ==> View() == GetStack(old(View()), size).cache && slot == GetStack(old(View()), size).slot
      ensures !hit ==> View() == old(View())
      ensures Shaped(View())
    {
      hit, slot := false, NULL;
      var index := ScanNibbles(localFree, localSlots, size);
      ScannedUnique(localFree, localSlots, size, index, ScanFrom(localFree, localSlots, size, 0));
      if index >= 0 {
        localFree := localFree[index := true];
        return true, localSlots[index];
      }
      index := ScanNibbles(globalFree, globalSlots, size);
      ScannedUnique(globalFree, globalSlots, size, index, ScanFrom(globalFree, globalSlots, size, 0));
      if index >= 0 {
        globalFree := globalFree[index := true];
        return true, globalSlots[index];
      }
    }
  }

  function Fresh(): (c: Cache)
    ensures Shaped(c)
  {
    Cache(seq(8, i => true), seq(8, i => NULL), seq(64, i => false), seq(64, i => NULL))
  }

  // ----- the stacks of a running system --------------------------------------------------------

  /** The live fibers' system stacks, and every stack mapped from the system. */
  datatype State = State(cache: Cache, fibers: seq<Slot>, mapped: multiset<Slot>)

  /** Rounding to pages, in 32-bit arithmetic. */
  function Round(n: nat): (r: nat)
    requires n < 0x1_0000_0000
    ensures r < 0x1_0000_0000
    ensures r == 0 <==> n == 0 || n > 0x1_0000_0000 - 4096
    ensures r % 4096 == 0
    ensures r != 0 ==> n <= r < n + 4096
  {
    (n + 4095) % 0x1_0000_0000 / 4096 * 4096
  }

  /** `mapping` is what the system returns for a new mapping, NULL when it cannot be made usable. */
  datatype Op = Create(request: nat, mapping: bv64) | Exit(k: nat)

  predicate Enabled(s: State, op: Op) {
    match op
    case Create(n, b) => n < 0x1_0000_0000 && forall x :: x in s.mapped ==> x.base != b
    case Exit(k) => k < |s.fibers|
  }

  function CreateStep(s: State, size: nat, mapping: bv64): (r: State)
    requires Shaped(s.cache)
    ensures Shaped(r.cache)
  {
    match GetStack(s.cache, size)
    case Hit(c, x) => if x.base == 0 then s.(cache := c) else s.(cache := c, fibers := s.fibers + [x])
    case Miss =>
      if mapping == 0 then s
      else s.(fibers := s.fibers + [Slot(mapping, size)], mapped := s.mapped + multiset{Slot(mapping, size)})
  }

  function ExitStep(s: State, k: nat): (r: State)
    requires Shaped(s.cache) && k < |s.fibers|
  {
    var p := PutStack(s.cache, s.fibers[k]);
    s.(cache := p.cache, fibers := s.fibers[..k] + s.fibers[k + 1..],
       mapped := if p.dropped.base != 0 then s.mapped - multiset{p.dropped} else s.mapped)
  }

  function Step(s: State, op: Op): (r: State)
    requires Shaped(s.cache) && Enabled(s, op)
  {
    match op
    case Create(n, b) => CreateStep(s, Round(n), b)
    case Exit(k) => ExitStep(s, k)
  }

  /** The stacks held by occupied slots. */
  ghost function Held(free: seq<bool>, slots: seq<Slot>): multiset<Slot>
    requires |free| == |slots|
  {
    if free == [] then multiset{}
    else Held(free[1..], slots[1..]) + Bit(free[0], slots[0])
  }

  ghost function Bit(free: bool, x: Slot): multiset<Slot> { if free then multiset{} else multiset{x} }

  /** The global cache as it was initialised: nothing free, nothing there. */
  predicate Pristine(c: Cache) {
    (forall i :: 0 <= i < |c.globalFree| ==> !c.globalFree[i]) && (forall i :: 0 <= i < |c.globalSlots| ==> c.globalSlots[i] == NULL)
  }

  /** Mappings are real, non-empty and do not share a base address. */
  ghost predicate Distinct(m: multiset<Slot>) {
    && (forall x :: x in m ==> m[x] == 1 && x.base != 0 && x.size > 0)
    && (forall x, y :: x in m && y in m && x.base == y.base ==> x == y)
  }

  ghost predicate Inv(s: State) {
    && Shaped(s.cache) && Pristine(s.cache) && Distinct(s.mapped)
    && s.mapped == multiset(s.fibers) + Held(s.cache.localFree, s.cache.localSlots)
  }

  lemma Exchange(a: multiset<Slot>, b: multiset<Slot>, c: multiset<Slot>, d: multiset<Slot>, e: multiset<Slot>)
    requires a + b == c + d
    ensures (a + e) + b == (c + e) + d
  {
    assert (a + e) + b == (a + b) + e;
    assert (c + e) + d == (c + d) + e;
  }

  lemma {:induction false} HeldUpdate(free: seq<bool>, slots: seq<Slot>, i: nat, b: bool, x: Slot)
    requires |free| == |slots| && i < |free|
    ensures Held(free[i := b], slots[i := x]) + Bit(free[i], slots[i]) == Held(free, slots) + Bit(b, x)
  {
    hide Bit;
    var f, l := free[1..], slots[1..];
    if i == 0 {
      assert free[i := b][1..] == f && slots[i := x][1..] == l;
      assert Held(f, l) + Bit(b, x) + Bit(free[0], slots[0]) == Held(f, l) + Bit(free[0], slots[0]) + Bit(b, x);
    } else {
      HeldUpdate(f, l, i - 1, b, x);
      assert free[i := b][1..] == f[i - 1 := b] && slots[i := x][1..] == l[i - 1 := x];
      Exchange(Held(f[i - 1 := b], l[i - 1 := x]), Bit(free[i], slots[i]), Held(f, l), Bit(b, x), Bit(free[0], slots[0]));
    }
  }

  lemma {:induction false} HeldHas(free: seq<bool>, slots: seq<Slot>, i: nat)
    requires |free| == |slots| && i < |free| && !free[i]
    ensures slots[i] in Held(free, slots)
  {
    if i > 0 { HeldHas(free[1..], slots[1..], i - 1); }
  }

  lemma {:induction false} NoneHeld(free: seq<bool>, slots: seq<Slot>)
    requires |free| == |slots| && forall i :: 0 <= i < |free| ==> free[i]
    ensures Held(free, slots) == multiset{}
  {
    if free != [] { NoneHeld(free[1..], slots[1..]); }
  }

  /** Freeing the mask bit of slot i hands out exactly the stack in it. */
  lemma HeldTake(free: seq<bool>, slots: seq<Slot>, i: nat)
    requires |free| == |slots| && i < |free| && !free[i]
    ensures slots[i] in Held(free, slots)
    ensures Held(free[i := true], slots) == Held(free, slots) - multiset{slots[i]}
  {
    HeldUpdate(free, slots, i, true, slots[i]);
    HeldHas(free, slots, i);
    assert slots[i := slots[i]] == slots;
    hide Held;
    var h := Held(free[i := true], slots);
    assert h + multiset{slots[i]} == Held(free, slots);
    assert h == (h + multiset{slots[i]}) - multiset{slots[i]};
  }

  /** Filling a free slot adds the stack; overwriting an occupied one also drops what was there. */
  lemma HeldFill(free: seq<bool>, slots: seq<Slot>, i: nat, x: Slot)
    requires |free| == |slots| && i < |free|
    ensures free[i] ==> Held(free[i := false], slots[i := x]) == Held(free, slots) + multiset{x}
    ensures !free[i] ==> slots[i] in Held(free, slots)
    ensures !free[i] ==> Held(free, slots[i := x]) == Held(free, slots) + multiset{x} - multiset{slots[i]}
  {
    HeldUpdate(free, slots, i, false, x);
    if free[i] {
      hide Held;
      assert Held(free[i := false], slots[i := x]) + multiset{} == Held(free[i := false], slots[i := x]);
    } else {
      HeldHas(free, slots, i);
      hide Held;
      assert free[i := false] == free;
      var h := Held(free, slots[i := x]);
      assert h == (h + multiset{slots[i]}) - multiset{slots[i]};
    }
  }

  lemma WithoutAt(a: seq<Slot>, k: nat)
    requires k < |a|
    ensures multiset(a[..k] + a[k + 1..]) == multiset(a) - multiset{a[k]}
    ensures a[k] in multiset(a)
  {
    assert a == a[..k] + [a[k]] + a[k + 1..];
    assert multiset(a) == multiset(a[..k]) + multiset{a[k]} + multiset(a[k + 1..]);
  }

  // ----- what every operation keeps ------------------------------------------------------------

  /** A zero-size request with nothing in the local cache. */
  predicate ZeroMiss(s: State, op: Op)
    requires Shaped(s.cache) && Enabled(s, op)
  {
    op.Create? && Round(op.request) == 0 && forall i :: 0 <= i < 8 ==> s.cache.localFree[i]
  }

  /** Under the invariant a request is served locally, or misses, or is the one bad case. */
  lemma GetCases(c: Cache, size: nat)
    requires Shaped(c) && Pristine(c)
    ensures var i := ScanFrom(c.localFree, c.localSlots, size, 0);
      && (i >= 0 ==> Fits(c.localFree, c.localSlots, size, i)
                     && GetStack(c, size) == Hit(c.(localFree := c.localFree[i := true]), c.localSlots[i]))
      && (i < 0 && size > 0 ==> GetStack(c, size) == Miss)
      && (i < 0 && size == 0 ==> GetStack(c, size).Hit? && GetStack(c, size).slot == NULL
                                 && !Pristine(GetStack(c, size).cache))
      && (i < 0 ==> forall j :: 0 <= j < 8 ==> !Fits(c.localFree, c.localSlots, size, j))
  {
    var g := ScanFrom(c.globalFree, c.globalSlots, size, 0);
    if size == 0 { assert Fits(c.globalFree, c.globalSlots, size, 0); }
    if g >= 0 { assert c.globalFree[g := true][g]; }
  }

  // Stacks changing hands between fibers f and slots h.

  lemma ToSlot(f: multiset<Slot>, h: multiset<Slot>, x: Slot)
    requires x in f
    ensures (f - multiset{x}) + (h + multiset{x}) == f + h
  {
  }

  lemma ToFiber(f: multiset<Slot>, h: multiset<Slot>, x: Slot)
    requires x in h
    ensures (f + multiset{x}) + (h - multiset{x}) == f + h
  {
  }

  lemma ToSlotDropping(f: multiset<Slot>, h: multiset<Slot>, x: Slot, y: Slot)
    requires x in f && y in h
    ensures (f - multiset{x}) + (h + multiset{x} - multiset{y}) == f + h - multiset{y}
  {
  }

  lemma ToFiberFresh(f: multiset<Slot>, h: multiset<Slot>, x: Slot)
    ensures (f + multiset{x}) + h == f + h + multiset{x}
  {
  }

  lemma Appended(a: seq<Slot>, x: Slot)
    ensures multiset(a + [x]) == multiset(a) + multiset{x}
  {
  }

  lemma RealBase(m: multiset<Slot>, x: Slot)
    requires Distinct(m) && x in m
    ensures x.base != 0 && m[x] == 1
  {
  }

  lemma DistinctAdd(m: multiset<Slot>, x: Slot)
    requires Distinct(m) && x.base != 0 && x.size > 0 && forall y :: y in m ==> y.base != x.base
    ensures Distinct(m + multiset{x})
  {
  }

  lemma DistinctSub(m: multiset<Slot>, x: Slot)
    requires Distinct(m)
    ensures Distinct(m - multiset{x})
  {
  }

  ghost function HeldBy(c: Cache): multiset<Slot>
    requires Shaped(c)
  {
    Held(c.localFree, c.localSlots)
  }

  /** The invariant, its parts named. */
  lemma InvParts(s: State)
    ensures Inv(s) <==> (Shaped(s.cache) && Pristine(s.cache) && Distinct(s.mapped)
                         && s.mapped == multiset(s.fibers) + HeldBy(s.cache))
  {
    hide Held, Distinct, Pristine;
  }

  /** A hit takes the stack out of its slot; nothing else of the cache changes. */
  lemma TakeLocal(c: Cache, i: nat)
    requires Shaped(c) && Pristine(c) && i < 8 && !c.localFree[i]
    ensures var r := c.(localFree := c.localFree[i := true]);
      && Shaped(r) && Pristine(r) && c.localSlots[i] in HeldBy(c) && HeldBy(r) == HeldBy(c) - multiset{c.localSlots[i]}
  {
    HeldTake(c.localFree, c.localSlots, i);
    hide Held;
  }

  lemma HitInv(s: State, i: nat)
    requires Inv(s) && i < 8 && !s.cache.localFree[i]
    ensures var x := s.cache.localSlots[i];
      x.base != 0 && Inv(s.(cache := s.cache.(localFree := s.cache.localFree[i := true]), fibers := s.fibers + [x]))
  {
    var c, x := s.cache, s.cache.localSlots[i];
    var r := s.(cache := c.(localFree := c.localFree[i := true]), fibers := s.fibers + [x]);
    InvParts(s); InvParts(r);
    hide Inv, HeldBy, Distinct, Pristine;
    TakeLocal(c, i);
    RealBase(s.mapped, x);
    Appended(s.fibers, x);
    ToFiber(multiset(s.fibers), HeldBy(c), x);
  }

  lemma MapInv(s: State, x: Slot)
    requires Inv(s) && x.base != 0 && x.size > 0 && forall y :: y in s.mapped ==> y.base != x.base
    ensures Inv(s.(fibers := s.fibers + [x], mapped := s.mapped + multiset{x}))
  {
    var r := s.(fibers := s.fibers + [x], mapped := s.mapped + multiset{x});
    InvParts(s); InvParts(r);
    hide Inv, HeldBy, Distinct, Pristine;
    Appended(s.fibers, x);
    ToFiberFresh(multiset(s.fibers), HeldBy(s.cache), x);
    DistinctAdd(s.mapped, x);
  }

  lemma CreateInv(s: State, n: nat, b: bv64)
    requires Inv(s) && Enabled(s, Create(n, b))
    ensures Inv(CreateStep(s, Round(n), b)) <==> !ZeroMiss(s, Create(n, b))
  {
    var size, c := Round(n), s.cache;
    var i := ScanFrom(c.localFree, c.localSlots, size, 0);
    GetCases(c, size);
    assert i >= 0 ==> !c.localFree[i];
    assert forall j :: 0 <= j < 8 && !c.localFree[j] && size == 0 ==> Fits(c.localFree, c.localSlots, size, j);
    var r := CreateStep(s, size, b);
    InvParts(s); InvParts(r);
    hide Inv, ScanFrom, GetStack, HeldBy, Distinct, Pristine, Round, Fits;
    if i >= 0 { HitInv(s, i); } else if size > 0 && b != 0 { MapInv(s, Slot(b, size)); }
  }

  /** A put with the global cache pristine: into the lowest free local slot, if there is one. */
  lemma PutFree(c: Cache, x: Slot)
    requires Shaped(c) && Pristine(c) && Ffs(c.localFree) != 0
    ensures var p := PutStack(c, x);
      Shaped(p.cache) && Pristine(p.cache) && p.dropped == NULL && HeldBy(p.cache) == HeldBy(c) + multiset{x}
  {
    var i := Ffs(c.localFree) - 1;
    assert c.localFree[i];
    HeldFill(c.localFree, c.localSlots, i, x);
    hide Ffs, Held;
  }

  /** Otherwise in place of a local victim, which is unmapped. */
  lemma PutEvict(c: Cache, x: Slot)
    requires Shaped(c) && Pristine(c) && Ffs(c.localFree) == 0
    ensures var p := PutStack(c, x);
      && Shaped(p.cache) && Pristine(p.cache) && p.dropped in HeldBy(c)
      && HeldBy(p.cache) == HeldBy(c) + multiset{x} - multiset{p.dropped}
  {
    var v := Victim(x.base);
    assert !c.localFree[v] && Ffs(c.globalFree) == 0;
    var r := c.(localSlots := c.localSlots[v := x]);
    assert PutStack(c, x) == Put(r, c.localSlots[v]);
    assert Shaped(r) && Pristine(r);
    hide Ffs, Held, Victim, PutStack, Pristine;
    HeldFill(c.localFree, c.localSlots, v, x);
    assert HeldBy(r) == HeldBy(c) + multiset{x} - multiset{c.localSlots[v]};
    hide HeldBy;
  }

  lemma ExitInv(s: State, k: nat)
    requires Inv(s) && k < |s.fibers|
    ensures Inv(ExitStep(s, k))
  {
    var c, x := s.cache, s.fibers[k];
    var p, r := PutStack(c, x), ExitStep(s, k);
    var f, h := multiset(s.fibers), HeldBy(c);
    WithoutAt(s.fibers, k);
    InvParts(s); InvParts(r);
    hide Inv, PutStack, HeldBy, Distinct, Pristine, Ffs;
    if Ffs(c.localFree) != 0 {
      PutFree(c, x);
      ToSlot(f, h, x);
    } else {
      PutEvict(c, x);
      RealBase(s.mapped, p.dropped);
      DistinctSub(s.mapped, p.dropped);
      ToSlotDropping(f, h, x, p.dropped);
    }
  }

  /** Every operation keeps the books, except exactly a zero-size request on an empty local cache. */
  lemma StepInv(s: State, op: Op)
    requires Inv(s) && Enabled(s, op)
    ensures Inv(Step(s, op)) <==> !ZeroMiss(s, op)
  {
    hide Inv, CreateStep, ExitStep, Round;
    match op {
      case Create(n, b) => CreateInv(s, n, b);
      case Exit(k) => ExitInv(s, k);
    }
  }

  // ----- whole runs ------------------------------------------------------------------------------

  /** Runs in which no request is empty before or after rounding. */
  ghost predicate Runs(s: State, ops: seq<Op>, r: State)
    decreases |ops|
  {
    if ops == [] then r == s
    else
      && Shaped(s.cache) && Enabled(s, ops[0])
      && (ops[0].Create? ==> 0 < ops[0].request <= 0x1_0000_0000 - 4096)
      && Runs(Step(s, ops[0]), ops[1..], r)
  }

  lemma {:induction false} RunInv(s: State, ops: seq<Op>, r: State)
    requires Inv(s) && Runs(s, ops, r)
    ensures Inv(r)
    decreases |ops|
  {
    if ops != [] {
      StepInv(s, ops[0]);
      hide Inv, Step;
      RunInv(Step(s, ops[0]), ops[1..], r);
    }
  }

  function Start(): State { State(Fresh(), [], multiset{}) }

  lemma StartInv()
    ensures Inv(Start())
  {
    NoneHeld(Fresh().localFree, Fresh().localSlots);
    assert multiset(Start().fibers) == multiset{};
  }

  /**
    At every moment of every such run, each mapped stack belongs to exactly one live fiber or one
    occupied local slot, nothing else is mapped, and the global mask is still 0.
   */
  lemma EachStackOnce(ops: seq<Op>, r: State)
    requires Runs(Start(), ops, r)
    ensures Shaped(r.cache) && forall i :: 0 <= i < 64 ==> !r.cache.globalFree[i]
    ensures forall x :: x in r.mapped ==> r.mapped[x] == 1
    ensures forall x :: r.mapped[x] == multiset(r.fibers)[x] + Held(r.cache.localFree, r.cache.localSlots)[x]
  {
    StartInv();
    RunInv(Start(), ops, r);
    hide Runs, Held;
  }

  /** A fiber's stack is at least what it asked for; a new mapping means no occupied local slot fits. */
  lemma CreateServes(s: State, n: nat, b: bv64)
    requires Inv(s) && Enabled(s, Create(n, b)) && 0 < n <= 0x1_0000_0000 - 4096
    ensures var r := Step(s, Create(n, b));
            var known := exists i :: Fits(s.cache.localFree, s.cache.localSlots, Round(n), i);
      && (known || b != 0 ==> |r.fibers| == |s.fibers| + 1 && r.fibers[..|s.fibers|] == s.fibers
                              && r.fibers[|s.fibers|].size >= n)
      && (r.mapped != s.mapped <==> !known && b != 0)
      && (!known && b == 0 ==> r == s)
  {
    var c, size := s.cache, Round(n);
    GetCases(c, size);
    var i := ScanFrom(c.localFree, c.localSlots, size, 0);
    assert i >= 0 ==> Fits(c.localFree, c.localSlots, size, i);
    if i >= 0 {
      TakeLocal(c, i);
      RealBase(s.mapped, c.localSlots[i]);
    } else {
      assert forall j :: Fits(c.localFree, c.localSlots, size, j) ==> 0 <= j < 8;
      assert (s.mapped + multiset{Slot(b, size)})[Slot(b, size)] == s.mapped[Slot(b, size)] + 1;
    }
    hide Inv, ScanFrom, GetStack, Held, Distinct, Pristine;
  }

  /**
    Outside those runs: a put stores its stack in two slots exactly when the local cache is full
    and global slot 0 is free, because slot 0 is taken for "not found".
   */
  lemma StoredTwiceIff(c: Cache, x: Slot)
    requires Shaped(c) && x !in Held(c.localFree, c.localSlots) && x !in Held(c.globalFree, c.globalSlots)
    ensures var r := PutStack(c, x).cache;
            var copies := Held(r.localFree, r.localSlots)[x] + Held(r.globalFree, r.globalSlots)[x];
      copies == if (forall i :: 0 <= i < 8 ==> !c.localFree[i]) && c.globalFree[0] then 2 else 1
  {
    var i, g, v := Ffs(c.localFree), Ffs(c.globalFree), Victim(x.base);
    assert i == 0 <==> forall j :: 0 <= j < 8 ==> !c.localFree[j];
    assert g == 1 <==> c.globalFree[0];
    assert (i != 0 ==> c.localFree[i - 1]) && (g != 0 ==> c.globalFree[g - 1]);
    assert i == 0 ==> !c.localFree[v];
    hide Held, Ffs, Victim;
    if i != 0 {
      HeldOnce(c.localFree, c.localSlots, i - 1, x);
    } else {
      HeldOnce(c.localFree, c.localSlots, v, x);
      assert g <= 1 ==> Held(c.localFree, c.localSlots[v := x])[x] == 1;
      if g != 0 { HeldOnce(c.globalFree, c.globalSlots, g - 1, x); }
    }
  }

  /** Writing a stack that was not there into one slot makes one copy of it. */
  lemma HeldOnce(free: seq<bool>, slots: seq<Slot>, i: nat, x: Slot)
    requires |free| == |slots| && i < |free| && x !in Held(free, slots)
    ensures Held(free, slots)[x] == 0 && Held(free[i := false], slots[i := x])[x] == 1
    ensures !free[i] ==> free[i := false] == free
  {
    HeldFill(free, slots, i, x);
    assert !free[i] ==> free[i := false] == free;
    hide Held;
  }

  lemma ZeroRequestTakes(c: Cache, k: nat)
    requires Shaped(c) && k < 4 && !c.globalFree[k]
    requires forall i :: 0 <= i < 8 ==> c.localFree[i]
    requires forall i :: k < i < 4 ==> c.globalFree[i]
    ensures GetStack(c, 0) == Hit(c.(globalFree := c.globalFree[k := true]), c.globalSlots[k])
  {
    ScannedUnique(c.globalFree, c.globalSlots, 0, k, ScanFrom(c.globalFree, c.globalSlots, 0, 0));
  }

  /** The state in which that happens is reached by four zero-size requests on empty caches. */
  lemma FourZeroRequests(s: State, b: bv64)
    requires Inv(s) && s.fibers == [] && s.mapped == multiset{}
    requires forall i :: 0 <= i < 8 ==> s.cache.localFree[i]
    ensures var r := CreateStep(CreateStep(CreateStep(CreateStep(s, 0, b), 0, b), 0, b), 0, b);
      && r.fibers == [] && r.cache.globalFree[0]
  {
    var c3 := s.cache;
    ZeroRequestTakes(c3, 3);
    var c2 := c3.(globalFree := c3.globalFree[3 := true]);
    ZeroRequestTakes(c2, 2);
    var c1 := c2.(globalFree := c2.globalFree[2 := true]);
    ZeroRequestTakes(c1, 1);
    var c0 := c1.(globalFree := c1.globalFree[1 := true]);
    ZeroRequestTakes(c0, 0);
    hide GetStack;
  }
}
