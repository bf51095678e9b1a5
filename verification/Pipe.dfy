/**
  The elastic pipe (unlimited pipes): a byte queue in a ring buffer that doubles when a push
  does not fit and halves when a pop leaves it at most a quarter full.
 */
module Pipe {
  import opened NextPow2
  import opened Ring
  import opened Streams

  const DEFAULT_MINCAP: nat := 32
  const SIZE_MAX: nat := WORD - 1

  // ----- capacities, counted in elements ------------------------------------------

  /** The capacities an unlimited pipe can have: the initial 31, or a power of two from 64 on. */
  ghost predicate CapOk(ce: nat) {
    ce == 31 || exists k: nat :: k >= 6 && ce == Pow2(k)
  }

  lemma PowGap(a: nat, b: nat)
    requires Pow2(a) < Pow2(b)
    ensures 2 * Pow2(a) <= Pow2(b)
  {
    if b <= a { PowMonotone(b, a); } else { PowMonotone(a + 1, b); }
  }

  lemma CapAtLeast31(ce: nat)
    requires CapOk(ce)
    ensures ce >= 31
  {
    if ce != 31 {
      var j: nat :| j >= 6 && ce == Pow2(j);
      PowSmall();
      PowMonotone(6, j);
    }
  }

  /** Growing to next_pow2(elements needed + 1): enough room, at least double, at most twice what is needed. */
  lemma GrowSize(ce: nat, n: nat)
    requires CapOk(ce) && n > ce
    ensures var g := Ceil(n + 1);
      CapOk(g) && g >= 64 && n < g <= 2 * n && g >= 2 * ce
  {
    hide Ceil, Pow2;
    CapAtLeast31(ce);
    AtMostTwice(n);
    CeilIsPow2(n + 1);
    var g := Ceil(n + 1);
    var k: nat :| g == Pow2(k);
    LegalPower(k);
    if ce != 31 {
      var j: nat :| j >= 6 && ce == Pow2(j);
      PowGap(j, k);
    }
  }

  lemma LegalPower(k: nat)
    requires Pow2(k) >= 33
    ensures Pow2(k) >= 64 && CapOk(Pow2(k))
  {
    PowSmall();
    if k < 6 { PowMonotone(k, 5); }
    PowMonotone(6, k);
  }

  lemma PowSmall()
    ensures Pow2(5) == 32 && Pow2(6) == 64
  {
    assert Pow2(3) == 8;
    assert Pow2(5) == 4 * Pow2(3);
  }

  lemma AtMostTwice(n: nat)
    requires n >= 1
    ensures n + 1 <= Ceil(n + 1) <= 2 * n
  {
    hide Ceil;
    CeilIsPow2(n + 1);
    var k: nat :| Ceil(n + 1) == Pow2(k);
    if k > 0 { LeastIfReached(n + 1, k - 1); }
  }

  lemma LeastIfReached(n: nat, k: nat)
    ensures n <= Pow2(k) ==> Ceil(n) <= Pow2(k)
  {
    if n <= Pow2(k) { CeilIsLeast(n, k); }
  }

  /** Halving happens from 128 elements on, and lands on a legal capacity. */
  lemma TrimSize(ce: nat)
    requires CapOk(ce) && ce / 2 > DEFAULT_MINCAP
    ensures ce % 4 == 0 && CapOk(ce / 2) && ce / 2 >= 64
  {
    var k: nat :| k >= 6 && ce == Pow2(k);
    PowSmall();
    assert k >= 7;
    assert Pow2(k - 1) == 2 * Pow2(k - 2);
    assert Pow2(k) == 2 * Pow2(k - 1);
    PowMonotone(6, k - 1);
    hide Pow2;
    assert ce / 2 == Pow2(k - 1);
  }

  // ----- the amortisation argument ---------------------------------------------------

  /** Twice the stored-up work: full buffers will be copied by a grow, sparse ones by a trim. */
  function Potential(u: int, c: int): int {
    if 2 * u >= c then 4 * u - 2 * c else c - 2 * u
  }

  /** A push pays for the grow it causes with three per byte pushed. */
  lemma GrowIsPaid(u: int, c: int, n: int, c2: int, e: int)
    requires 0 <= u <= c && 1 <= e <= n && u + n > c
    requires c2 >= 2 * c && u + n < c2 <= 2 * (u + n)
    ensures 2 * (u + e) + Potential(u + n, c2) <= Potential(u, c) + 6 * n
  {
  }

  lemma PushIsPaid(u: int, c: int, n: int)
    requires 0 <= u && 0 <= n && u + n <= c
    ensures Potential(u + n, c) <= Potential(u, c) + 6 * n
  {
  }

  /** A pop pays for the trim it causes with two per byte popped. */
  lemma TrimIsPaid(u: int, c: int, n: int, e: int)
    requires 0 <= u && 4 * u <= c && u + n <= c && 1 <= e <= n && c % 4 == 0
    ensures 2 * (u + e) + Potential(u, c / 2) <= Potential(u + n, c) + 4 * n
  {
  }

  lemma PopIsPaid(u: int, c: int, n: int)
    requires 0 <= u && 0 <= n && u + n <= c
    ensures Potential(u, c) <= Potential(u + n, c) + 4 * n
  {
  }

  // ----- the buffer operations ---------------------------------------------------------

  /** memcpy into a buffer: bounds are checked, everything else is untouched. */
  method Memcpy(dst: array<Byte>, at: nat, src: seq<Byte>)
    requires at + |src| <= dst.Length
    modifies dst
    ensures forall p :: 0 <= p < dst.Length ==>
      dst[p] == if at <= p < at + |src| then src[p - at] else old(dst[p])
  {
    forall j | 0 <= j < |src| {
      dst[at + j] := src[j];
    }
  }

  function Min(a: nat, b: nat): nat { if a <= b then a else b }

  /** process_push: fill to the end of the buffer, then go on from its start. */
  method ProcessPush(buf: array<Byte>, begin: nat, end: nat, data: seq<Byte>) returns (newEnd: nat)
    requires begin <= buf.Length && end < buf.Length
    requires begin >= end ==> end + |data| <= begin
    requires begin < end ==> end + |data| <= buf.Length + begin
    modifies buf
    ensures Written(old(buf[..]), buf[..], end, data)
    ensures newEnd == Wrap(end + |data|, buf.Length)
  {
    var left, pos := data, end;
    if begin < end {
      var atEnd := Min(|left|, buf.Length - pos);
      Memcpy(buf, pos, left[..atEnd]);
      pos := pos + atEnd;
      left := left[atEnd..];
    }
    if left != [] {
      pos := Wrap(pos, buf.Length);
      Memcpy(buf, pos, left);
      pos := pos + |left|;
    }
    newEnd := Wrap(pos, buf.Length);
  }

  /** pop_without_locking: copy out from after the sentinel, in at most two pieces. */
  method PopWithoutLocking(buf: array<Byte>, begin: nat, end: nat, e: nat, n: nat)
    returns (target: seq<Byte>, newBegin: nat)
    requires Sound(buf.Length, begin, end, e) && n <= InUse(buf.Length, begin, end, e)
    ensures target == Contents(buf[..], begin, end, e)[..n]
    ensures newBegin == Wrap(begin + n, buf.Length)
  {
    var left, b := n, begin;
    var first := Min(left, buf.Length - b - e);
    target := buf[b + e..b + e + first];
    ghost var c := Contents(buf[..], begin, end, e);
    forall i | 0 <= i < first ensures target[i] == c[i] {
      assert Wrap(begin + e + i, buf.Length) == begin + e + i;
    }
    left := left - first;
    b := Wrap(b + first, buf.Length);
    if left > 0 {
      b := Wrap(b + e, buf.Length);
      assert b == 0;
      assert forall j :: 0 <= j < left ==> buf[j] == c[first + j] by {
        forall j | 0 <= j < left ensures buf[j] == c[first + j] {
          assert Wrap(begin + e + (first + j), buf.Length) == j;
        }
      }
      target := target + buf[b..b + left];
      assert forall i :: 0 <= i < n ==> target[i] == c[i];
      b := Wrap(b + left, buf.Length);
      b := b - e;
      if b < 0 { b := buf.Length + b; }
    }
    newBegin := b;
    assert target == c[..n];
  }

  /** copy_pipe_into_new_buf: sentinel and data, unwrapped to the front of the new buffer. */
  method CopyIntoNewBuf(buf: array<Byte>, begin: nat, end: nat, e: nat, fresh2: array<Byte>) returns (n: nat)
    requires Sound(buf.Length, begin, end, e) && buf != fresh2
    requires InUse(buf.Length, begin, end, e) + e <= fresh2.Length
    modifies fresh2
    ensures n == InUse(buf.Length, begin, end, e) + e
    ensures forall i :: 0 <= i < n ==> fresh2[i] == buf[Wrap(begin + i, buf.Length)]
  {
    if begin >= end {
      Memcpy(fresh2, 0, buf[begin..]);
      Memcpy(fresh2, buf.Length - begin, buf[..end]);
      n := buf.Length - begin + end;
    } else {
      Memcpy(fresh2, 0, buf[begin..end]);
      n := end - begin;
    }
  }

  // ----- elements and bytes ---------------------------------------------------------------

  function Bytes(k: nat, e: nat): nat { k * e }

  /** A whole number of elements. */
  predicate Aligned(bytes: nat, e: nat)
    requires e >= 1
  {
    bytes % e == 0
  }

  lemma BytesAdd(a: nat, b: nat, e: nat)
    ensures Bytes(a + b, e) == Bytes(a, e) + Bytes(b, e)
    ensures Bytes(1, e) == e && Bytes(0, e) == 0
  {
  }

  lemma BytesOrder(a: nat, b: nat, e: nat)
    requires e >= 1
    ensures a < b <==> Bytes(a, e) < Bytes(b, e)
    ensures a < b ==> Bytes(a, e) + e <= Bytes(b, e)
    ensures a == b <==> Bytes(a, e) == Bytes(b, e)
  {
    if a < b { BytesGrow(a, b, e); }
    if b < a { BytesGrow(b, a, e); }
  }

  lemma {:induction false} BytesGrow(a: nat, b: nat, e: nat)
    requires a < b
    ensures Bytes(a, e) + e <= Bytes(b, e)
  {
    assert Bytes(b, e) == Bytes(b - 1, e) + e;
    if a < b - 1 { BytesGrow(a, b - 1, e); }
  }

  lemma BytesDiv(k: nat, e: nat)
    requires e >= 1
    ensures Bytes(k, e) / e == k && Bytes(k, e) >= k
  {
    var q, r := Bytes(k, e) / e, Bytes(k, e) % e;
    assert Bytes(q, e) + r == Bytes(k, e);
    BytesOrder(q, k, e);
    BytesOrder(k, q, e);
    BytesAtLeast(k, e);
  }

  lemma {:induction false} BytesAtLeast(k: nat, e: nat)
    requires e >= 1
    ensures Bytes(k, e) >= k
  {
    if k > 0 { BytesAtLeast(k - 1, e); assert Bytes(k, e) == Bytes(k - 1, e) + e; }
  }

  lemma WholeElements(bytes: nat, e: nat)
    requires e >= 1 && Aligned(bytes, e)
    ensures bytes == Bytes(bytes / e, e)
  {
  }

  /** Positions wrap in elements exactly as they do in bytes. */
  lemma WrapElems(a: nat, len: nat, e: nat)
    requires e >= 1 && a < 2 * len
    ensures Wrap(Bytes(a, e), Bytes(len, e)) == Bytes(if a >= len then a - len else a, e)
    ensures (if a >= len then a - len else a) < len
  {
    BytesOrder(a, len, e);
    if a >= len { BytesAdd(len, a - len, e); }
  }

  /** The size a grow asks for, and what it costs, in bytes. */
  lemma GrowBytes(ue: nat, ce: nat, n: nat, e: nat)
    requires e >= 1 && CapOk(ce) && ue <= ce < ue + n
    ensures var g := Ceil(ue + n + 1);
      && CapOk(g) && g > DEFAULT_MINCAP && ue + n < g
      && Bytes(g, e) <= 2 * Bytes(ue + n, e)
      && 2 * (Bytes(ue, e) + e) + Potential(Bytes(ue + n, e), Bytes(g, e))
         <= Potential(Bytes(ue, e), Bytes(ce, e)) + 6 * Bytes(n, e)
  {
    GrowSize(ce, ue + n);
    var g := Ceil(ue + n + 1);
    hide Ceil, CapOk, Bytes;
    BytesAdd(ue, n, e);
    BytesOrder(ue, ce, e);
    BytesOrder(ce, ue + n, e);
    BytesOrder(ue + n, g, e);
    BytesOrder(g, 2 * (ue + n), e); BytesAdd(ue + n, ue + n, e);
    BytesOrder(2 * ce, g, e); BytesAdd(ce, ce, e);
    BytesOrder(1, n, e); BytesAdd(1, 0, e);
    GrowIsPaid(Bytes(ue, e), Bytes(ce, e), Bytes(n, e), Bytes(g, e), e);
  }

  /** Trimming in bytes: the shares of an aligned capacity are aligned. */
  lemma TrimBytes(ue: nat, ce: nat, e: nat)
    requires e >= 1 && CapOk(ce)
    ensures ce / 2 > DEFAULT_MINCAP ==>
      && CapOk(ce / 2)
      && Bytes(ce, e) / 2 == Bytes(ce / 2, e)
      && Bytes(ce, e) % 4 == 0
      && (Bytes(ue, e) <= Bytes(ce, e) / 4 ==> ue < ce / 2)
    ensures ce / 2 <= DEFAULT_MINCAP ==> Bytes(ce, e) / 2 <= Bytes(DEFAULT_MINCAP, e)
  {
    hide CapOk, Bytes, Pow2;
    if ce / 2 > DEFAULT_MINCAP {
      TrimSize(ce);
      var q := ce / 4;
      assert ce == 4 * q && ce / 2 == 2 * q && q >= 1;
      QuarterBytes(ue, q, e);
    } else {
      SmallCap(ce, e);
    }
  }

  lemma QuarterBytes(ue: nat, q: nat, e: nat)
    requires e >= 1 && q >= 1
    ensures Bytes(4 * q, e) == 4 * Bytes(q, e) && Bytes(2 * q, e) == 2 * Bytes(q, e)
    ensures Bytes(ue, e) <= Bytes(q, e) ==> ue <= q
  {
    hide Bytes;
    BytesAdd(q, q, e);
    BytesAdd(2 * q, 2 * q, e);
    BytesOrder(q, ue, e);
  }

  lemma PowPast64(k: nat)
    ensures k > 6 ==> Pow2(k) >= 128
  {
    PowSmall();
    if k > 6 { PowMonotone(7, k); }
  }

  /** With at most 65 elements half the bytes cannot exceed the minimum; only 31 and 64 occur. */
  lemma SmallCap(ce: nat, e: nat)
    requires e >= 1 && CapOk(ce) && ce / 2 <= DEFAULT_MINCAP
    ensures Bytes(ce, e) <= 2 * Bytes(DEFAULT_MINCAP, e)
  {
    if ce > 64 {
      var k: nat :| k >= 6 && ce == Pow2(k);
      PowSmall();
      PowPast64(k);
    }
    hide Bytes;
    BytesOrder(ce, 64, e);
    BytesAdd(32, 32, e);
  }

  /** How many whole elements a pop of `requested` bytes takes. */
  ghost function Share(requested: nat, ue: nat, e: nat): (n: nat)
    requires e >= 1 && Aligned(requested, e) && requested > 0 && Bytes(ue, e) > 0
    ensures 1 <= n <= ue && Bytes(n, e) == Min(requested, Bytes(ue, e))
  {
    WholeElements(requested, e);
    BytesOrder(ue, requested / e, e);
    BytesOrder(0, requested / e, e);
    BytesOrder(0, ue, e);
    if requested <= Bytes(ue, e) then requested / e else ue
  }

  lemma PopFacts(n: nat, ue: nat, ce: nat, e: nat)
    requires e >= 1 && 1 <= n <= ue <= ce
    ensures Bytes(n, e) + Bytes(ue - n, e) == Bytes(ue, e) <= Bytes(ce, e) && Bytes(n, e) >= e
  {
    hide Bytes;
    BytesAdd(n, ue - n, e);
    BytesAdd(0, 1, e);
    BytesOrder(0, n, e);
    BytesOrder(ue, ce, e);
    BytesOrder(1, n, e);
  }

  // ----- the pipe object -----------------------------------------------------------------

  /** What a pop attempt comes to: bytes, or a wait because the pipe is empty and producers remain. */
  datatype PopResult = Popped(bytes: seq<Byte>) | Waits

  /** If the size to grow to can be represented, next_pow2 computes it. */
  lemma GrowIsComputed(n: nat, e: nat)
    requires e >= 1 && Bytes(Ceil(n), e) + e <= SIZE_MAX
    ensures n <= TOP
  {
    hide Ceil, Bytes;
    BytesDiv(Ceil(n), e);
    CeilIsPow2(n);
    TopBit();
    var k: nat :| Ceil(n) == Pow2(k);
    if n > TOP { PowGap(63, k); }
  }

  lemma RepresentableIs(n: nat, e: nat)
    requires e >= 1
    ensures Representable(Bytes(n, e), e) <==> Bytes(Ceil(n + 1), e) + e <= SIZE_MAX
  {
    BytesDiv(n, e);
    hide Bytes, Ceil;
  }

  /** The capacity a push leaves: the same if everything fits, else the least power of two above what is needed. */
  ghost predicate Grown(cap: int, used: nat, e: nat, cap2: int) {
    if used <= cap then cap2 == cap
    else exists n: nat :: used == Bytes(n, e) && cap2 == Bytes(Ceil(n + 1), e)
  }

  lemma GrownIs(ce: nat, total: nat, e: nat, ce2: nat)
    requires e >= 1 && ce2 == if total <= ce then ce else Ceil(total + 1)
    ensures Grown(Bytes(ce, e), Bytes(total, e), e, Bytes(ce2, e))
  {
    hide Ceil, Bytes;
    BytesOrder(ce, total, e);
    if total > ce { assert Bytes(total, e) == Bytes(total, e) && Bytes(ce2, e) == Bytes(Ceil(total + 1), e); }
  }

  /** The capacity a pop leaves: half of it, if at most a quarter is still used and half is above the minimum. */
  function Trimmed(cap: int, used: nat, e: nat): int {
    if 4 * used <= cap && cap / 2 > Bytes(DEFAULT_MINCAP, e) then cap / 2 else cap
  }

  /** A buffer grown to hold this many bytes has a size that fits in a size_t. */
  predicate Representable(bytes: nat, e: nat)
    requires e >= 1
  {
    Bytes(Ceil(bytes / e + 1), e) + e <= SIZE_MAX
  }

  class ElasticPipe {
    const elemSize: nat
    var buffer: array<Byte>
    var begin: nat
    var end: nat
    var producers: nat

    // In elements: capacity, position of begin and end, bytes in use.
    ghost var capElems: nat
    ghost var beginElems: nat
    ghost var endElems: nat
    ghost var usedElems: nat

    // Totals over the life of the pipe: bytes copied by resizes, pushed, popped.
    ghost var moved: nat
    ghost var pushed: nat
    ghost var popped: nat

    ghost predicate Shape()
      reads this, buffer
    {
      && elemSize >= 1
      && CapOk(capElems) && buffer.Length == Bytes(capElems + 1, elemSize)
      && Bytes(capElems, elemSize) + elemSize <= SIZE_MAX
      && beginElems <= capElems && begin == Bytes(beginElems, elemSize)
      && endElems <= capElems && end == Bytes(endElems, elemSize)
      && Sound(buffer.Length, begin, end, elemSize)
      && usedElems <= capElems && InUse(buffer.Length, begin, end, elemSize) == Bytes(usedElems, elemSize)
    }

    /** Work done by resizes so far plus the work stored up, were `u` bytes in use. */
    ghost function Account(u: int): int
      reads this
    {
      2 * moved + Potential(u, Bytes(capElems, elemSize))
    }

    /** Resizing so far has been paid for by the traffic so far. */
    ghost predicate Paid()
      reads this
    {
      Account(Bytes(usedElems, elemSize)) <= 6 * pushed + 4 * popped + 32 * elemSize
    }

    ghost predicate Valid()
      reads this, buffer
    {
      Shape() && Paid()
    }

    ghost function Queued(): seq<Byte>
      reads this, buffer
      requires Shape()
    {
      Contents(buffer[..], begin, end, elemSize)
    }

    /** pipe_new with limit 0 */
    constructor (size: nat)
      requires size >= 1 && DEFAULT_MINCAP * size <= SIZE_MAX
      ensures Valid() && Queued() == [] && elemSize == size && fresh(buffer)
      ensures moved == pushed == popped == 0 && producers == 1
      ensures capElems == DEFAULT_MINCAP - 1 && buffer.Length == Bytes(DEFAULT_MINCAP, size)
    {
      elemSize := size;
      buffer := new Byte[DEFAULT_MINCAP * size];
      begin := 0;
      end := size;
      producers := 1;
      capElems, beginElems, endElems, usedElems := 31, 0, 1, 0;
      moved, pushed, popped := 0, 0, 0;
    }

    /** resize_buffer: nothing below the minimum capacity; otherwise copy into a new buffer. */
    method ResizeBuffer(newSize: nat, ghost ne: nat)
      requires Shape() && newSize + elemSize <= SIZE_MAX
      requires newSize > Bytes(DEFAULT_MINCAP, elemSize) ==>
        newSize == Bytes(ne, elemSize) && CapOk(ne) && usedElems < ne
      modifies this
      ensures Shape() && Queued() == old(Queued()) && usedElems == old(usedElems)
      ensures pushed == old(pushed) && popped == old(popped) && producers == old(producers)
      ensures newSize <= Bytes(DEFAULT_MINCAP, elemSize) ==> unchanged(this)
      ensures newSize > Bytes(DEFAULT_MINCAP, elemSize) ==>
        fresh(buffer) && capElems == ne && moved == old(moved) + Bytes(usedElems, elemSize) + elemSize
    {
      var minCap := Bytes(DEFAULT_MINCAP, elemSize);
      if newSize <= minCap { return; }
      hide CapOk, Contents, Bytes;
      BytesOrder(usedElems, ne, elemSize);
      BytesAdd(ne, 1, elemSize);
      BytesAdd(usedElems, 1, elemSize);
      BytesAdd(0, 1, elemSize);
      var newBuf := new Byte[newSize + elemSize];
      var n := CopyIntoNewBuf(buffer, begin, end, elemSize, newBuf);
      MoveKeeps(buffer[..], begin, end, elemSize, newBuf[..]);
      begin, end := 0, n;
      buffer := newBuf;
      capElems, beginElems, endElems := ne, 0, usedElems + 1;
      moved := moved + n;
    }

    /** validate_size: make sure `bytes` more fit, growing if need be. */
    method ValidateSize(bytes: nat, ghost n: nat)
      requires Shape() && bytes == Bytes(n, elemSize) && n >= 1
      requires usedElems + n > capElems ==> Bytes(Ceil(usedElems + n + 1), elemSize) + elemSize <= SIZE_MAX
      modifies this
      ensures Shape() && Queued() == old(Queued()) && usedElems == old(usedElems)
      ensures pushed == old(pushed) && popped == old(popped) && producers == old(producers)
      ensures fresh(buffer) || buffer == old(buffer)
      ensures usedElems + n <= capElems
      ensures capElems == if usedElems + n <= old(capElems) then old(capElems) else Ceil(usedElems + n + 1)
      ensures Account(Bytes(usedElems + n, elemSize)) <= old(Account(Bytes(usedElems, elemSize))) + 6 * bytes
    {
      hide CapOk, Contents, Bytes, Ceil, Potential;
      var cap := Capacity(buffer.Length, elemSize);
      var needed := InUse(buffer.Length, begin, end, elemSize) + bytes;
      ghost var total := usedElems + n;
      BytesAdd(usedElems, n, elemSize);
      BytesAdd(capElems, 1, elemSize);
      BytesOrder(capElems, total, elemSize);
      if needed > cap {
        GrowBytes(usedElems, capElems, n, elemSize);
        GrowIsComputed(total + 1, elemSize);
        BytesDiv(total, elemSize);
        var elems := needed / elemSize;
        var g := NextPowerOfTwo(elems + 1);
        BytesOrder(DEFAULT_MINCAP, g, elemSize);
        ResizeBuffer(Bytes(g, elemSize), g);
      } else {
        PushIsPaid(Bytes(usedElems, elemSize), cap, bytes);
      }
    }

    /** The part of the push under the end lock, once there is room. */
    method Append(data: seq<Byte>, ghost n: nat)
      requires Shape() && |data| == Bytes(n, elemSize) && usedElems + n <= capElems
      modifies this, buffer
      ensures Shape() && Queued() == old(Queued()) + data && buffer == old(buffer)
      ensures usedElems == old(usedElems) + n && capElems == old(capElems) && moved == old(moved)
      ensures pushed == old(pushed) + |data| && popped == old(popped) && producers == old(producers)
    {
      hide CapOk, Contents, Bytes;
      BytesAdd(usedElems, n, elemSize);
      BytesAdd(capElems, 1, elemSize);
      BytesOrder(capElems, usedElems + n, elemSize);
      BytesAdd(endElems, n, elemSize);
      WrapElems(endElems + n, capElems + 1, elemSize);
      var newEnd := ProcessPush(buffer, begin, end, data);
      PushAppends(old(buffer[..]), buffer[..], begin, end, elemSize, data);
      end := newEnd;
      endElems := if endElems + n >= capElems + 1 then endElems + n - (capElems + 1) else endElems + n;
      usedElems := usedElems + n;
      pushed := pushed + |data|;
    }

    /** The condition on the bytes to be queued, in elements. */
    lemma GrowthFits(bytes: nat, n: nat)
      requires Shape() && bytes == Bytes(n, elemSize)
      requires |Queued()| + bytes <= Bytes(capElems, elemSize) || Representable(|Queued()| + bytes, elemSize)
      ensures usedElems + n > capElems ==> Bytes(Ceil(usedElems + n + 1), elemSize) + elemSize <= SIZE_MAX
    {
      hide CapOk, Bytes, Ceil, Contents;
      BytesAdd(usedElems, n, elemSize);
      BytesOrder(capElems, usedElems + n, elemSize);
      BytesDiv(usedElems + n, elemSize);
      RepresentableIs(usedElems + n, elemSize);
    }

    /** pipe_push: append the bytes, whatever resizing that takes. */
    method Push(data: seq<Byte>)
      requires Valid() && Aligned(|data|, elemSize)
      requires |Queued()| + |data| <= Bytes(capElems, elemSize) || Representable(|Queued()| + |data|, elemSize)
      modifies this, buffer
      ensures Valid() && Queued() == old(Queued()) + data
      ensures pushed == old(pushed) + |data| && popped == old(popped) && producers == old(producers)
      ensures fresh(buffer) || buffer == old(buffer)
      ensures Grown(old(Bytes(capElems, elemSize)), |Queued()|, elemSize, Bytes(capElems, elemSize))
    {
      if |data| == 0 { NothingGrown(); return; }
      ghost var n := |data| / elemSize;
      ghost var ce, total := capElems, usedElems + n;
      WholeElements(|data|, elemSize);
      PushSome(data, n);
      GrownIs(ce, total, elemSize, capElems);
      hide *;
    }

    lemma NothingGrown()
      requires Valid()
      ensures Grown(Bytes(capElems, elemSize), |Queued()|, elemSize, Bytes(capElems, elemSize))
    {
      SentinelRule();
      hide Bytes, Ceil;
    }

    /** The push proper: make room, then copy in. */
    method PushSome(data: seq<Byte>, ghost n: nat)
      requires Valid() && n >= 1 && |data| == Bytes(n, elemSize)
      requires |Queued()| + |data| <= Bytes(capElems, elemSize) || Representable(|Queued()| + |data|, elemSize)
      modifies this, buffer
      ensures Valid() && Queued() == old(Queued()) + data
      ensures pushed == old(pushed) + |data| && popped == old(popped) && producers == old(producers)
      ensures fresh(buffer) || buffer == old(buffer)
      ensures capElems == (if old(usedElems) + n <= old(capElems) then old(capElems) else Ceil(old(usedElems) + n + 1))
      ensures |Queued()| == Bytes(old(usedElems) + n, elemSize) && elemSize >= 1
    {
      GrowthFits(|data|, n);
      hide CapOk, Contents, Bytes, Potential, Ceil, Representable;
      ValidateSize(|data|, n);
      Append(data, n);
    }

    /** trim_buffer: at most a quarter full means halve, unless that is below the minimum. */
    method TrimBuffer() returns (trimmed: bool)
      requires Shape()
      modifies this
      ensures Shape() && Queued() == old(Queued()) && usedElems == old(usedElems)
      ensures pushed == old(pushed) && popped == old(popped) && producers == old(producers)
      ensures fresh(buffer) || buffer == old(buffer)
      ensures trimmed <==> 4 * Bytes(usedElems, elemSize) <= Bytes(old(capElems), elemSize)
                           && Bytes(old(capElems), elemSize) / 2 > Bytes(DEFAULT_MINCAP, elemSize)
      ensures !trimmed ==> unchanged(this)
      ensures trimmed ==>
        && 4 * Bytes(usedElems, elemSize) <= Bytes(old(capElems), elemSize)
        && Bytes(old(capElems), elemSize) % 4 == 0
        && Bytes(capElems, elemSize) == Bytes(old(capElems), elemSize) / 2
        && moved == old(moved) + Bytes(usedElems, elemSize) + elemSize
    {
      hide CapOk, Contents, Bytes;
      BytesAdd(capElems, 1, elemSize);
      TrimBytes(usedElems, capElems, elemSize);
      var cap := Capacity(buffer.Length, elemSize);
      if InUse(buffer.Length, begin, end, elemSize) > cap / 4 { return false; }
      trimmed := cap / 2 > Bytes(DEFAULT_MINCAP, elemSize);
      ResizeBuffer(cap / 2, capElems / 2);
    }

    /** Advance begin past n bytes, handing them out. */
    method TakeFront(bytes: nat, ghost n: nat) returns (target: seq<Byte>)
      requires Shape() && bytes == Bytes(n, elemSize) && n <= usedElems && bytes <= |Queued()|
      modifies this`begin, this`beginElems, this`usedElems, this`popped
      ensures Shape() && target == old(Queued())[..bytes] && Queued() == old(Queued())[bytes..]
      ensures usedElems == old(usedElems) - n && popped == old(popped) + bytes
    {
      hide CapOk, Contents, Bytes;
      BytesAdd(n, usedElems - n, elemSize);
      BytesAdd(beginElems, n, elemSize);
      BytesAdd(capElems, 1, elemSize);
      WrapElems(beginElems + n, capElems + 1, elemSize);
      ghost var b2 := if beginElems + n >= capElems + 1 then beginElems + n - (capElems + 1) else beginElems + n;
      BytesOrder(b2, capElems + 1, elemSize);
      PopDrops(buffer[..], begin, end, elemSize, bytes);
      var newBegin;
      target, newBegin := PopWithoutLocking(buffer, begin, end, elemSize, bytes);
      begin := newBegin;
      beginElems, usedElems, popped := b2, usedElems - n, popped + bytes;
    }

    /** __pipe_pop: as many of the requested bytes as there are now, oldest first. */
    method Pop(requested: nat) returns (r: PopResult)
      requires Valid() && Aligned(requested, elemSize)
      modifies this
      ensures Valid() && producers == old(producers) && pushed == old(pushed)
      ensures fresh(buffer) || buffer == old(buffer)
      ensures r.Waits? <==> requested > 0 && old(Queued()) == [] && producers > 0
      ensures r.Waits? ==> unchanged(this)
      ensures r.Popped? ==>
        && r.bytes == old(Queued())[..Min(requested, |old(Queued())|)]
        && old(Queued()) == r.bytes + Queued()
        && popped == old(popped) + |r.bytes|
        && Aligned(|r.bytes|, elemSize)
      ensures r.Popped? && r.bytes != [] ==> Bytes(capElems, elemSize) == Trimmed(old(Bytes(capElems, elemSize)), |Queued()|, elemSize)
    {
      WholeBytes(0, elemSize);
      assert Bytes(0, elemSize) == 0;
      hide CapOk, Contents, Bytes, Potential, Aligned, InUse, Sound;
      if requested == 0 { return Popped([]); }
      var used := InUse(buffer.Length, begin, end, elemSize);
      if used == 0 { return if producers > 0 then Waits else Popped([]); }
      r := PopSome(requested);
    }

    /** There is something: take it and see whether the buffer should shrink. */
    method PopSome(requested: nat) returns (r: PopResult)
      requires Valid() && Aligned(requested, elemSize) && requested > 0 && |Queued()| > 0
      modifies this
      ensures Valid() && producers == old(producers) && pushed == old(pushed)
      ensures fresh(buffer) || buffer == old(buffer)
      ensures r.Popped? && r.bytes == old(Queued())[..Min(requested, |old(Queued())|)]
      ensures old(Queued()) == r.bytes + Queued() && popped == old(popped) + |r.bytes| && Aligned(|r.bytes|, elemSize)
      ensures Bytes(capElems, elemSize) == Trimmed(old(Bytes(capElems, elemSize)), |Queued()|, elemSize)
    {
      hide CapOk, Contents, Bytes, Potential, Aligned, InUse, Sound;
      var bytes := Min(requested, InUse(buffer.Length, begin, end, elemSize));
      ghost var n := Share(requested, usedElems, elemSize);
      PopFacts(n, usedElems, capElems, elemSize);
      WholeBytes(n, elemSize);
      ghost var q := Queued();
      var target := TakeFront(bytes, n);
      assert q == q[..bytes] + q[bytes..];
      ghost var u, c := Bytes(usedElems, elemSize), Bytes(capElems, elemSize);
      var trimmed := TrimBuffer();
      if trimmed { TrimIsPaid(u, c, bytes, elemSize); } else { PopIsPaid(u, c, bytes); }
      return Popped(target);
    }

    /** pipe_pop: repeat until all that was asked for is there, the producers are gone, or it must wait. */
    method PopAll(count: nat) returns (bytes: seq<Byte>, waits: bool)
      requires Valid()
      modifies this
      ensures Valid() && producers == old(producers) && pushed == old(pushed)
      ensures fresh(buffer) || buffer == old(buffer)
      ensures bytes == old(Queued())[..Min(Bytes(count, elemSize), |old(Queued())|)]
      ensures old(Queued()) == bytes + Queued() && popped == old(popped) + |bytes|
      ensures waits <==> Bytes(count, elemSize) > |old(Queued())| && producers > 0
    {
      var left: nat := Bytes(count, elemSize);
      WholeBytes(count, elemSize);
      hide Shape, Paid, Queued, Bytes, Aligned;
      bytes := [];
      waits := false;
      while left > 0
        invariant elemSize >= 1 && Valid() && producers == old(producers) && pushed == old(pushed)
        invariant fresh(buffer) || buffer == old(buffer)
        invariant left + |bytes| == Bytes(count, elemSize) && Aligned(left, elemSize)
        invariant old(Queued()) == bytes + Queued() && popped == old(popped) + |bytes|
        decreases left
      {
        ghost var q := Queued();
        var r := Pop(left);
        if r == Waits { TakenIsPrefix(old(Queued()), bytes, q); waits := true; return; }
        if r.bytes == [] { TakenIsPrefix(old(Queued()), bytes, q); return; }
        Glue(old(Queued()), bytes, q, r.bytes, Queued());
        AlignedSubtract(left, |r.bytes|, elemSize);
        bytes := bytes + r.bytes;
        left := left - |r.bytes|;
      }
      TakenIsPrefix(old(Queued()), bytes, Queued());
    }

    /** The sentinel rule in every state of the object: the positions meet exactly when the pipe is full. */
    lemma SentinelRule()
      requires Valid()
      ensures |Queued()| <= Capacity(buffer.Length, elemSize) == Bytes(capElems, elemSize)
      ensures begin == end <==> |Queued()| == Capacity(buffer.Length, elemSize)
      ensures end < buffer.Length && Aligned(begin, elemSize) && Aligned(end, elemSize)
    {
      FullIff(buffer.Length, begin, end, elemSize);
      WholeBytes(beginElems, elemSize);
      WholeBytes(endElems, elemSize);
      hide CapOk, Bytes, Aligned, Contents;
      BytesAdd(capElems, 1, elemSize);
    }

    /** Amortised cost: all resizing ever done is linear in the traffic. */
    lemma ResizingIsAmortised()
      requires Valid()
      ensures moved <= 3 * pushed + 2 * popped + 16 * elemSize
    {
    }
  }

  lemma WholeBytes(k: nat, e: nat)
    requires e >= 1
    ensures Aligned(Bytes(k, e), e)
  {
    BytesDiv(k, e);
    assert Bytes(Bytes(k, e) / e, e) + Bytes(k, e) % e == Bytes(k, e);
  }

  lemma Glue(q0: seq<Byte>, out: seq<Byte>, q: seq<Byte>, more: seq<Byte>, q2: seq<Byte>)
    requires q0 == out + q && q == more + q2
    ensures q0 == (out + more) + q2
  {
  }

  lemma TakenIsPrefix(q0: seq<Byte>, out: seq<Byte>, q: seq<Byte>)
    requires q0 == out + q
    ensures out == q0[..|out|] && |q0| == |out| + |q|
  {
  }

  lemma AlignedSubtract(a: nat, b: nat, e: nat)
    requires e >= 1 && b <= a && Aligned(a, e) && Aligned(b, e)
    ensures Aligned(a - b, e)
  {
    WholeElements(a, e);
    WholeElements(b, e);
    BytesOrder(a / e, b / e, e);
    BytesAdd(b / e, a / e - b / e, e);
    WholeBytes(a / e - b / e, e);
  }

  // ----- whole runs ------------------------------------------------------------------------

  datatype Call = PushCall(data: seq<Byte>) | PopCall(bytes: nat)

  predicate CallOk(c: Call, e: nat)
    requires e >= 1
  {
    match c
    case PushCall(data) => Aligned(|data|, e)
    case PopCall(bytes) => Aligned(bytes, e)
  }

  /** Everything a sequence of calls pushes, in order. */
  function PushedBytes(calls: seq<Call>): seq<Byte> {
    if calls == [] then [] else PushedBytes(calls[..|calls| - 1]) + PushedBy(calls[|calls| - 1])
  }

  /** A plain byte queue going through the same calls. */
  function QueueAfter(q: seq<Byte>, calls: seq<Call>): seq<Byte> {
    if calls == [] then q else Called(QueueAfter(q, calls[..|calls| - 1]), calls[|calls| - 1])
  }

  /** One call on a plain byte queue. */
  function Called(q: seq<Byte>, c: Call): seq<Byte> {
    match c
    case PushCall(data) => q + data
    case PopCall(bytes) => q[Min(bytes, |q|)..]
  }

  function PushedBy(c: Call): seq<Byte> { if c.PushCall? then c.data else [] }

  lemma QueueStart(q: seq<Byte>)
    ensures QueueAfter(q, []) == q && PushedBytes([]) == []
  {
  }

  lemma QueueStep(q: seq<Byte>, calls: seq<Call>, i: nat)
    requires i < |calls|
    ensures QueueAfter(q, calls[..i + 1]) == Called(QueueAfter(q, calls[..i]), calls[i])
    ensures PushedBytes(calls[..i + 1]) == PushedBytes(calls[..i]) + PushedBy(calls[i])
  {
    assert calls[..i + 1][..i] == calls[..i];
  }

  method DriveOne(p: ElasticPipe, c: Call) returns (got: seq<Byte>)
    requires p.Valid() && p.elemSize >= 1 && CallOk(c, p.elemSize) && !TooLarge(p, c)
    modifies p, p.buffer
    ensures p.Valid() && (fresh(p.buffer) || p.buffer == old(p.buffer))
    ensures p.Queued() == Called(old(p.Queued()), c) && old(p.Queued()) + PushedBy(c) == got + p.Queued()
    ensures p.pushed == old(p.pushed) + |PushedBy(c)| && p.popped == old(p.popped) + |got|
  {
    p.SentinelRule();
    hide ElasticPipe.Shape, ElasticPipe.Paid, ElasticPipe.Queued, Aligned, Representable;
    got := [];
    match c {
      case PushCall(data) => p.Push(data);
      case PopCall(bytes) =>
        ghost var q := p.Queued();
        var r := p.Pop(bytes);
        if r.Popped? {
          got := r.bytes;
          assert p.Queued() == (r.bytes + p.Queued())[|r.bytes|..];
        }
    }
  }

  /** A push that must grow the buffer to a size that does not fit in a size_t. */
  ghost predicate TooLarge(p: ElasticPipe, c: Call)
    reads p, p.buffer
    requires p.Valid() && p.elemSize >= 1
  {
    c.PushCall? && |p.Queued()| + |c.data| > Capacity(p.buffer.Length, p.elemSize)
    && !Representable(|p.Queued()| + |c.data|, p.elemSize)
  }

  /**
    Refinement of a byte queue over any sequence of calls, up to the first push that would need an
    unrepresentable buffer: the pipe holds what the plain queue holds; what comes out, followed by what
    is still queued, is what was queued followed by what went in; begin meets end exactly when the pipe
    is full; and resizing stayed linear.
   */
  method Drive(p: ElasticPipe, calls: seq<Call>) returns (out: seq<Byte>, done: nat)
    requires p.Valid() && p.elemSize >= 1 && forall i :: 0 <= i < |calls| ==> CallOk(calls[i], p.elemSize)
    modifies p, p.buffer
    ensures p.Valid() && done <= |calls| && p.Queued() == QueueAfter(old(p.Queued()), calls[..done])
    ensures done < |calls| ==> TooLarge(p, calls[done])
    ensures old(p.Queued()) + PushedBytes(calls[..done]) == out + p.Queued()
    ensures p.pushed == old(p.pushed) + |PushedBytes(calls[..done])| && p.popped == old(p.popped) + |out|
    ensures p.begin == p.end <==> |p.Queued()| == Capacity(p.buffer.Length, p.elemSize)
    ensures p.moved <= 3 * p.pushed + 2 * p.popped + 16 * p.elemSize
  {
    hide ElasticPipe.Shape, ElasticPipe.Paid, ElasticPipe.Queued, Aligned, Representable, Called, PushedBy, CallOk;
    hide QueueAfter, PushedBytes, TooLarge;
    out, done := [], 0;
    ghost var q0 := p.Queued();
    QueueStart(q0);
    assert calls[..0] == [];
    while done < |calls|
      invariant done <= |calls|
      invariant p.elemSize >= 1 && p.Valid() && (fresh(p.buffer) || p.buffer == old(p.buffer))
      invariant p.Queued() == QueueAfter(q0, calls[..done])
      invariant q0 + PushedBytes(calls[..done]) == out + p.Queued()
      invariant p.pushed == old(p.pushed) + |PushedBytes(calls[..done])| && p.popped == old(p.popped) + |out|
    {
      var stop := IsTooLarge(p, calls[done]);
      if stop { break; }
      QueueStep(q0, calls, done);
      ghost var q := p.Queued();
      var got := DriveOne(p, calls[done]);
      Compose(q0, PushedBytes(calls[..done]), PushedBy(calls[done]), out, q, got, p.Queued());
      out, done := out + got, done + 1;
    }
    p.SentinelRule();
    p.ResizingIsAmortised();
  }

  method IsTooLarge(p: ElasticPipe, c: Call) returns (b: bool)
    requires p.Valid() && p.elemSize >= 1
    ensures b <==> TooLarge(p, c)
  {
    if c.PopCall? { return false; }
    var bytes := InUse(p.buffer.Length, p.begin, p.end, p.elemSize) + |c.data|;
    hide CapOk, Bytes, Ceil;
    b := bytes > Capacity(p.buffer.Length, p.elemSize) && !Representable(bytes, p.elemSize);
  }
}
