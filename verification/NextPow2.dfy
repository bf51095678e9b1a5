/**
  next_pow2 of the pipe: rounding up to a power of two by smearing the top bit downwards.
  Words are naturals below 2^64; `Or` and `Shr` are the bitwise operations on them.
 */
module NextPow2 {

  function Pow2(k: nat): (p: nat)
    ensures p >= 1
  {
    if k == 0 then 1 else 2 * Pow2(k - 1)
  }

  const TOP: nat := 0x8000_0000_0000_0000
  const WORD: nat := 0x1_0000_0000_0000_0000

  predicate Bit(n: nat, i: nat) {
    if i == 0 then n % 2 == 1 else Bit(n / 2, i - 1)
  }

  function Or(a: nat, b: nat): nat {
    if a == 0 && b == 0 then 0
    else 2 * Or(a / 2, b / 2) + if a % 2 == 1 || b % 2 == 1 then 1 else 0
  }

  function Shr(n: nat, s: nat): nat
    decreases s
  {
    if s == 0 then n else Shr(n / 2, s - 1)
  }

  function BitLen(n: nat): nat {
    if n == 0 then 0 else 1 + BitLen(n / 2)
  }

  /** The least power of two not below n. */
  function Ceil(n: nat): (r: nat)
    ensures n <= r
    ensures n >= 1 ==> r < 2 * n
  {
    if n <= 1 then 1 else 2 * Ceil((n + 1) / 2)
  }

  lemma {:induction false} CeilIsPow2(n: nat)
    ensures exists k: nat :: Ceil(n) == Pow2(k)
  {
    if n <= 1 {
      assert Ceil(n) == Pow2(0);
    } else {
      CeilIsPow2((n + 1) / 2);
      var k: nat :| Ceil((n + 1) / 2) == Pow2(k);
      assert Ceil(n) == Pow2(k + 1);
    }
  }

  /** ... and indeed the least. */
  lemma {:induction false} CeilIsLeast(n: nat, k: nat)
    requires n <= Pow2(k)
    ensures Ceil(n) <= Pow2(k)
  {
    if n > 1 { CeilIsLeast((n + 1) / 2, k - 1); }
  }

  lemma {:induction false} PowMonotone(a: nat, b: nat)
    requires a <= b
    ensures Pow2(a) <= Pow2(b)
  {
    if a < b { PowMonotone(a, b - 1); }
  }

  lemma {:induction false} BitOr(a: nat, b: nat, i: nat)
    ensures Bit(Or(a, b), i) <==> Bit(a, i) || Bit(b, i)
    decreases i
  {
    if a != 0 || b != 0 {
      assert Or(a, b) / 2 == Or(a / 2, b / 2);
      if i > 0 { BitOr(a / 2, b / 2, i - 1); }
    } else {
      NoBits(i);
    }
  }

  lemma {:induction false} NoBits(i: nat)
    ensures !Bit(0, i)
  {
    if i > 0 { NoBits(i - 1); }
  }

  lemma {:induction false} BitShr(n: nat, s: nat, i: nat)
    ensures Bit(Shr(n, s), i) <==> Bit(n, i + s)
    decreases s
  {
    if s > 0 { BitShr(n / 2, s - 1, i); }
  }

  lemma {:induction false} OrBelow(a: nat, b: nat, k: nat)
    requires a < Pow2(k) && b < Pow2(k)
    ensures Or(a, b) < Pow2(k)
  {
    if k > 0 { OrBelow(a / 2, b / 2, k - 1); }
  }

  lemma {:induction false} ShrBelow(n: nat, s: nat)
    ensures Shr(n, s) <= n
    decreases s
  {
    if s > 0 { ShrBelow(n / 2, s - 1); }
  }

  lemma {:induction false} BitLenBounds(n: nat)
    ensures n < Pow2(BitLen(n))
    ensures n > 0 ==> BitLen(n) > 0 && Pow2(BitLen(n) - 1) <= n && Bit(n, BitLen(n) - 1)
  {
    if n > 0 { BitLenBounds(n / 2); }
  }

  lemma {:induction false} AllOnes(n: nat, k: nat)
    requires n < Pow2(k) && forall i: nat :: i < k ==> Bit(n, i)
    ensures n == Pow2(k) - 1
  {
    if k > 0 {
      assert Bit(n, 0);
      forall i: nat | i < k - 1 ensures Bit(n / 2, i) { assert Bit(n, i + 1); }
      AllOnes(n / 2, k - 1);
    }
  }

  /** The top `s` of the low k bits are ones. */
  ghost predicate Smeared(n: nat, k: nat, s: nat) {
    n < Pow2(k) && forall i: nat :: i < k && k - s <= i ==> Bit(n, i)
  }

  lemma SmearDoubles(n: nat, k: nat, s: nat)
    requires Smeared(n, k, s)
    ensures Smeared(Or(n, Shr(n, s)), k, 2 * s)
  {
    ShrBelow(n, s);
    OrBelow(n, Shr(n, s), k);
    forall i: nat | i < k && k - 2 * s <= i
      ensures Bit(Or(n, Shr(n, s)), i)
    {
      BitOr(n, Shr(n, s), i);
      BitShr(n, s, i);
    }
  }

  lemma CeilFromLength(n: nat, k: nat)
    requires n >= 1 && k == BitLen(n - 1)
    ensures Ceil(n) == Pow2(k)
  {
    BitLenBounds(n - 1);
    CeilIsLeast(n, k);
    if n > 1 {
      CeilIsPow2(n);
      var j: nat :| Ceil(n) == Pow2(j);
      hide Ceil, BitLen, Bit;
      if j < k { PowMonotone(j, k - 1); } else { PowMonotone(k, j); }
    }
  }

  /** Bit smearing returns the least power of two >= n, for every n up to 2^63; above, n itself. */
  method NextPowerOfTwo(n: nat) returns (r: nat)
    requires 1 <= n < WORD
    ensures n <= TOP ==> r == Ceil(n)
    ensures n > TOP ==> r == n
  {
    TopBit();
    if n >= TOP {
      if n == TOP { TopIsPow2(); }
      return n;
    }
    var m: nat := n - 1;
    ghost var k := BitLen(m);
    BitLenBounds(m);
    if k > 63 { PowMonotone(63, k - 1); }
    var shift: nat := 1;
    assert Smeared(m, k, 1);
    while shift < 64
      invariant 1 <= shift && (shift < 64 ==> shift in {1, 2, 4, 8, 16, 32}) && shift <= 64
      invariant Smeared(m, k, shift)
      decreases 64 - shift
    {
      SmearDoubles(m, k, shift);
      m := Or(m, Shr(m, shift));
      shift := 2 * shift;
    }
    AllOnes(m, k);
    CeilFromLength(n, k);
    return m + 1;
  }

  lemma PowPlus8(k: nat)
    ensures Pow2(k + 8) == 256 * Pow2(k)
  {
    assert Pow2(k + 2) == 4 * Pow2(k);
    assert Pow2(k + 4) == 4 * Pow2(k + 2);
    assert Pow2(k + 6) == 4 * Pow2(k + 4);
    assert Pow2(k + 8) == 4 * Pow2(k + 6);
  }

  lemma TopBit()
    ensures Pow2(63) == TOP
  {
    PowPlus8(0); PowPlus8(8); PowPlus8(16); PowPlus8(24);
    PowPlus8(32); PowPlus8(40); PowPlus8(48); PowPlus8(56);
    assert Pow2(64) == 2 * Pow2(63);
  }

  lemma TopIsPow2()
    ensures Ceil(TOP) == TOP
  {
    TopBit();
    CeilIsLeast(TOP, 63);
  }
}
