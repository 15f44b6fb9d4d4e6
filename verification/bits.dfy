/**
 Unsigned machine words as natural numbers: bitwise and, masks and the alignment idiom
 (x + al - 1) & ~(al - 1).
 */
module Bits {

  const U64: nat := 0x1_0000_0000_0000_0000

  function Min(x: nat, y: nat): nat { if x < y then x else y }

  function Max(x: nat, y: nat): nat { if x < y then y else x }

  function Pow2(k: nat): (r: nat)
    ensures r > 0
  { if k == 0 then 1 else 2 * Pow2(k - 1) }

  /** The alignments a caller may ask for. */
  ghost predicate PowerOfTwo(al: nat) { exists k: nat :: k <= 63 && al == Pow2(k) }

  function And(x: nat, y: nat): (r: nat)
    ensures r <= x && r <= y
  { if x == 0 || y == 0 then 0 else 2 * And(x / 2, y / 2) + (x % 2) * (y % 2) }

  function Add64(x: nat, y: nat): (r: nat)
    ensures r < U64
    ensures x + y < U64 ==> r == x + y
  { (x + y) % U64 }

  /** (x + al - 1) & ~(al - 1) in 64-bit arithmetic. */
  function AlignUp(x: nat, al: nat): nat
    requires 0 < al <= U64
  { And(Add64(x, al - 1), U64 - al) }

  /** x & ~(al - 1). */
  function AlignDown(x: nat, al: nat): nat
    requires 0 < al <= U64
  { And(x, U64 - al) }

  lemma {:induction false} AndOnes(x: nat, w: nat)
    requires x < Pow2(w)
    ensures And(x, Pow2(w) - 1) == x
  {
    if x > 0 {
      assert w > 0;
      assert (Pow2(w) - 1) / 2 == Pow2(w - 1) - 1 && (Pow2(w) - 1) % 2 == 1;
      AndOnes(x / 2, w - 1);
    }
  }

  /** Halving splits off the lowest bit of a remainder. */
  lemma HalfMod(x: nat, m: nat)
    requires m > 0
    ensures x % (2 * m) == 2 * ((x / 2) % m) + x % 2
  {
    var q, r := (x / 2) / m, (x / 2) % m;
    assert x / 2 == q * m + r;
    assert x == 2 * (x / 2) + x % 2;
    assert x == q * (2 * m) + (2 * r + x % 2) by { assert 2 * (q * m) == q * (2 * m); }
    ModUnique(x, 2 * m, q, 2 * r + x % 2);
  }

  lemma ModUnique(x: int, m: int, q: int, r: int)
    requires m > 0 && x == q * m + r && 0 <= r < m
    ensures x % m == r && x / m == q
  {
    var d := x / m - q;
    assert x == m * (x / m) + x % m;
    assert m * d == r - x % m by { assert m * (x / m) - m * q == m * (x / m - q); assert q * m == m * q; }
    MulStep(m, d);
  }

  /** A product with a positive m is at least m away from zero, or zero. */
  lemma MulStep(m: int, d: int)
    requires m > 0
    ensures d >= 1 ==> m * d >= m
    ensures d <= -1 ==> m * d <= -m
    ensures d == 0 ==> m * d == 0
  {
  }

  /** Masking with 2^w - 2^k clears the k low bits. */
  lemma {:induction false} AndHigh(x: nat, k: nat, w: nat)
    requires k <= w && x < Pow2(w)
    ensures Pow2(k) <= Pow2(w)
    ensures And(x, Pow2(w) - Pow2(k)) == x - x % Pow2(k)
    decreases k
  {
    if k == 0 {
      AndOnes(x, w);
      assert x % 1 == 0;
    } else {
      AndHigh(x / 2, k - 1, w - 1);
      var y := Pow2(w) - Pow2(k);
      assert y / 2 == Pow2(w - 1) - Pow2(k - 1) && y % 2 == 0;
      HalfMod(x, Pow2(k - 1));
      assert And(x, y) == 2 * And(x / 2, y / 2);
    }
  }

  lemma Pow64()
    ensures Pow2(63) == 0x8000_0000_0000_0000 && Pow2(64) == U64
  {
    assert Pow2(8) == 0x100;
    assert Pow2(16) == 0x1_0000;
    assert Pow2(24) == 0x100_0000;
    assert Pow2(32) == 0x1_0000_0000;
    assert Pow2(40) == 0x100_0000_0000;
    assert Pow2(48) == 0x1_0000_0000_0000;
    assert Pow2(56) == 0x100_0000_0000_0000;
  }

  lemma {:induction false} Pow2Monotone(j: nat, k: nat)
    requires j <= k
    ensures Pow2(j) <= Pow2(k)
  {
    if j < k { Pow2Monotone(j, k - 1); }
  }

  lemma PowerBound(al: nat)
    requires PowerOfTwo(al)
    ensures 0 < al <= 0x8000_0000_0000_0000
  {
    var k: nat :| k <= 63 && al == Pow2(k);
    Pow64();
    Pow2Monotone(k, 63);
  }

  /** The alignment idiom rounds down to the largest multiple not above x. */
  lemma AlignDownMeaning(x: nat, al: nat)
    requires PowerOfTwo(al) && x < U64
    ensures 0 < al <= U64 && AlignDown(x, al) == x - x % al
    ensures AlignDown(x, al) % al == 0 && AlignDown(x, al) <= x < AlignDown(x, al) + al
  {
    var k: nat :| k <= 63 && al == Pow2(k);
    Pow64();
    AndHigh(x, k, 64);
    RoundDown(x, al);
  }

  lemma RoundDown(x: nat, al: nat)
    requires al > 0
    ensures (x - x % al) % al == 0
  {
    assert x - x % al == (x / al) * al + 0;
    ModUnique(x - x % al, al, x / al, 0);
  }

  /** ... and, with al - 1 added first, up to the smallest multiple not below x; if that would be
      2^64, the result is zero. */
  lemma AlignUpMeaning(x: nat, al: nat)
    requires PowerOfTwo(al) && x < U64
    ensures 0 < al <= U64 && AlignUp(x, al) % al == 0 && AlignUp(x, al) < U64
    ensures x + al <= U64 ==>
              && x <= AlignUp(x, al) < x + al
              && forall y :: x <= y && y % al == 0 ==> AlignUp(x, al) <= y
    ensures x + al > U64 ==> AlignUp(x, al) == 0
  {
    PowerBound(al);
    Wrap64(x + al - 1);
    if x + al <= U64 {
      AlignDownMeaning(x + al - 1, al);
      var r := AlignUp(x, al);
      forall y | x <= y && y % al == 0 ensures r <= y {
        if y < r { MultiplesApart(y, r, al); }
      }
    } else {
      var z := x + al - 1 - U64;
      AlignDownMeaning(z, al);
      ModUnique(z, al, 0, z);
    }
  }

  lemma MultiplesApart(y: int, r: int, al: int)
    requires al > 0 && y % al == 0 && r % al == 0 && y < r
    ensures y + al <= r
  {
    var i, j := y / al, r / al;
    assert y == al * i && r == al * j;
    MulStep(al, j - i);
    Distribute(al, j, i);
  }

  /** Reducing modulo 2^64 what is within one word of the range. */
  lemma Wrap64(x: int)
    requires 0 <= x + U64 < 3 * U64
    ensures x % U64 == if x < 0 then x + U64 else if x < U64 then x else x - U64
  {
    if x < 0 { ModUnique(x, U64, -1, x + U64); }
    else if x < U64 { ModUnique(x, U64, 0, x); }
    else { ModUnique(x, U64, 1, x - U64); }
  }

  lemma SumOfMultiples(x: int, y: int, m: int)
    requires m > 0 && x % m == 0 && y % m == 0
    ensures (x + y) % m == 0
  {
    var i, j := x / m, y / m;
    assert x == m * i && y == m * j;
    assert m * i + m * j == (i + j) * m + 0;
    ModUnique(x + y, m, i + j, 0);
  }

  lemma Distribute(m: int, j: int, i: int)
    ensures m * (j - i) == m * j - m * i
  {
  }
}
