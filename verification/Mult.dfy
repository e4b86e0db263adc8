/** The R2000 multiply of machine/mipssim.cc: a shift-and-add loop on 32-bit words. */
module Multiplication {
  import opened Bits
  import opened Common

  /** `-a`, which leaves the most negative int alone. */
  function Negate(a: Int32): Int32 {
    if a == -0x8000_0000 then a else -a
  }

  /** The 64 bits of a product, as a nonnegative number. */
  function Bits64(x: int): int {
    if x < 0 then x + W * W else x
  }

  lemma ProductBound(x: int, y: int)
    requires 0 <= x < W && 0 <= y < W
    ensures 0 <= x * y < W * W
  {
    ProductPositive(x, y);
    ProductMonotone(x, y, W);
    if x > 0 { ProductMonotone(W, x + 1, W); }
  }

  lemma Pow2Split(i: nat)
    requires i < 32
    ensures Pow2(i + 1) == 2 * Pow2(i) <= W && Pow2(32 - i) == 2 * Pow2(31 - i)
  {
    Pow2Monotone(i + 1, 32);
    Pow2Of32();
  }

  // ---------------------------------------------------------------- the loop

  /** After i steps `rem` is what remains of the multiplier ua, `term` is ub shifted i times,
      and the sum so far lacks just rem terms. */
  ghost predicate Progress(i: nat, rem: int, term: int, acc: int, ua: int, ub: int) {
    && i <= 32 && 0 <= rem < Pow2(32 - i) && 0 <= ua < W && 0 <= ub < W
    && term == ub * Pow2(i) && acc + rem * term == ua * ub && acc >= 0
  }

  lemma TermBound(ub: int, p: int)
    requires 0 <= ub < W && 0 < p && 2 * p <= W
    ensures 2 * (ub * p) == ub * (2 * p) && 0 <= ub * (2 * p) < W * W
  {
    var d := 2 * p;
    assert 0 <= ub * d <= ub * W;
  }

  lemma Shifted(i: nat, rem: int, term: int, ub: int)
    requires i < 32 && 0 <= rem < Pow2(32 - i) && 0 <= ub < W && term == ub * Pow2(i)
    ensures 0 <= 2 * term < W * W && 2 * term == ub * Pow2(i + 1) && rem / 2 < Pow2(31 - i)
  {
    hide Pow2;
    Pow2Split(i);
    TermBound(ub, Pow2(i));
  }

  lemma OddTimes(x: int, y: int)
    requires x % 2 == 1 && x >= 0 && y >= 0
    ensures x * y == (x / 2) * (2 * y) + y && (x / 2) * (2 * y) >= 0
  {
    var half := x / 2;
    assert x == 2 * half + 1;
  }

  lemma EvenTimes(x: int, y: int)
    requires x % 2 == 0
    ensures x * y == (x / 2) * (2 * y)
  {
    var half := x / 2;
    assert x == 2 * half;
  }

  lemma StepOdd(i: nat, rem: int, term: int, acc: int, ua: int, ub: int)
    requires Progress(i, rem, term, acc, ua, ub) && i < 32 && rem % 2 == 1
    ensures 2 * term < W * W && acc + term < W * W
    ensures Progress(i + 1, rem / 2, 2 * term, acc + term, ua, ub)
    ensures rem == 1 ==> acc + term == ua * ub
  {
    Shifted(i, rem, term, ub);
    ProductBound(ua, ub);
    OddTimes(rem, term);
  }

  lemma StepEven(i: nat, rem: int, term: int, acc: int, ua: int, ub: int)
    requires Progress(i, rem, term, acc, ua, ub) && i < 32 && rem % 2 == 0
    ensures 2 * term < W * W
    ensures Progress(i + 1, rem / 2, 2 * term, acc, ua, ub)
  {
    Shifted(i, rem, term, ub);
    EvenTimes(rem, term);
  }

  /** `>>` on an int copies the sign: the low 32 - i bits of a are what remains. */
  ghost predicate Remains(i: nat, a: int, rem: int, negative: bool) {
    i <= 32 && 0 <= rem < Pow2(32 - i) && a == if negative then rem - Pow2(32 - i) else rem
  }

  lemma RemainsShifted(i: nat, a: int, rem: int, negative: bool)
    requires Remains(i, a, rem, negative) && i < 32
    ensures a % 2 == rem % 2 && Remains(i + 1, a / 2, rem / 2, negative)
  {
    Pow2Split(i);
  }

  lemma RemainsOne(i: nat, a: Int32, rem: int, negative: bool)
    requires Remains(i, a, rem, negative) && Unsigned(a) == 1
    ensures rem == 1
  {
  }

  /** Add the double word (bHi, bLo) to (hi, lo); the carry shows as a sum below its term. */
  method AddDouble(hi: Word, lo: Word, bHi: Word, bLo: Word) returns (hi': Word, lo': Word)
    requires (hi * W + lo) + (bHi * W + bLo) < W * W
    ensures hi' * W + lo' == (hi * W + lo) + (bHi * W + bLo)
  {
    lo' := (lo + bLo) % W;
    hi' := hi;
    if lo' < bLo {
      assert hi + 1 < W;
      hi' := (hi' + 1) % W;
    }
    hi' := (hi' + bHi) % W;
  }

  /** Shift the double word left by one. */
  method ShiftDouble(bHi: Word, bLo: Word) returns (bHi': Word, bLo': Word)
    requires 2 * (bHi * W + bLo) < W * W
    ensures bHi' * W + bLo' == 2 * (bHi * W + bLo)
  {
    bHi' := (2 * bHi) % W;
    if bLo >= 0x8000_0000 {
      bHi' := bHi' + 1;       // the low bit is clear after the shift
    }
    bLo' := (2 * bLo) % W;
  }

  /** The product of the bits of a and b as unsigned words. */
  method MultBits(a0: Int32, b: Int32) returns (hi: Word, lo: Word)
    ensures hi * W + lo == Unsigned(a0) * Unsigned(b)
  {
    hide Progress, Remains, Pow2;
    var a := a0;
    var bLo: Word, bHi: Word := Unsigned(b), 0;
    lo, hi := 0, 0;
    ghost var ua, ub := Unsigned(a0), Unsigned(b);
    ghost var rem: int := ua;
    Begins(a0, b);
    var i := 0;
    while i < 32
      invariant 0 <= i <= 32
      invariant Remains(i, a, rem, a0 < 0)
      invariant Progress(i, rem, bHi * W + bLo, hi * W + lo, ua, ub)
    {
      RemainsShifted(i, a, rem, a0 < 0);
      if a % 2 == 1 {
        StepOdd(i, rem, bHi * W + bLo, hi * W + lo, ua, ub);
        hi, lo := AddDouble(hi, lo, bHi, bLo);
        if Unsigned(a) - 1 == 0 {
          RemainsOne(i, a, rem, a0 < 0);
          return;
        }
      } else {
        StepEven(i, rem, bHi * W + bLo, hi * W + lo, ua, ub);
      }
      bHi, bLo := ShiftDouble(bHi, bLo);
      a := a / 2;
      rem := rem / 2;
      i := i + 1;
    }
    Ends(rem, bHi * W + bLo, hi * W + lo, ua, ub);
  }

  lemma Begins(a: Int32, b: Int32)
    ensures Remains(0, a, Unsigned(a), a < 0) && Progress(0, Unsigned(a), Unsigned(b), 0, Unsigned(a), Unsigned(b))
  {
    Pow2Of32();
    assert Pow2(0) == 1;
  }

  lemma Ends(rem: int, term: int, acc: int, ua: int, ub: int)
    requires Progress(32, rem, term, acc, ua, ub)
    ensures acc == ua * ub
  {
    assert Pow2(0) == 1;
  }

  /** The exact product, for all operands: unsigned, or in 64-bit two's complement. */
  method Mult(a0: Int32, b0: Int32, signedArith: bool) returns (hi: Word, lo: Word)
    ensures hi * W + lo == if signedArith then Bits64(a0 * b0) else Unsigned(a0) * Unsigned(b0)
  {
    hide Unsigned, Negate, Bits64;
    if a0 == 0 || b0 == 0 {
      Zero(a0, b0);
      return 0, 0;
    }
    var a, b, negative := a0, b0, false;
    if signedArith {
      if a < 0 {
        negative := !negative;
        a := Negate(a);
      }
      if b < 0 {
        negative := !negative;
        b := Negate(b);
      }
      Magnitudes(a0, b0);
    }
    hi, lo := MultBits(a, b);
    if negative {
      hi, lo := Complement(hi, lo);
    }
  }

  /** The two's complement of a double word that is not zero. */
  method Complement(hi: Word, lo: Word) returns (hi': Word, lo': Word)
    requires hi * W + lo > 0
    ensures hi' * W + lo' == W * W - (hi * W + lo)
  {
    hi', lo' := W - 1 - hi, W - 1 - lo;
    lo' := (lo' + 1) % W;
    if lo' == 0 {
      hi' := (hi' + 1) % W;
    }
  }

  lemma Zero(a: Int32, b: Int32)
    requires a == 0 || b == 0
    ensures Bits64(a * b) == 0 && Unsigned(a) * Unsigned(b) == 0
  {
  }

  function Abs(x: int): int { if x < 0 then -x else x }

  /** The unsigned reading of a negated int is its magnitude, even where negation does nothing. */
  lemma Magnitudes(a: Int32, b: Int32)
    requires a != 0 && b != 0
    ensures var x: int, y: int := Unsigned(if a < 0 then Negate(a) else a), Unsigned(if b < 0 then Negate(b) else b);
            && x * y > 0 && Bits64(a * b) == (if (a < 0) != (b < 0) then W * W - x * y else x * y)
  {
    var x: int, y: int := Abs(a), Abs(b);
    assert x == Unsigned(if a < 0 then Negate(a) else a) && y == Unsigned(if b < 0 then Negate(b) else b);
    SignRule(a, b);
  }

  lemma SignRule(a: int, b: int)
    requires a != 0 && b != 0
    ensures Abs(a) * Abs(b) > 0
    ensures a * b == if (a < 0) != (b < 0) then -(Abs(a) * Abs(b)) else Abs(a) * Abs(b)
  {
  }
}
