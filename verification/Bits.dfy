/** C's bitwise operators on unsigned integers, written on natural numbers. */
module Bits {
  import opened Common

  /** `1 << k`. */
  function Pow2(k: nat): (p: nat)
    ensures p >= 1
  {
    if k == 0 then 1 else 2 * Pow2(k - 1)
  }

  /** Bit `k` of `w`. */
  predicate Bit(w: nat, k: nat) {
    if k == 0 then w % 2 == 1 else Bit(w / 2, k - 1)
  }

  /** `a | b`. */
  function Or(a: nat, b: nat): nat
    decreases a + b
  {
    if a == 0 && b == 0 then 0
    else 2 * Or(a / 2, b / 2) + (if a % 2 == 1 || b % 2 == 1 then 1 else 0)
  }

  /** `a & b`. */
  function And(a: nat, b: nat): nat {
    if a == 0 then 0
    else 2 * And(a / 2, b / 2) + (if a % 2 == 1 && b % 2 == 1 then 1 else 0)
  }

  /** `a & ~b`. */
  function AndNot(a: nat, b: nat): nat {
    if a == 0 then 0
    else 2 * AndNot(a / 2, b / 2) + (if a % 2 == 1 && b % 2 == 0 then 1 else 0)
  }

  /** `a ^ b`. */
  function Xor(a: nat, b: nat): nat
    decreases a + b
  {
    if a == 0 && b == 0 then 0
    else 2 * Xor(a / 2, b / 2) + (if a % 2 != b % 2 then 1 else 0)
  }

  lemma {:induction false} ZeroHasNoBits(k: nat)
    ensures !Bit(0, k)
  {
    if k > 0 { ZeroHasNoBits(k - 1); }
  }

  lemma {:induction false} BitOfPow2(k: nat, j: nat)
    ensures Bit(Pow2(k), j) <==> j == k
  {
    if k == 0 {
      if j > 0 { ZeroHasNoBits(j - 1); }
    } else if j > 0 {
      assert Pow2(k) / 2 == Pow2(k - 1);
      BitOfPow2(k - 1, j - 1);
    }
  }

  lemma {:induction false} BitOfOr(a: nat, b: nat, j: nat)
    ensures Bit(Or(a, b), j) <==> Bit(a, j) || Bit(b, j)
  {
    if a == 0 && b == 0 {
      ZeroHasNoBits(j);
    } else if j > 0 {
      assert Or(a, b) / 2 == Or(a / 2, b / 2);
      BitOfOr(a / 2, b / 2, j - 1);
    }
  }

  lemma {:induction false} BitOfAnd(a: nat, b: nat, j: nat)
    ensures Bit(And(a, b), j) <==> Bit(a, j) && Bit(b, j)
  {
    if a == 0 {
      ZeroHasNoBits(j);
    } else if j > 0 {
      assert And(a, b) / 2 == And(a / 2, b / 2);
      BitOfAnd(a / 2, b / 2, j - 1);
    }
  }

  lemma {:induction false} BitOfAndNot(a: nat, b: nat, j: nat)
    ensures Bit(AndNot(a, b), j) <==> Bit(a, j) && !Bit(b, j)
  {
    if a == 0 {
      ZeroHasNoBits(j);
    } else if j > 0 {
      assert AndNot(a, b) / 2 == AndNot(a / 2, b / 2);
      BitOfAndNot(a / 2, b / 2, j - 1);
    }
  }

  lemma {:induction false} BitOfXor(a: nat, b: nat, j: nat)
    ensures Bit(Xor(a, b), j) <==> Bit(a, j) != Bit(b, j)
  {
    if a == 0 && b == 0 {
      ZeroHasNoBits(j);
    } else if j > 0 {
      assert Xor(a, b) / 2 == Xor(a / 2, b / 2);
      BitOfXor(a / 2, b / 2, j - 1);
    }
  }

  /** The complement of an n-bit number. */
  lemma {:induction false} BitOfComplement(a: nat, n: nat, j: nat)
    requires a < Pow2(n) && j < n
    ensures Bit(Pow2(n) - 1 - a, j) <==> !Bit(a, j)
  {
    if j > 0 {
      assert (Pow2(n) - 1 - a) / 2 == Pow2(n - 1) - 1 - a / 2;
      BitOfComplement(a / 2, n - 1, j - 1);
    }
  }

  /** An n-bit number has no bits from n on. */
  lemma {:induction false} NoHighBits(a: nat, n: nat, j: nat)
    requires a < Pow2(n) && n <= j
    ensures !Bit(a, j)
  {
    if n == 0 { ZeroHasNoBits(j); } else { NoHighBits(a / 2, n - 1, j - 1); }
  }

  lemma HalfOfQuotient(a: nat, p: nat)
    requires p >= 1
    ensures a / (2 * p) == a / 2 / p
  {
    var q, m := a / 2 / p, a / 2 % p;
    assert a / 2 == p * q + m;
    UniqueRemainder(a, 2 * p, q, 2 * m + a % 2);
  }

  lemma {:induction false} BitOfQuotient(a: nat, n: nat, q: nat, j: nat)
    requires q == a / Pow2(n)
    ensures Bit(q, j) <==> Bit(a, j + n)
  {
    if n > 0 {
      HalfOfQuotient(a, Pow2(n - 1));
      BitOfQuotient(a / 2, n - 1, q, j);
    }
  }

  lemma {:induction false} BitOfMultiple(a: nat, n: nat, j: nat)
    ensures Bit(a * Pow2(n), j) <==> n <= j && Bit(a, j - n)
  {
    if n > 0 {
      var x := a * Pow2(n - 1);
      assert a * Pow2(n) == 2 * x;
      if j > 0 { BitOfMultiple(a, n - 1, j - 1); }
    }
  }

  lemma {:induction false} BitOfRemainder(a: nat, n: nat, j: nat)
    ensures Bit(a % Pow2(n), j) <==> j < n && Bit(a, j)
  {
    if n == 0 {
      ZeroHasNoBits(j);
    } else {
      var p := Pow2(n - 1);
      var q, m := a / 2 / p, a / 2 % p;
      assert a / 2 == q * p + m;
      UniqueRemainder(a, 2 * p, q, 2 * m + a % 2);
      if j > 0 { BitOfRemainder(a / 2, n - 1, j - 1); }
    }
  }

  /** Numbers with the same bits are equal. */
  lemma {:induction false} SameBits(a: nat, b: nat)
    requires forall j: nat :: Bit(a, j) <==> Bit(b, j)
    ensures a == b
    decreases a + b
  {
    if a + b > 0 {
      assert Bit(a, 0) <==> Bit(b, 0);
      forall j: nat
        ensures Bit(a / 2, j) <==> Bit(b / 2, j)
      {
        assert Bit(a, j + 1) <==> Bit(b, j + 1);
      }
      SameBits(a / 2, b / 2);
    }
  }

  /** The highest bit of an (n + 1)-bit number says whether it reaches the upper half. */
  lemma {:induction false} TopBit(w: nat, n: nat)
    requires w < Pow2(n + 1)
    ensures Bit(w, n) <==> w >= Pow2(n)
  {
    if n > 0 { TopBit(w / 2, n - 1); }
  }

  /** `a & (1 << k)` is non-zero exactly when bit `k` of `a` is set. */
  lemma {:induction false} AndPow2(a: nat, k: nat)
    ensures And(a, Pow2(k)) != 0 <==> Bit(a, k)
  {
    if a == 0 {
      ZeroHasNoBits(k);
    } else if k > 0 {
      assert Pow2(k) / 2 == Pow2(k - 1);
      AndPow2(a / 2, k - 1);
    } else {
      AndZero(a / 2);
      assert Pow2(0) / 2 == 0;
    }
  }

  lemma {:induction false} AndZero(a: nat)
    ensures And(a, 0) == 0
  {
    if a > 0 { AndZero(a / 2); }
  }

  lemma {:induction false} OrFits(a: nat, b: nat, n: nat)
    requires a < Pow2(n) && b < Pow2(n)
    ensures Or(a, b) < Pow2(n)
  {
    if n == 0 {
      assert a == 0 && b == 0;
    } else if a != 0 || b != 0 {
      OrFits(a / 2, b / 2, n - 1);
    }
  }

  lemma {:induction false} XorFits(a: nat, b: nat, n: nat)
    requires a < Pow2(n) && b < Pow2(n)
    ensures Xor(a, b) < Pow2(n)
  {
    if n == 0 {
      assert a == 0 && b == 0;
    } else if a != 0 || b != 0 {
      XorFits(a / 2, b / 2, n - 1);
    }
  }

  lemma {:induction false} AndSmaller(a: nat, b: nat)
    ensures And(a, b) <= a
  {
    if a > 0 { AndSmaller(a / 2, b / 2); }
  }

  lemma {:induction false} AndNotSmaller(a: nat, b: nat)
    ensures AndNot(a, b) <= a
  {
    if a > 0 { AndNotSmaller(a / 2, b / 2); }
  }

  lemma {:induction false} Pow2Monotone(j: nat, k: nat)
    requires j <= k
    ensures Pow2(j) <= Pow2(k)
  {
    if j < k { Pow2Monotone(j, k - 1); }
  }

  lemma Pow2Of32()
    ensures Pow2(32) == 0x1_0000_0000
  {
    assert Pow2(8) == 256;
    assert Pow2(16) == 0x1_0000;
    assert Pow2(24) == 0x100_0000;
  }

  /** `w | (1 << k)` on a 32-bit word sets bit `k` and no other. */
  function SetBit(w: Word, k: nat): (r: Word)
    requires k < 32
    ensures forall j: nat :: Bit(r, j) <==> Bit(w, j) || j == k
  {
    Pow2Of32();
    Pow2Monotone(k + 1, 32);
    OrFits(w, Pow2(k), 32);
    assert forall j: nat :: Bit(Or(w, Pow2(k)), j) <==> Bit(w, j) || j == k by {
      forall j: nat ensures Bit(Or(w, Pow2(k)), j) <==> Bit(w, j) || j == k {
        BitOfOr(w, Pow2(k), j);
        BitOfPow2(k, j);
      }
    }
    Or(w, Pow2(k))
  }

  /** `w & ~(1 << k)` on a 32-bit word clears bit `k` and no other. */
  function ClearBit(w: Word, k: nat): (r: Word)
    requires k < 32
    ensures forall j: nat :: Bit(r, j) <==> Bit(w, j) && j != k
  {
    AndNotSmaller(w, Pow2(k));
    assert forall j: nat :: Bit(AndNot(w, Pow2(k)), j) <==> Bit(w, j) && j != k by {
      forall j: nat ensures Bit(AndNot(w, Pow2(k)), j) <==> Bit(w, j) && j != k {
        BitOfAndNot(w, Pow2(k), j);
        BitOfPow2(k, j);
      }
    }
    AndNot(w, Pow2(k))
  }
}
