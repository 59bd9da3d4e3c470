/** Bit operations on natural numbers, and how they relate to powers of two. */
module Bits {
  import opened Arithmetic

  function Pow2(k: nat): (p: nat)
    ensures p > 0
  {
    if k == 0 then 1 else 2 * Pow2(k - 1)
  }

  predicate Bit(n: nat, i: nat) {
    if i == 0 then n % 2 == 1 else Bit(n / 2, i - 1)
  }

  function And(x: nat, y: nat): nat {
    if x == 0 || y == 0 then 0 else 2 * And(x / 2, y / 2) + if x % 2 == 1 && y % 2 == 1 then 1 else 0
  }

  function Or(x: nat, y: nat): nat {
    if x == 0 then y else if y == 0 then x
    else 2 * Or(x / 2, y / 2) + if x % 2 == 1 || y % 2 == 1 then 1 else 0
  }

  function Shr(n: nat, k: nat): nat {
    if k == 0 then n else Shr(n / 2, k - 1)
  }

  lemma {:induction false} ZeroBits(i: nat)
    ensures !Bit(0, i)
  {
    if i > 0 {
      ZeroBits(i - 1);
    }
  }

  lemma {:induction false} AndBit(x: nat, y: nat, i: nat)
    ensures Bit(And(x, y), i) <==> Bit(x, i) && Bit(y, i)
  {
    if x == 0 || y == 0 {
      ZeroBits(i);
    } else if i > 0 {
      AndBit(x / 2, y / 2, i - 1);
      assert And(x, y) / 2 == And(x / 2, y / 2);
    }
  }

  lemma {:induction false} OrBit(x: nat, y: nat, i: nat)
    ensures Bit(Or(x, y), i) <==> Bit(x, i) || Bit(y, i)
  {
    if x == 0 || y == 0 {
      ZeroBits(i);
    } else if i > 0 {
      OrBit(x / 2, y / 2, i - 1);
      assert Or(x, y) / 2 == Or(x / 2, y / 2);
    }
  }

  lemma {:induction false} ShrBit(n: nat, k: nat, i: nat)
    ensures Bit(Shr(n, k), i) <==> Bit(n, i + k)
  {
    if k > 0 {
      ShrBit(n / 2, k - 1, i);
    }
  }

  /** A number is its bits. */
  lemma {:induction false} SameBits(x: nat, y: nat)
    requires forall i: nat :: Bit(x, i) <==> Bit(y, i)
    ensures x == y
    decreases x + y
  {
    assert Bit(x, 0) <==> Bit(y, 0);
    if x > 0 || y > 0 {
      forall i: nat ensures Bit(x / 2, i) <==> Bit(y / 2, i) {
        assert Bit(x, i + 1) <==> Bit(y, i + 1);
      }
      SameBits(x / 2, y / 2);
    }
  }

  lemma {:induction false} Pow2Grows(j: nat, k: nat)
    requires j < k
    ensures 2 * Pow2(j) <= Pow2(k)
  {
    if j + 1 < k {
      Pow2Grows(j, k - 1);
    }
  }

  /** 2^k - 1 has exactly the k lowest bits. */
  lemma {:induction false} OnesBits(k: nat, i: nat)
    ensures Bit(Pow2(k) - 1, i) <==> i < k
  {
    if k == 0 {
      ZeroBits(i);
    } else {
      assert (Pow2(k) - 1) / 2 == Pow2(k - 1) - 1;
      if i > 0 {
        OnesBits(k - 1, i - 1);
      }
    }
  }

  /** Position after the leading one. */
  function Length(n: nat): nat {
    if n == 0 then 0 else 1 + Length(n / 2)
  }

  lemma {:induction false} LengthBits(n: nat, i: nat)
    ensures i >= Length(n) ==> !Bit(n, i)
    ensures Length(n) > 0 ==> Bit(n, Length(n) - 1)
  {
    if n == 0 {
      ZeroBits(i);
    } else if n / 2 == 0 {
      ZeroBits(if i > 0 then i - 1 else 0);
    } else {
      LengthBits(n / 2, if i > 0 then i - 1 else 0);
    }
  }

  lemma {:induction false} LengthBounds(n: nat)
    ensures n < Pow2(Length(n)) && (n > 0 ==> Pow2(Length(n) - 1) <= n)
  {
    if n > 0 {
      LengthBounds(n / 2);
    }
  }

  /** A number below 2^k has at most k bits. */
  lemma {:induction false} LengthBelow(n: nat, k: nat)
    requires n < Pow2(k)
    ensures Length(n) <= k
  {
    if n > 0 {
      LengthBelow(n / 2, k - 1);
    }
  }

  /** Masking with 2^k - 1 is taking the remainder by 2^k. */
  lemma {:induction false} MaskIsRemainder(x: nat, k: nat)
    ensures And(x, Pow2(k) - 1) == x % Pow2(k)
  {
    hide And;
    if k == 0 {
      MaskZero(x);
    } else {
      MaskIsRemainder(x / 2, k - 1);
      MaskStep(x, Pow2(k - 1));
    }
  }

  lemma MaskZero(x: nat)
    ensures And(x, 0) == 0
  {
  }

  /** One more bit of mask keeps one more bit of the number. */
  lemma MaskStep(x: nat, p: nat)
    requires p > 0 && And(x / 2, p - 1) == (x / 2) % p
    ensures And(x, 2 * p - 1) == x % (2 * p)
  {
    assert (2 * p - 1) / 2 == p - 1 && (2 * p - 1) % 2 == 1;
    HalvedRemainder(x, p);
  }

  lemma HalvedRemainder(x: nat, m: nat)
    requires m > 0
    ensures x % (2 * m) == 2 * ((x / 2) % m) + x % 2
  {
    var q, r := (x / 2) / m, (x / 2) % m;
    assert x == 2 * (m * q + r) + x % 2;
    assert x == q * (2 * m) + (2 * r + x % 2);
    DivisionUnique(x, 2 * m, q, 2 * r + x % 2);
  }
}
