/** Facts about products and quotients, each kept to one lemma. */
module Arithmetic {

  lemma MulMonotone(x: nat, y: nat, q: nat)
    requires x <= y
    ensures x * q <= y * q
  {
  }

  lemma ProductStep(m: int, q: int)
    ensures m * q + q == (m + 1) * q
  {
  }

  lemma ProductBounds(k: int, d: int)
    requires d >= 0
    ensures k >= 1 ==> k * d >= d
    ensures k <= -1 ==> k * d <= -d
  {
    if k >= 1 {
      assert (k - 1) * d >= 0;
    } else if k <= -1 {
      assert (-k - 1) * d >= 0;
    }
  }

  lemma DivisionUnique(x: nat, d: nat, q: nat, r: nat)
    requires d > 0 && x == q * d + r && r < d
    ensures x / d == q && x % d == r
  {
    var p: int, s: int := x / d, x % d;
    assert (q - p) * d == s - r;
    ProductBounds(q - p, d);
  }

  /** Adding multiples of the divisor does not change the remainder. */
  lemma RemainderOfSum(x: nat, k: nat, d: nat)
    requires d > 0
    ensures (x + k * d) % d == x % d
  {
    assert (x / d + k) * d == (x / d) * d + k * d;
    DivisionUnique(x + k * d, d, x / d + k, x % d);
  }

  lemma MultipleRemainder(k: int, d: nat)
    requires d > 0
    ensures (k * d) % d == 0
  {
    if k >= 0 {
      DivisionUnique(k * d, d, k, 0);
    } else {
      var r := (k * d) % d;
      assert r == (k - (k * d) / d) * d;
      ProductBounds(k - (k * d) / d, d);
    }
  }

  /* ---- numbers with two given remainders ---- */

  function Gcd(a: nat, b: nat): (g: nat)
    requires a > 0 || b > 0
    ensures g > 0
    decreases b
  {
    if b == 0 then a else Gcd(b, a % b)
  }

  lemma {:induction false} GcdDivides(a: nat, b: nat) returns (p: nat, q: nat)
    requires a > 0 || b > 0
    ensures a == p * Gcd(a, b) && b == q * Gcd(a, b)
    decreases b
  {
    if b == 0 {
      p, q := 1, 0;
    } else {
      var p', q' := GcdDivides(b, a % b);
      var g := Gcd(a, b);
      p, q := (a / b) * p' + q', p';
      Regroup(a / b, p', g);
      Distribute((a / b) * p', q', g);
    }
  }

  lemma Regroup(x: int, y: int, z: int)
    ensures x * (y * z) == (x * y) * z
  {
  }

  lemma Distribute(x: int, y: int, z: int)
    ensures (x + y) * z == x * z + y * z && (x - y) * z == x * z - y * z
  {
  }

  lemma BezoutStep(s: int, t: int, a: int, b: int, q: int, r: int)
    requires a == q * b + r
    ensures t * a + (s - t * q) * b == s * b + t * r
  {
    Regroup(t, q, b);
    Distribute(s, t * q, b);
    assert t * a == t * (q * b) + t * r;
  }

  lemma {:induction false} Bezout(a: nat, b: nat) returns (s: int, t: int)
    requires a > 0 || b > 0
    ensures s * a + t * b == Gcd(a, b)
    decreases b
  {
    if b == 0 {
      s, t := 1, 0;
    } else {
      var s', t' := Bezout(b, a % b);
      s, t := t', s' - t' * (a / b);
      BezoutStep(s', t', a, b, a / b, a % b);
    }
  }

  /** Two remainders go together exactly if they differ by a multiple of the greatest common divisor. */
  lemma RemaindersMeetIff(a: nat, b: nat, x: nat, y: nat)
    requires x < a && y < b
    ensures (exists n: nat :: n < a * b && n % a == x && n % b == y) <==> (x - y) % Gcd(a, b) == 0
  {
    if n: nat :| n < a * b && n % a == x && n % b == y {
      RemaindersDiffer(a, b, n);
    }
    if (x - y) % Gcd(a, b) == 0 {
      var n := Meeting(a, b, x, y);
    }
  }

  lemma RemaindersDiffer(a: nat, b: nat, n: nat)
    requires a > 0 && b > 0
    ensures (n % a - n % b) % Gcd(a, b) == 0
  {
    var p, q := GcdDivides(a, b);
    DifferenceDivides(Gcd(a, b), p, q, a, b, n / a, n % a, n / b, n % b);
  }

  lemma DifferenceDivides(g: nat, p: nat, q: nat, a: nat, b: nat, u: int, x: int, v: int, y: int)
    requires g > 0 && a == p * g && b == q * g && u * a + x == v * b + y
    ensures (x - y) % g == 0
  {
    Regroup(u, p, g);
    Regroup(v, q, g);
    Distribute(v * q, u * p, g);
    MultipleRemainder(v * q - u * p, g);
  }

  lemma Meeting(a: nat, b: nat, x: nat, y: nat) returns (n: nat)
    requires x < a && y < b && (x - y) % Gcd(a, b) == 0
    ensures n < a * b && n % a == x && n % b == y
  {
    hide Gcd;
    var s, t := Bezout(a, b);
    var k := (y - x) / Gcd(a, b);
    Opposite(x - y, Gcd(a, b));
    var u, v := k * s, -(k * t);
    Crossing(k, s, t, a, b, Gcd(a, b), x, y);
    n := Reduced(a, b, u, x, v, y);
  }

  lemma Crossing(k: int, s: int, t: int, a: int, b: int, g: int, x: int, y: int)
    requires s * a + t * b == g && k * g == y - x
    ensures (k * s) * a + x == -(k * t) * b + y
  {
    assert k * g == k * (s * a) + k * (t * b);
    Regroup(k, s, a);
    Regroup(k, t, b);
  }

  /** A number with two given remainders can be taken below the product of the divisors. */
  lemma Reduced(a: nat, b: nat, u: int, x: nat, v: int, y: nat) returns (n: nat)
    requires x < a && y < b && u * a + x == v * b + y
    ensures n < a * b && n % a == x && n % b == y
  {
    var z := u * a + x;
    ProductBounds(b, a);
    var m := a * b;
    n := z % m;
    var l := z / m;
    Regroup(l, b, a);
    Regroup(l, a, b);
    Distribute(u, l * b, a);
    Distribute(v, l * a, b);
    IntRemainder(n, a, u - l * b, x);
    IntRemainder(n, b, v - l * a, y);
  }

  lemma Opposite(x: int, d: nat)
    requires d > 0 && x % d == 0
    ensures ((-x) / d) * d == -x
  {
    var q := x / d;
    assert -x == (-q) * d;
    MultipleRemainder(-q, d);
  }

  lemma IntRemainder(n: nat, d: nat, k: int, r: nat)
    requires r < d && n == k * d + r
    ensures n % d == r
  {
    if k >= 0 {
      DivisionUnique(n, d, k, r);
    } else {
      ProductBounds(k, d);
    }
  }
}
