/** Remainders, and arithmetic modulo a prime. */
module Modular {

  lemma TimesAtLeast(n: int, d: int)
    requires n > 0
    ensures d >= 1 ==> n * d >= n
    ensures d <= -1 ==> n * d <= -n
  {
  }

  // The quotient and the remainder are determined.
  lemma Remainder(a: int, q: int, r: int, n: nat)
    requires 0 <= r < n && a == n * q + r
    ensures a % n == r && a / n == q
  {
    var d := q - a / n;
    assert n * d == n * q - n * (a / n);
    TimesAtLeast(n, d);
  }

  // Adding a multiple of n changes no remainder.
  lemma ModShift(a: int, m: int, n: nat)
    requires n > 0
    ensures (a + n * m) % n == a % n
  {
    var q := a / n;
    assert n * (q + m) == n * q + n * m;
    Remainder(a + n * m, q + m, a % n, n);
  }

  lemma AddMod(a: int, b: int, n: nat)
    requires n > 0
    ensures (a + b % n) % n == (a + b) % n
  {
    var q := b / n;
    assert a + b % n == a + b + n * (-q) by {
      assert n * (-q) == -(n * q);
    }
    ModShift(a + b, -q, n);
  }

  // Reducing a summand first makes no difference.
  lemma AddReduced(a: int, b: int, c: int, n: nat)
    requires n > 0 && c == b % n
    ensures (a + c) % n == (a + b) % n
  {
    AddMod(a, b, n);
  }

  lemma AddAssociates(a: int, b: int, c: int, n: nat)
    requires n > 0
    ensures ((a + b) % n + c) % n == (a + (b + c) % n) % n
  {
    var ab, bc := (a + b) % n, (b + c) % n;
    AddReduced(c, a + b, ab, n);
    AddReduced(a, b + c, bc, n);
  }

  lemma MulMod(a: int, b: int, n: nat)
    requires n > 0
    ensures (a * (b % n)) % n == (a * b) % n
  {
    var q, r := b / n, b % n;
    assert a * b == a * r + n * (a * q) by {
      assert b == n * q + r;
      Distribute(a, n, q, r);
    }
    ModShift(a * r, a * q, n);
  }

  lemma MulModLeft(a: int, b: int, n: nat)
    requires n > 0
    ensures (a % n * b) % n == (a * b) % n
  {
    Swap(a % n, b);
    Swap(a, b);
    MulMod(b, a, n);
  }

  lemma Swap(a: int, b: int)
    ensures a * b == b * a
  {
  }

  lemma Distribute(a: int, n: int, q: int, r: int)
    ensures a * (n * q + r) == a * r + n * (a * q)
  {
  }
}
