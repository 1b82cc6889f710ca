/**
 Polynomials modulo a prime: a polynomial with as many roots as coefficients vanishes, so
 interpolation through distinct points is unique.
 */
module PrimeField {
  import opened Modular

  ghost predicate Prime(n: nat) {
    n >= 2 && forall d :: 1 < d < n ==> n % d != 0
  }

  predicate Congruent(a: int, b: int, n: nat)
    requires n > 0
  {
    (a - b) % n == 0
  }

  lemma CongruentIff(a: int, b: int, n: nat)
    requires n > 0
    ensures Congruent(a, b, n) <==> a % n == b % n
  {
    if Congruent(a, b, n) {
      var q := (a - b) / n;
      assert a == b + n * q;
      ModShift(b, q, n);
    }
    if a % n == b % n {
      var q := a / n - b / n;
      assert n * q == n * (a / n) - n * (b / n);
      Remainder(a - b, q, 0, n);
    }
  }

  // A sum of multiples of n is one.
  lemma Multiples(a: int, b: int, k: int, n: nat)
    requires n > 0 && a % n == 0 && b % n == 0
    ensures (a + k * b) % n == 0
  {
    var p, q := a / n, b / n;
    assert a == n * p && b == n * q;
    assert k * b == n * (k * q);
    assert n * (p + k * q) == n * p + n * (k * q);
    Remainder(a + k * b, p + k * q, 0, n);
  }

  // A prime divides a product only if it divides a factor.
  lemma {:induction false} PrimeDivides(a: nat, b: int, n: nat)
    requires Prime(n) && 0 < a < n && (a * b) % n == 0
    ensures b % n == 0
    decreases a
  {
    if a > 1 {
      var q, r := n / a, n % a;
      assert r == n - q * a;
      assert r * b == n * b - q * (a * b);
      Remainder(n * b, b, 0, n);
      Multiples(n * b, a * b, -q, n);
      assert n * b + (-q) * (a * b) == r * b;
      PrimeDivides(r, b, n);
    }
  }

  lemma ProductIsZero(a: int, b: int, n: nat)
    requires Prime(n) && (a * b) % n == 0 && a % n != 0
    ensures b % n == 0
  {
    var q, r := a / n, a % n;
    assert a == n * q + r;
    assert r * b == a * b - n * (q * b);
    Remainder(n * (q * b), q * b, 0, n);
    Multiples(a * b, n * (q * b), -1, n);
    PrimeDivides(r, b, n);
  }

  // Congruent numbers stay so under a multiple of another congruent pair.
  lemma Combine(a: int, a': int, k: int, b: int, b': int, n: nat)
    requires n > 0 && Congruent(a, a', n) && Congruent(b, b', n)
    ensures Congruent(a + k * b, a' + k * b', n)
  {
    Multiples(a - a', b - b', k, n);
    assert k * (b - b') == k * b - k * b';
  }

  lemma InverseStep(a: nat, i: nat, n: nat)
    requires 0 < a < n && (n % a * i) % n == 1
    ensures (a * ((0 - n / a * i) % n)) % n == 1
  {
    var q, r := n / a, n % a;
    var m: int := 0 - q * i;
    MulMod(a, m, n);
    assert a * m == r * i + n * (0 - i) by {
      assert n == a * q + r;
      Distribute3(a, q, r, i);
      assert n * (0 - i) == 0 - n * i;
      assert a * m == 0 - a * (q * i);
    }
    ModShift(r * i, 0 - i, n);
  }

  lemma Distribute3(a: int, q: int, r: int, i: int)
    ensures (a * q + r) * i == a * (q * i) + r * i
  {
  }

  ghost function Inverse(a: nat, n: nat): (i: nat)
    requires Prime(n) && 0 < a < n
    decreases a
  {
    if a == 1 then 1 else (0 - n / a * Inverse(n % a, n)) % n
  }

  lemma {:induction false} InverseInverts(a: nat, n: nat)
    requires Prime(n) && 0 < a < n
    ensures (a * Inverse(a, n)) % n == 1
    decreases a
  {
    if a == 1 {
      Remainder(1, 0, 1, n);
    } else {
      InverseInverts(n % a, n);
      InverseStep(a, Inverse(n % a, n), n);
    }
  }

  // ---- Polynomials: coefficients, constant term first ----

  function Eval(f: seq<int>, x: int): int {
    if f == [] then 0 else f[0] + x * Eval(f[1..], x)
  }

  // f + k * g
  function AddScaled(f: seq<int>, k: int, g: seq<int>): (h: seq<int>)
    ensures |h| == if |f| >= |g| then |f| else |g|
  {
    if g == [] then f
    else if f == [] then [k * g[0]] + AddScaled([], k, g[1..])
    else [f[0] + k * g[0]] + AddScaled(f[1..], k, g[1..])
  }

  lemma {:induction false} EvalAddScaled(f: seq<int>, k: int, g: seq<int>, x: int)
    ensures Eval(AddScaled(f, k, g), x) == Eval(f, x) + k * Eval(g, x)
    decreases |g|
  {
    if g != [] {
      var rest := if f == [] then [] else f[1..];
      var first := if f == [] then 0 else f[0];
      var a, b := Eval(rest, x), Eval(g[1..], x);
      EvalAddScaled(rest, k, g[1..], x);
      assert AddScaled(f, k, g)[1..] == AddScaled(rest, k, g[1..]);
      Expand(x, first, a, k, g[0], b);
    }
  }

  lemma Expand(x: int, f0: int, a: int, k: int, g0: int, b: int)
    ensures f0 + k * g0 + x * (a + k * b) == (f0 + x * a) + k * (g0 + x * b)
  {
    assert x * (a + k * b) == x * a + k * (x * b) by {
      assert x * (k * b) == k * (x * b);
    }
  }

  // (f - f(r)) divided by (x - r)
  function Quotient(f: seq<int>, r: int): (q: seq<int>)
    ensures |q| == if f == [] then 0 else |f| - 1
  {
    if |f| <= 1 then [] else [Eval(f[1..], r)] + Quotient(f[1..], r)
  }

  lemma {:induction false} Divide(f: seq<int>, r: int, x: int)
    ensures Eval(f, x) == (x - r) * Eval(Quotient(f, r), x) + Eval(f, r)
  {
    if |f| == 1 {
      assert f[1..] == [];
    } else if |f| > 1 {
      Divide(f[1..], r, x);
      assert Quotient(f, r)[1..] == Quotient(f[1..], r);
      Expand2(x, r, f[0], Eval(f[1..], r), Eval(Quotient(f[1..], r), x));
    }
  }

  lemma Expand2(x: int, r: int, f0: int, h: int, d: int)
    ensures f0 + x * ((x - r) * d + h) == (x - r) * (h + x * d) + (f0 + r * h)
  {
    var e := x - r;
    assert x * (e * d + h) == x * (e * d) + x * h;
    assert e * (h + x * d) == e * h + e * (x * d);
    assert x * (e * d) == e * (x * d);
    assert e * h == x * h - r * h;
  }

  ghost predicate Distinct(xs: seq<int>, n: nat)
    requires n > 0
  {
    forall i, j :: 0 <= i < j < |xs| ==> !Congruent(xs[j], xs[i], n)
  }

  // A polynomial vanishing at as many distinct points as it has coefficients vanishes
  // everywhere.
  lemma {:induction false} RootsForceZero(f: seq<int>, xs: seq<int>, n: nat, x: int)
    requires Prime(n) && Distinct(xs, n) && |f| <= |xs|
    requires forall i :: 0 <= i < |xs| ==> Eval(f, xs[i]) % n == 0
    ensures Eval(f, x) % n == 0
    decreases |f|
  {
    if f != [] {
      var r, q := xs[0], Quotient(f, xs[0]);
      forall i | 1 <= i < |xs| ensures Eval(q, xs[i]) % n == 0 {
        Divide(f, r, xs[i]);
        Multiples(Eval(f, xs[i]), Eval(f, r), -1, n);
        assert !Congruent(xs[i], xs[0], n);
        ProductIsZero(xs[i] - r, Eval(q, xs[i]), n);
      }
      forall i | 0 <= i < |xs| - 1 ensures Eval(q, xs[1..][i]) % n == 0 {
        assert xs[1..][i] == xs[i + 1];
      }
      RootsForceZero(q, xs[1..], n, x);
      Divide(f, r, x);
      Multiples(Eval(f, r), Eval(q, x), x - r, n);
    }
  }

  lemma DifferenceAt(f: seq<int>, g: seq<int>, x: int, n: nat)
    requires n > 0
    ensures Eval(AddScaled(f, -1, g), x) % n == 0 <==> Congruent(Eval(f, x), Eval(g, x), n)
  {
    EvalAddScaled(f, -1, g, x);
  }

  // Two polynomials with at most as many coefficients as there are points, and the same
  // values there, have the same values everywhere.
  lemma InterpolationIsUnique(f: seq<int>, g: seq<int>, xs: seq<int>, n: nat, x: int)
    requires Prime(n) && Distinct(xs, n) && |f| <= |xs| && |g| <= |xs|
    requires forall i :: 0 <= i < |xs| ==> Congruent(Eval(f, xs[i]), Eval(g, xs[i]), n)
    ensures Congruent(Eval(f, x), Eval(g, x), n)
  {
    var d := AddScaled(f, -1, g);
    forall i | 0 <= i < |xs| ensures Eval(d, xs[i]) % n == 0 {
      DifferenceAt(f, g, xs[i], n);
    }
    DifferenceAt(f, g, x, n);
    RootsForceZero(d, xs, n, x);
  }
}
