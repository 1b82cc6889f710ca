/**
 Interpolation through distinct points modulo a prime, and the weights with which shares
 (and points in the exponent) are combined.
 */
module Interpolation {
  import opened Modular
  import opened PrimeField

  // The slopes from the first point to the others.
  ghost function Slopes(xs: seq<int>, ys: seq<int>, n: nat): (s: seq<int>)
    requires Prime(n) && Distinct(xs, n) && |xs| == |ys| > 0
    ensures |s| == |xs| - 1
  {
    seq(|xs| - 1, i requires 0 <= i < |xs| - 1 =>
      assert !Congruent(xs[i + 1], xs[0], n);
      (ys[i + 1] - ys[0]) * Inverse((xs[i + 1] - xs[0]) % n, n))
  }

  lemma TailDistinct(xs: seq<int>, n: nat)
    requires n > 0 && xs != [] && Distinct(xs, n)
    ensures Distinct(xs[1..], n)
  {
    forall i, j | 0 <= i < j < |xs[1..]| ensures !Congruent(xs[1..][j], xs[1..][i], n) {
      assert !Congruent(xs[j + 1], xs[i + 1], n);
    }
  }

  // (x - r) * g + c
  function Climb(g: seq<int>, r: int, c: int): (f: seq<int>)
    ensures |f| == |g| + 1
  {
    AddScaled(AddScaled([0] + g, -r, g), 1, [c])
  }

  lemma EvalClimb(g: seq<int>, r: int, c: int, x: int)
    ensures Eval(Climb(g, r, c), x) == (x - r) * Eval(g, x) + c
  {
    EvalAddScaled([0] + g, -r, g, x);
    EvalAddScaled(AddScaled([0] + g, -r, g), 1, [c], x);
    assert ([0] + g)[1..] == g;
    assert Eval([c], x) == c;
  }

  // The polynomial of degree less than |xs| through the points.
  ghost function Interpolant(xs: seq<int>, ys: seq<int>, n: nat): (f: seq<int>)
    requires Prime(n) && Distinct(xs, n) && |xs| == |ys|
    ensures |f| == |xs|
    decreases |xs|
  {
    if xs == [] then []
    else
      TailDistinct(xs, n);
      Climb(Interpolant(xs[1..], Slopes(xs, ys, n), n), xs[0], ys[0])
  }

  lemma SlopeRises(xs: seq<int>, ys: seq<int>, n: nat, i: nat)
    requires Prime(n) && Distinct(xs, n) && |xs| == |ys| && 0 < i < |xs|
    ensures Congruent((xs[i] - xs[0]) * Slopes(xs, ys, n)[i - 1], ys[i] - ys[0], n)
  {
    assert !Congruent(xs[i], xs[0], n);
    Rise(xs[i] - xs[0], ys[i] - ys[0], n);
  }

  lemma OneModulo(p: int, n: nat)
    requires n >= 2 && p % n == 1
    ensures Congruent(p, 1, n)
  {
    CongruentIff(p, 1, n);
    Remainder(1, 0, 1, n);
  }

  lemma InverseModulo(d: int, n: nat)
    requires Prime(n) && d % n != 0
    ensures Congruent(d * Inverse(d % n, n), 1, n)
  {
    var inv := Inverse(d % n, n);
    InverseInverts(d % n, n);
    MulModLeft(d, inv, n);
    OneModulo(d * inv, n);
  }

  lemma Rise(d: int, e: int, n: nat)
    requires Prime(n) && d % n != 0
    ensures Congruent(d * (e * Inverse(d % n, n)), e, n)
  {
    var inv := Inverse(d % n, n);
    InverseModulo(d, n);
    Remainder(0, 0, 0, n);
    Multiples(0, d * inv - 1, e, n);
    Regroup(d, e, inv);
  }

  lemma Regroup(d: int, e: int, inv: int)
    ensures 0 + e * (d * inv - 1) == d * (e * inv) - e
  {
    assert e * (d * inv) == d * (e * inv);
  }

  lemma InterpolantAt(xs: seq<int>, ys: seq<int>, n: nat, x: int)
    requires Prime(n) && Distinct(xs, n) && |xs| == |ys| > 0
    ensures Distinct(xs[1..], n)
    ensures Eval(Interpolant(xs, ys, n), x)
         == (x - xs[0]) * Eval(Interpolant(xs[1..], Slopes(xs, ys, n), n), x) + ys[0]
  {
    TailDistinct(xs, n);
    EvalClimb(Interpolant(xs[1..], Slopes(xs, ys, n), n), xs[0], ys[0], x);
  }

  lemma HitsFirst(xs: seq<int>, ys: seq<int>, n: nat)
    requires Prime(n) && Distinct(xs, n) && |xs| == |ys| > 0
    ensures Eval(Interpolant(xs, ys, n), xs[0]) == ys[0]
  {
    var r := xs[0];
    InterpolantAt(xs, ys, n, r);
    ZeroTimes(r - r, Eval(Interpolant(xs[1..], Slopes(xs, ys, n), n), r));
  }

  lemma ZeroTimes(d: int, e: int)
    requires d == 0
    ensures d * e == 0
  {
  }

  lemma Reflexive(a: int, n: nat)
    requires n > 0
    ensures Congruent(a, a, n)
  {
    CongruentIff(a, a, n);
  }

  lemma {:induction false} InterpolantHits(xs: seq<int>, ys: seq<int>, n: nat, i: nat)
    requires Prime(n) && Distinct(xs, n) && |xs| == |ys| && i < |xs|
    ensures Congruent(Eval(Interpolant(xs, ys, n), xs[i]), ys[i], n)
    decreases |xs|
  {
    if i == 0 {
      HitsFirst(xs, ys, n);
      Reflexive(ys[0], n);
    } else {
      InterpolantAt(xs, ys, n, xs[i]);
      var slopes := Slopes(xs, ys, n);
      InterpolantHits(xs[1..], slopes, n, i - 1);
      assert xs[1..][i - 1] == xs[i];
      SlopeRises(xs, ys, n, i);
      Reach(xs[i] - xs[0], Eval(Interpolant(xs[1..], slopes, n), xs[i]), slopes[i - 1], ys[i], ys[0], n);
    }
  }

  lemma Reach(d: int, v: int, slope: int, y: int, y0: int, n: nat)
    requires n > 0 && Congruent(v, slope, n) && Congruent(d * slope, y - y0, n)
    ensures Congruent(d * v + y0, y, n)
  {
    Multiples(d * slope - (y - y0), v - slope, d, n);
    assert d * (v - slope) == d * v - d * slope;
  }

  // Values of a polynomial determine it: interpolating them gives its value everywhere.
  lemma InterpolantIsPolynomial(f: seq<int>, xs: seq<int>, ys: seq<int>, n: nat, x: int)
    requires Prime(n) && Distinct(xs, n) && |xs| == |ys| && |f| <= |xs|
    requires forall i :: 0 <= i < |xs| ==> Congruent(ys[i], Eval(f, xs[i]), n)
    ensures Congruent(Eval(Interpolant(xs, ys, n), x), Eval(f, x), n)
  {
    forall i | 0 <= i < |xs| ensures Congruent(Eval(Interpolant(xs, ys, n), xs[i]), Eval(f, xs[i]), n) {
      InterpolantHits(xs, ys, n, i);
      CongruentIff(Eval(Interpolant(xs, ys, n), xs[i]), ys[i], n);
      CongruentIff(ys[i], Eval(f, xs[i]), n);
      CongruentIff(Eval(Interpolant(xs, ys, n), xs[i]), Eval(f, xs[i]), n);
    }
    InterpolationIsUnique(Interpolant(xs, ys, n), f, xs, n, x);
  }

  // ---- Weights ----

  function Unit(k: nat, i: nat): (u: seq<int>)
    ensures |u| == k
  {
    seq(k, j => if j == i then 1 else 0)
  }

  // The weight of participant i in the value at 0.
  ghost function Weight(xs: seq<int>, i: nat, n: nat): nat
    requires Prime(n) && Distinct(xs, n)
  {
    Eval(Interpolant(xs, Unit(|xs|, i), n), 0) % n
  }

  ghost function WeightedSum(xs: seq<int>, ys: seq<nat>, k: nat, n: nat): nat
    requires Prime(n) && Distinct(xs, n) && k <= |ys|
  {
    if k == 0 then 0 else WeightedSum(xs, ys, k - 1, n) + Weight(xs, k - 1, n) * ys[k - 1]
  }

  // The sum of ys[i] times the i-th unit interpolant.
  ghost function Mix(xs: seq<int>, ys: seq<nat>, k: nat, n: nat): (f: seq<int>)
    requires Prime(n) && Distinct(xs, n) && k <= |ys|
    ensures |f| <= |xs|
  {
    if k == 0 then []
    else AddScaled(Mix(xs, ys, k - 1, n), ys[k - 1], Interpolant(xs, Unit(|xs|, k - 1), n))
  }

  lemma {:induction false} MixHits(xs: seq<int>, ys: seq<nat>, k: nat, n: nat, j: nat)
    requires Prime(n) && Distinct(xs, n) && k <= |ys| == |xs| && j < |xs|
    ensures Congruent(Eval(Mix(xs, ys, k, n), xs[j]), if j < k then ys[j] else 0, n)
  {
    if k > 0 {
      var unit := Interpolant(xs, Unit(|xs|, k - 1), n);
      MixHits(xs, ys, k - 1, n, j);
      InterpolantHits(xs, Unit(|xs|, k - 1), n, j);
      EvalAddScaled(Mix(xs, ys, k - 1, n), ys[k - 1], unit, xs[j]);
      MixOneMore(Eval(Mix(xs, ys, k - 1, n), xs[j]), Eval(unit, xs[j]), ys, k, n, j);
    }
  }

  lemma MixOneMore(mixed: int, atUnit: int, ys: seq<nat>, k: nat, n: nat, j: nat)
    requires 0 < n && 0 < k <= |ys| && j < |ys|
    requires Congruent(mixed, if j < k - 1 then ys[j] else 0, n)
    requires Congruent(atUnit, if j == k - 1 then 1 else 0, n)
    ensures Congruent(mixed + ys[k - 1] * atUnit, if j < k then ys[j] else 0, n)
  {
    Combine(mixed, if j < k - 1 then ys[j] else 0, ys[k - 1], atUnit, if j == k - 1 then 1 else 0, n);
  }

  lemma {:induction false} MixAtZero(xs: seq<int>, ys: seq<nat>, k: nat, n: nat)
    requires Prime(n) && Distinct(xs, n) && k <= |ys|
    ensures Congruent(WeightedSum(xs, ys, k, n), Eval(Mix(xs, ys, k, n), 0), n)
  {
    if k > 0 {
      var unit := Interpolant(xs, Unit(|xs|, k - 1), n);
      MixAtZero(xs, ys, k - 1, n);
      EvalAddScaled(Mix(xs, ys, k - 1, n), ys[k - 1], unit, 0);
      Remainder(Eval(unit, 0) % n, 0, Eval(unit, 0) % n, n);
      CongruentIff(Weight(xs, k - 1, n), Eval(unit, 0), n);
      Combine(WeightedSum(xs, ys, k - 1, n), Eval(Mix(xs, ys, k - 1, n), 0), ys[k - 1],
              Weight(xs, k - 1, n), Eval(unit, 0), n);
    }
  }

  // Combining shares with the weights gives the polynomial's value at 0.
  lemma WeightsReconstruct(f: seq<int>, xs: seq<int>, ys: seq<nat>, n: nat)
    requires Prime(n) && Distinct(xs, n) && |xs| == |ys| && |f| <= |xs|
    requires forall i :: 0 <= i < |xs| ==> Congruent(ys[i], Eval(f, xs[i]), n)
    ensures WeightedSum(xs, ys, |xs|, n) % n == Eval(f, 0) % n
  {
    var mix := Mix(xs, ys, |xs|, n);
    forall i | 0 <= i < |xs| ensures Congruent(Eval(mix, xs[i]), Eval(f, xs[i]), n) {
      MixHits(xs, ys, |xs|, n, i);
      CongruentIff(Eval(mix, xs[i]), ys[i], n);
      CongruentIff(ys[i], Eval(f, xs[i]), n);
      CongruentIff(Eval(mix, xs[i]), Eval(f, xs[i]), n);
    }
    InterpolationIsUnique(mix, f, xs, n, 0);
    MixAtZero(xs, ys, |xs|, n);
    CongruentIff(WeightedSum(xs, ys, |xs|, n), Eval(mix, 0), n);
    CongruentIff(Eval(mix, 0), Eval(f, 0), n);
  }
}
