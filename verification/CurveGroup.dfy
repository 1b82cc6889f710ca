/**
 The laws of a curve's points that key derivation relies on: an associative, commutative
 addition with identity, and a base point of order exactly n.  `Clock` satisfies them, so
 they are consistent.
 */
module CurveGroup {
  import opened Modular

  datatype Point = Point(x: int, y: int)

  datatype Group = Group(n: nat, has: Point -> bool, zero: Point, gen: Point, add: (Point, Point) -> Point)

  // k * p
  function Times(g: Group, k: nat, p: Point): Point {
    if k == 0 then g.zero else g.add(p, Times(g, k - 1, p))
  }

  predicate Commutes(g: Group, p: Point, q: Point) {
    g.add(p, q) == g.add(q, p)
  }

  predicate Associates(g: Group, p: Point, q: Point, r: Point) {
    g.add(g.add(p, q), r) == g.add(p, g.add(q, r))
  }

  ghost predicate Adds(g: Group) {
    && g.has(g.zero) && g.has(g.gen)
    && (forall p, q :: g.has(p) && g.has(q) ==> g.has(g.add(p, q)))
    && (forall p, q {:trigger Commutes(g, p, q)} :: g.has(p) && g.has(q) ==> Commutes(g, p, q))
    && (forall p, q, r {:trigger Associates(g, p, q, r)} ::
          g.has(p) && g.has(q) && g.has(r) ==> Associates(g, p, q, r))
    && (forall p :: g.has(p) ==> g.add(g.zero, p) == p)
  }

  ghost predicate Laws(g: Group) {
    && g.n >= 2 && Adds(g)
    && Times(g, g.n, g.gen) == g.zero
    && (forall k: nat :: 0 < k < g.n ==> Times(g, k, g.gen) != g.zero)
  }

  lemma {:induction false} TimesIn(g: Group, k: nat, p: Point)
    requires Adds(g) && g.has(p)
    ensures g.has(Times(g, k, p))
  {
    if k > 0 { TimesIn(g, k - 1, p); }
  }

  lemma {:induction false} TimesAdd(g: Group, a: nat, b: nat, p: Point)
    requires Adds(g) && g.has(p)
    ensures Times(g, a + b, p) == g.add(Times(g, a, p), Times(g, b, p))
  {
    TimesIn(g, b, p);
    if a > 0 {
      TimesAdd(g, a - 1, b, p);
      TimesIn(g, a - 1, p);
      assert Associates(g, p, Times(g, a - 1, p), Times(g, b, p));
    }
  }

  lemma {:induction false} TimesMul(g: Group, a: nat, b: nat, p: Point)
    requires Adds(g) && g.has(p)
    ensures Times(g, a, Times(g, b, p)) == Times(g, a * b, p)
  {
    if a > 0 {
      TimesMul(g, a - 1, b, p);
      assert a * b == b + (a - 1) * b;
      TimesAdd(g, b, (a - 1) * b, p);
    }
  }

  lemma {:induction false} TimesZero(g: Group, k: nat)
    requires Adds(g)
    ensures Times(g, k, g.zero) == g.zero
  {
    if k > 0 { TimesZero(g, k - 1); }
  }

  // Only k mod n matters for multiples of the base point.
  lemma TimesMod(g: Group, k: nat)
    requires Laws(g)
    ensures Times(g, k % g.n, g.gen) == Times(g, k, g.gen)
  {
    var q, r := k / g.n, k % g.n;
    TimesMul(g, q, g.n, g.gen);
    TimesZero(g, q);
    TimesAdd(g, q * g.n, r, g.gen);
    TimesIn(g, r, g.gen);
  }

  // Exactly the multiples of n send the base point to the identity.
  lemma TimesIsZero(g: Group, k: nat)
    requires Laws(g)
    ensures Times(g, k, g.gen) == g.zero <==> k % g.n == 0
  {
    TimesMod(g, k);
  }

  // ---- The laws are consistent ----

  // The integers mod n, written as points with y = 0.
  function Clock(n: nat): Group
    requires n >= 2
  {
    Group(n, (p: Point) => 0 <= p.x < n && p.y == 0, Point(0, 0), Point(1, 0),
          (p: Point, q: Point) => Point((p.x + q.x) % n, 0))
  }

  lemma {:induction false} ClockTimes(n: nat, k: nat)
    requires n >= 2
    ensures Times(Clock(n), k, Clock(n).gen) == Point(k % n, 0)
  {
    if k > 0 {
      ClockTimes(n, k - 1);
      AddMod(1, k - 1, n);
    }
  }

  lemma ClockAssociates(n: nat, p: Point, q: Point, r: Point)
    requires n >= 2
    ensures Associates(Clock(n), p, q, r)
  {
    AddMod(r.x, p.x + q.x, n);
    AddMod(p.x, q.x + r.x, n);
  }

  lemma ClockAdds(n: nat)
    requires n >= 2
    ensures Adds(Clock(n))
  {
    var g := Clock(n);
    forall p, q, r ensures Associates(g, p, q, r) {
      ClockAssociates(n, p, q, r);
    }
    forall p: Point | g.has(p) ensures g.add(g.zero, p) == p {
      Remainder(p.x, 0, p.x, n);
    }
  }

  lemma ClockSmall(n: nat, k: nat)
    requires n >= 2 && k <= n
    ensures Times(Clock(n), k, Clock(n).gen) == Point(if k == n then 0 else k, 0)
  {
    ClockTimes(n, k);
    if k == n { Remainder(k, 1, 0, n); } else { Remainder(k, 0, k, n); }
  }

  lemma ClockObeysLaws(n: nat)
    requires n >= 2
    ensures Laws(Clock(n))
  {
    ClockAdds(n);
    forall k: nat | 0 < k <= n ensures Times(Clock(n), k, Clock(n).gen) == Point(if k == n then 0 else k, 0) {
      ClockSmall(n, k);
    }
  }
}
