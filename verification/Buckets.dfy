/** How a window of an axis is divided into buckets. Exact arithmetic, and a logarithm
    of which only its laws are known. */
module Buckets {

  datatype Logs = Logs(log: real -> real, pow: real -> real)

  /** Strictly increasing where it is defined, and undone by its power. */
  ghost predicate LogLaws(lg: Logs) {
    (forall x, y :: 0.0 < x < y ==> lg.log(x) < lg.log(y)) && forall y :: lg.pow(y) > 0.0 && lg.log(lg.pow(y)) == y
  }

  datatype Scale = Linear | Log

  datatype Pos = Pos(from: real, to: real, buckets: nat, log: bool)

  /** A log axis needs a strictly positive range; any other is divided evenly. */
  function NewPos(from: real, to: real, buckets: nat, scale: Scale): Pos {
    Pos(from, to, buckets, scale.Log? && from > 0.0 && to > from)
  }

  ghost predicate Usable(lg: Logs, p: Pos) {
    p.buckets >= 1 && (p.log ==> 0.0 < p.from < p.to && lg.log(p.from) < lg.log(p.to))
  }

  lemma NewUsable(lg: Logs, from: real, to: real, buckets: nat, scale: Scale)
    requires LogLaws(lg) && buckets >= 1
    ensures Usable(lg, NewPos(from, to, buckets, scale))
  {
  }

  function Frac(lg: Logs, p: Pos, x: real): real
    requires Usable(lg, p)
  {
    if p.log then
      if x <= 0.0 then -1.0 else (lg.log(x) - lg.log(p.from)) / (lg.log(p.to) - lg.log(p.from))
    else if p.to == p.from then 0.0
    else (x - p.from) / (p.to - p.from)
  }

  /** Negative for a place before the window; the upper end is in the last bucket. */
  function Bucket(lg: Logs, p: Pos, x: real): int
    requires Usable(lg, p)
  {
    BucketAt(Frac(lg, p, x), p.buckets)
  }

  function BucketAt(f: real, n: nat): int {
    if f < 0.0 then -1
    else
      var b := (f * n as real).Floor;
      if b >= n then n - 1 else b
  }

  function Edge(lg: Logs, p: Pos, b: nat): real
    requires Usable(lg, p)
  {
    var f := b as real / p.buckets as real;
    if p.log then lg.pow(lg.log(p.from) + f * (lg.log(p.to) - lg.log(p.from)))
    else p.from + f * (p.to - p.from)
  }

  function Centre(lg: Logs, p: Pos, b: nat): real
    requires Usable(lg, p)
  {
    (Edge(lg, p, b) + Edge(lg, p, b + 1)) / 2.0
  }

  // --- quotients and products -----------------------------------------------------------------------------

  lemma QuotientOrder(a: real, b: real, d: real)
    requires a <= b && d > 0.0
    ensures a / d <= b / d && (a < b ==> a / d < b / d)
  {
    QuotientBelow(a / d, b / d, a, b, d);
    QuotientTimes(a, d);
    QuotientTimes(b, d);
  }

  lemma QuotientBelow(q: real, r: real, a: real, b: real, d: real)
    requires d > 0.0 && a <= b && q == a / d && r == b / d
    ensures q <= r && (a < b ==> q < r)
  {
    QuotientTimes(a, d);
    QuotientTimes(b, d);
    TimesBelow(q, r, d);
  }

  lemma TimesBelow(q: real, r: real, d: real)
    requires d > 0.0
    ensures q * d <= r * d ==> q <= r
    ensures q * d < r * d ==> q < r
  {
    if r < q { ProductOrder(r, q, d); }
  }

  lemma QuotientTimes(a: real, d: real)
    requires d != 0.0
    ensures (a / d) * d == a
  {
  }

  lemma ProductOrder(a: real, b: real, c: real)
    requires a < b && c > 0.0
    ensures a * c < b * c
  {
  }

  lemma ProductOrderWeak(a: real, b: real, c: real)
    requires a <= b && c >= 0.0
    ensures a * c <= b * c
  {
  }

  lemma ProductQuotient(f: real, d: real)
    requires d != 0.0
    ensures (f * d) / d == f
  {
    QuotientTimes(f * d, d);
  }

  // --- the division is a division -----------------------------------------------------------------------------

  /** Places further on have larger fractions. */
  lemma FracOrder(lg: Logs, p: Pos, x: real, y: real)
    requires LogLaws(lg) && Usable(lg, p) && p.from <= p.to && x <= y
    ensures Frac(lg, p, x) < 0.0 || Frac(lg, p, x) <= Frac(lg, p, y)
    ensures (p.from < p.to && x < y && (p.log ==> x > 0.0)) ==> Frac(lg, p, x) < Frac(lg, p, y)
  {
    if p.log {
      if x > 0.0 {
        assert x < y ==> lg.log(x) < lg.log(y);
        var d := lg.log(p.to) - lg.log(p.from);
        QuotientOrder(lg.log(x) - lg.log(p.from), lg.log(y) - lg.log(p.from), d);
      }
    } else if p.from < p.to {
      QuotientOrder(x - p.from, y - p.from, p.to - p.from);
    }
  }

  lemma FracEnds(lg: Logs, p: Pos)
    requires LogLaws(lg) && Usable(lg, p) && p.from <= p.to
    ensures Frac(lg, p, p.from) == 0.0
  {
  }

  /** A place in the window is in one of the buckets. */
  lemma BucketInWindow(lg: Logs, p: Pos, x: real)
    requires LogLaws(lg) && Usable(lg, p) && p.from <= x <= p.to
    ensures 0 <= Bucket(lg, p, x) < p.buckets
  {
    FracEnds(lg, p);
    FracOrder(lg, p, p.from, x);
    hide Frac;
    var f := Frac(lg, p, x);
    ProductOrderWeak(0.0, f, p.buckets as real);
  }

  lemma BucketAtOrder(f: real, g: real, n: nat)
    requires f < 0.0 || f <= g
    ensures BucketAt(f, n) < 0 || BucketAt(f, n) <= BucketAt(g, n)
  {
    if f >= 0.0 {
      ProductOrderWeak(f, g, n as real);
      FloorOrder(f * n as real, g * n as real);
    }
  }

  /** Buckets follow the axis, from the window's start on. */
  lemma BucketOrder(lg: Logs, p: Pos, x: real, y: real)
    requires LogLaws(lg) && Usable(lg, p) && p.from <= p.to && x <= y
    ensures Bucket(lg, p, x) < 0 || Bucket(lg, p, x) <= Bucket(lg, p, y)
  {
    FracOrder(lg, p, x, y);
    hide Frac;
    hide LogLaws;
    BucketAtOrder(Frac(lg, p, x), Frac(lg, p, y), p.buckets);
    hide BucketAt;
  }

  lemma FloorOrder(x: real, y: real)
    requires x <= y
    ensures x.Floor <= y.Floor
  {
  }

  lemma FloorIs(b: nat, f: real, n: real)
    requires n > 0.0 && b as real / n < f < (b + 1) as real / n
    ensures f >= 0.0 && (f * n).Floor == b
  {
    QuotientTimes(b as real, n);
    QuotientTimes((b + 1) as real, n);
    ProductOrder(b as real / n, f, n);
    ProductOrder(f, (b + 1) as real / n, n);
    TimesBelow(0.0, f, n);
  }

  lemma EdgeFrac(lg: Logs, p: Pos, b: nat)
    requires LogLaws(lg) && Usable(lg, p) && p.from < p.to
    ensures Frac(lg, p, Edge(lg, p, b)) == b as real / p.buckets as real
    ensures p.log ==> Edge(lg, p, b) > 0.0
  {
    var f := b as real / p.buckets as real;
    if p.log {
      ProductQuotient(f, lg.log(p.to) - lg.log(p.from));
    } else {
      ProductQuotient(f, p.to - p.from);
    }
  }

  lemma FracReflects(lg: Logs, p: Pos, x: real, y: real)
    requires LogLaws(lg) && Usable(lg, p) && p.from < p.to && Frac(lg, p, x) < Frac(lg, p, y)
    requires p.log ==> x > 0.0 && y > 0.0
    ensures x < y
  {
    hide Frac;
    if y < x { FracOrder(lg, p, y, x); }
  }

  /** The position a bucket is drawn at is in that bucket. */
  lemma CentreInBucket(lg: Logs, p: Pos, b: nat)
    requires LogLaws(lg) && Usable(lg, p) && p.from < p.to && b < p.buckets
    ensures Bucket(lg, p, Centre(lg, p, b)) == b
  {
    hide Frac;
    hide Edge;
    hide LogLaws;
    var n := p.buckets as real;
    EdgeFrac(lg, p, b);
    EdgeFrac(lg, p, b + 1);
    QuotientOrder(b as real, (b + 1) as real, n);
    var lo, hi := Edge(lg, p, b), Edge(lg, p, b + 1);
    FracReflects(lg, p, lo, hi);
    var c := Centre(lg, p, b);
    FracOrder(lg, p, lo, c);
    FracOrder(lg, p, c, hi);
    FloorIs(b, Frac(lg, p, c), n);
  }

  // --- where the edges are --------------------------------------------------------------------------------------

  /** The place on which the division is even: itself, or its logarithm. */
  function Even(lg: Logs, p: Pos, x: real): real { if p.log then lg.log(x) else x }

  lemma EdgeEven(lg: Logs, p: Pos, b: nat)
    requires LogLaws(lg) && Usable(lg, p)
    ensures var f := b as real / p.buckets as real;
      Even(lg, p, Edge(lg, p, b)) == Even(lg, p, p.from) + f * (Even(lg, p, p.to) - Even(lg, p, p.from))
    ensures p.log ==> Edge(lg, p, b) > 0.0
  {
  }

  lemma EvenSpread(n: real, b: real, f: real, d: real, e: real, lo: real)
    requires n != 0.0 && f * n == b && e == lo + f * d
    ensures n * (e - lo) == b * d
  {
    assert e - lo == f * d;
    assert n * (f * d) == (f * n) * d;
  }

  /** The edges divide the window evenly, or its logarithms when it is logarithmic, from
      one end to the other. */
  lemma EdgesAreEven(lg: Logs, p: Pos, b: nat)
    requires LogLaws(lg) && Usable(lg, p)
    ensures p.buckets as real * (Even(lg, p, Edge(lg, p, b)) - Even(lg, p, p.from))
         == b as real * (Even(lg, p, p.to) - Even(lg, p, p.from))
  {
    EdgeEven(lg, p, b);
    hide Edge;
    hide Even;
    QuotientTimes(b as real, p.buckets as real);
    EvenSpread(p.buckets as real, b as real, b as real / p.buckets as real,
               Even(lg, p, p.to) - Even(lg, p, p.from), Even(lg, p, Edge(lg, p, b)), Even(lg, p, p.from));
  }

  /** A bucket is drawn as far from one edge as from the other. */
  lemma CentreIsMiddle(lg: Logs, p: Pos, b: nat)
    requires Usable(lg, p)
    ensures Centre(lg, p, b) - Edge(lg, p, b) == Edge(lg, p, b + 1) - Centre(lg, p, b)
  {
    hide Edge;
  }

  /** What is in a bucket is between its edges; only the window's end is on a right one. */
  lemma BetweenEdges(lg: Logs, p: Pos, x: real)
    requires LogLaws(lg) && Usable(lg, p) && p.from < p.to && p.from <= x <= p.to
    ensures 0 <= Bucket(lg, p, x) < p.buckets
    ensures var b := Bucket(lg, p, x);
      Edge(lg, p, b) <= x <= Edge(lg, p, b + 1) && (b < p.buckets - 1 ==> x < Edge(lg, p, b + 1))
  {
    hide *;
    BucketInWindow(lg, p, x);
    FracEnds(lg, p);
    FracOrder(lg, p, p.from, x);
    FracTop(lg, p, x);
    var f, n := Frac(lg, p, x), p.buckets;
    var b := Bucket(lg, p, x);
    BucketIs(lg, p, x);
    UsableIs(lg, p);
    FloorBounds(f, n, b);
    EdgeFrac(lg, p, b);
    EdgeFrac(lg, p, b + 1);
    var lo, hi := Edge(lg, p, b), Edge(lg, p, b + 1);
    if x < lo { FracOrder(lg, p, x, lo); }
    if hi < x { FracOrder(lg, p, hi, x); }
  }

  lemma UsableIs(lg: Logs, p: Pos)
    requires Usable(lg, p)
    ensures p.buckets >= 1 && (p.log ==> p.from > 0.0)
  {
  }

  lemma BucketIs(lg: Logs, p: Pos, x: real)
    requires Usable(lg, p)
    ensures Bucket(lg, p, x) == BucketAt(Frac(lg, p, x), p.buckets)
  {
    hide Frac;
    hide BucketAt;
  }

  /** No place of the window is more than the whole way along. */
  lemma FracTop(lg: Logs, p: Pos, x: real)
    requires LogLaws(lg) && Usable(lg, p) && p.from < p.to && p.from <= x <= p.to
    ensures Frac(lg, p, x) <= 1.0
  {
    FracOrder(lg, p, x, p.to);
    assert Frac(lg, p, p.to) == 1.0 by {
      if p.log { ProductQuotient(1.0, lg.log(p.to) - lg.log(p.from)); } else { ProductQuotient(1.0, p.to - p.from); }
    }
    hide Frac;
  }

  lemma FloorBounds(f: real, n: nat, b: int)
    requires n > 0 && 0.0 <= f <= 1.0 && b == BucketAt(f, n)
    ensures b as real / n as real <= f <= (b + 1) as real / n as real
    ensures b < n - 1 ==> f < (b + 1) as real / n as real
  {
    var r := n as real;
    FloorValue(f, n, b, f * r);
    hide BucketAt;
    Under(b as real, f, r);
    Above((b + 1) as real, f, r);
  }

  lemma FloorValue(f: real, n: nat, b: int, x: real)
    requires n > 0 && 0.0 <= f <= 1.0 && b == BucketAt(f, n) && x == f * n as real
    ensures b as real <= x <= (b + 1) as real && (b < n - 1 ==> x < (b + 1) as real)
  {
    ProductOrderWeak(f, 1.0, n as real);
  }

  lemma Under(b: real, f: real, r: real)
    requires r > 0.0
    ensures b <= f * r ==> b / r <= f
  {
    QuotientTimes(b, r);
    TimesBelow(b / r, f, r);
  }

  lemma Above(b: real, f: real, r: real)
    requires r > 0.0
    ensures f * r <= b ==> f <= b / r
    ensures f * r < b ==> f < b / r
  {
    QuotientTimes(b, r);
    TimesBelow(f, b / r, r);
  }
}
