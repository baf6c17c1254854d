/** Reducing a series to what a screen can show: from its samples, and from the
    summaries of its frames. */
module Decimate {
  import opened Bytes
  import opened Buckets

  /** A sample and where it stands; no value is one that is absent. */
  datatype Sample = Sample(x: real, v: Option<real>)

  /** No bound is what the code marks with NaN. Counts are 32-bit. */
  datatype Envelope = Envelope(x: seq<real>, min: seq<Option<real>>, max: seq<Option<real>>, n: seq<int>, exact: bool)

  const TWO31: nat := 0x8000_0000

  function Int32(x: int): int { (x + TWO31) % TWO32 - TWO31 }

  lemma Int32Small(x: int)
    requires 0 <= x < TWO31
    ensures Int32(x) == x
  {
  }

  // --- the samples of a window --------------------------------------------------------------------------

  predicate Sorted(s: seq<Sample>) { forall i, j :: 0 <= i <= j < |s| ==> s[i].x <= s[j].x }

  predicate In(a: Sample, from: real, to: real) { from <= a.x <= to }

  function Window(s: seq<Sample>, from: real, to: real): seq<Sample> {
    if s == [] then []
    else
      var n := |s| - 1;
      Window(s[..n], from, to) + if In(s[n], from, to) then [s[n]] else []
  }

  lemma {:induction false} WindowJoin(a: seq<Sample>, b: seq<Sample>, from: real, to: real)
    ensures Window(a + b, from, to) == Window(a, from, to) + Window(b, from, to)
    decreases |b|
  {
    if b == [] {
      assert a + b == a && Window(a, from, to) + [] == Window(a, from, to);
    } else {
      var n := |b| - 1;
      assert (a + b)[..|a + b| - 1] == a + b[..n];
      WindowJoin(a, b[..n], from, to);
      var x := if In(b[n], from, to) then [b[n]] else [];
      assert Window(a, from, to) + (Window(b[..n], from, to) + x) == (Window(a, from, to) + Window(b[..n], from, to)) + x;
    }
  }

  lemma {:induction false} WindowWhole(s: seq<Sample>, from: real, to: real)
    requires forall i :: 0 <= i < |s| ==> In(s[i], from, to)
    ensures Window(s, from, to) == s
  {
    if s != [] {
      WindowWhole(s[..|s| - 1], from, to);
      assert s == s[..|s| - 1] + [s[|s| - 1]];
    }
  }

  lemma {:induction false} WindowNone(s: seq<Sample>, from: real, to: real)
    requires forall i :: 0 <= i < |s| ==> !In(s[i], from, to)
    ensures Window(s, from, to) == []
  {
    if s != [] { WindowNone(s[..|s| - 1], from, to); }
  }

  /** Of a sorted series, the samples between two places. */
  lemma WindowIs(s: seq<Sample>, from: real, to: real, lo: nat, hi: nat)
    requires lo <= |s| && hi <= |s|
    requires forall i :: 0 <= i < |s| ==> (i < lo <==> s[i].x < from) && (i < hi <==> s[i].x <= to)
    ensures Window(s, from, to) == if lo <= hi then s[lo..hi] else []
  {
    hide Window;
    if lo <= hi {
      WindowNone(s[..lo], from, to);
      WindowWhole(s[lo..hi], from, to);
      WindowNone(s[hi..], from, to);
      hide In;
      assert s == s[..lo] + s[lo..hi] + s[hi..];
      WindowJoin(s[..lo] + s[lo..hi], s[hi..], from, to);
      WindowJoin(s[..lo], s[lo..hi], from, to);
    } else {
      WindowNone(s, from, to);
    }
  }

  /** The first place at or past `from`, by halving. */
  method FirstAt(s: seq<Sample>, from: real) returns (lo: nat)
    ensures lo <= |s|
    ensures Sorted(s) ==> forall i :: 0 <= i < |s| ==> (i < lo <==> s[i].x < from)
  {
    lo := 0;
    var hi := |s|;
    while lo < hi
      invariant lo <= hi <= |s|
      invariant Sorted(s) ==> forall i :: 0 <= i < lo ==> s[i].x < from
      invariant Sorted(s) ==> forall i :: hi <= i < |s| ==> s[i].x >= from
    {
      var mid := (lo + hi) / 2;
      if s[mid].x >= from { hi := mid; } else { lo := mid + 1; }
    }
  }

  /** The first place past `to`. */
  method FirstPast(s: seq<Sample>, to: real) returns (lo: nat)
    ensures lo <= |s|
    ensures Sorted(s) ==> forall i :: 0 <= i < |s| ==> (i < lo <==> s[i].x <= to)
  {
    lo := 0;
    var hi := |s|;
    while lo < hi
      invariant lo <= hi <= |s|
      invariant Sorted(s) ==> forall i :: 0 <= i < lo ==> s[i].x <= to
      invariant Sorted(s) ==> forall i :: hi <= i < |s| ==> s[i].x > to
    {
      var mid := (lo + hi) / 2;
      if s[mid].x > to { hi := mid; } else { lo := mid + 1; }
    }
  }

  // --- what a bucket holds ---------------------------------------------------------------------------------

  /** The values present in a bucket. */
  function InBucket(lg: Logs, p: Pos, s: seq<Sample>, b: int): seq<real>
    requires Usable(lg, p)
  {
    if s == [] then []
    else
      var n := |s| - 1;
      InBucket(lg, p, s[..n], b) + if s[n].v.Some? && Bucket(lg, p, s[n].x) == b then [s[n].v.value] else []
  }

  function Present(s: seq<Sample>): nat {
    if s == [] then 0 else Present(s[..|s| - 1]) + if s[|s| - 1].v.Some? then 1 else 0
  }

  /** How many present samples the first `n` buckets hold between them. */
  function Counted(lg: Logs, p: Pos, s: seq<Sample>, n: nat): nat
    requires Usable(lg, p)
  {
    if n == 0 then 0 else Counted(lg, p, s, n - 1) + |InBucket(lg, p, s, n - 1)|
  }

  lemma {:induction false} CountedMore(lg: Logs, p: Pos, s: seq<Sample>, a: Sample, n: nat)
    requires Usable(lg, p)
    ensures Counted(lg, p, s + [a], n)
         == Counted(lg, p, s, n) + if a.v.Some? && 0 <= Bucket(lg, p, a.x) < n then 1 else 0
  {
    hide Bucket;
    if n > 0 {
      CountedMore(lg, p, s, a, n - 1);
      assert (s + [a])[..|s|] == s;
    }
  }

  lemma {:induction false} CountedNone(lg: Logs, p: Pos, n: nat)
    requires Usable(lg, p)
    ensures Counted(lg, p, [], n) == 0
  {
    if n > 0 { CountedNone(lg, p, n - 1); }
  }

  /** Every present sample of the window is in exactly one bucket. */
  lemma {:induction false} EverySampleOnce(lg: Logs, p: Pos, s: seq<Sample>)
    requires LogLaws(lg) && Usable(lg, p) && forall i :: 0 <= i < |s| ==> In(s[i], p.from, p.to)
    ensures Counted(lg, p, s, p.buckets) == Present(s)
    decreases |s|
  {
    hide Bucket;
    if s == [] {
      CountedNone(lg, p, p.buckets);
    } else {
      var n := |s| - 1;
      EverySampleOnce(lg, p, s[..n]);
      CountedMore(lg, p, s[..n], s[n], p.buckets);
      assert s == s[..n] + [s[n]];
      assert In(s[n], p.from, p.to);
      BucketInWindow(lg, p, s[n].x);
    }
  }

  /** A count, and bounds that are attained. */
  predicate Reduced(n: int, min: Option<real>, max: Option<real>, vals: seq<real>) {
    n == |vals| &&
    if vals == [] then min == None && max == None
    else
      min.Some? && max.Some? && min.value in vals && max.value in vals &&
      forall v :: v in vals ==> min.value <= v <= max.value
  }

  /** A sample added to a bucket. */
  lemma ReducedMore(n: int, min: Option<real>, max: Option<real>, vals: seq<real>, v: real)
    requires Reduced(n, min, max, vals)
    ensures n == 0 ==> Reduced(1, Some(v), Some(v), vals + [v])
    ensures n != 0 ==> min.Some? && max.Some?
    ensures n != 0 ==>
      Reduced(n + 1, Some(if v < min.value then v else min.value), Some(if v > max.value then v else max.value), vals + [v])
  {
    var all := vals + [v];
    assert v in all && forall x :: x in vals ==> x in all;
    assert forall x :: x in all ==> x in vals || x == v;
  }

  function Lesser(a: Option<real>, v: real): Option<real> { if a.Some? && v < a.value then Some(v) else a }

  function Greater(a: Option<real>, v: real): Option<real> { if a.Some? && v > a.value then Some(v) else a }

  /** Few samples, as they are. */
  predicate AsTheyAre(e: Envelope, w: seq<Sample>) {
    e.exact && |e.x| == |e.min| == |e.max| == |e.n| == |w| &&
    forall i :: 0 <= i < |w| ==>
      e.x[i] == w[i].x && e.min[i] == e.max[i] == w[i].v && e.n[i] == if w[i].v.Some? then 1 else 0
  }

  /** Every bucket reduced from its own samples. */
  ghost predicate Bucketed(lg: Logs, p: Pos, e: Envelope, w: seq<Sample>) {
    Usable(lg, p) && !e.exact && |e.x| == |e.min| == |e.max| == |e.n| == p.buckets &&
    (forall b :: 0 <= b < p.buckets ==> e.x[b] == Centre(lg, p, b)) &&
    forall b :: 0 <= b < p.buckets ==> Reduced(e.n[b], e.min[b], e.max[b], InBucket(lg, p, w, b))
  }

  ghost predicate Reducing(lg: Logs, p: Pos, n: seq<int>, min: seq<Option<real>>, max: seq<Option<real>>, w: seq<Sample>) {
    Usable(lg, p) && |n| == |min| == |max| == p.buckets &&
    forall b :: 0 <= b < p.buckets ==> Reduced(n[b], min[b], max[b], InBucket(lg, p, w, b))
  }

  lemma ReducingNone(lg: Logs, p: Pos, n: seq<int>, min: seq<Option<real>>, max: seq<Option<real>>)
    requires Usable(lg, p) && |n| == |min| == |max| == p.buckets
    requires forall b :: 0 <= b < p.buckets ==> n[b] == 0 && min[b] == None && max[b] == None
    ensures Reducing(lg, p, n, min, max, [])
  {
  }

  lemma ReducingSkip(lg: Logs, p: Pos, n: seq<int>, min: seq<Option<real>>, max: seq<Option<real>>, w: seq<Sample>, a: Sample)
    requires Reducing(lg, p, n, min, max, w)
    requires a.v == None || !(0 <= Bucket(lg, p, a.x) < p.buckets)
    ensures Reducing(lg, p, n, min, max, w + [a])
  {
    hide Bucket;
    hide Reduced;
    assert (w + [a])[..|w|] == w;
    forall b | 0 <= b < p.buckets ensures Reduced(n[b], min[b], max[b], InBucket(lg, p, w + [a], b)) {
      assert InBucket(lg, p, w + [a], b) == InBucket(lg, p, w, b);
    }
  }

  lemma ReducingMore(lg: Logs, p: Pos, n: seq<int>, min: seq<Option<real>>, max: seq<Option<real>>, w: seq<Sample>, a: Sample)
    requires Reducing(lg, p, n, min, max, w) && a.v.Some? && 0 <= Bucket(lg, p, a.x) < p.buckets && |w| + 1 < TWO31
    ensures var b := Bucket(lg, p, a.x);
      var v := a.v.value;
      Reducing(lg, p, n[b := Int32(n[b] + 1)],
               min[b := if n[b] == 0 then Some(v) else Lesser(min[b], v)],
               max[b := if n[b] == 0 then Some(v) else Greater(max[b], v)], w + [a])
  {
    hide Bucket;
    var k, v := Bucket(lg, p, a.x), a.v.value;
    assert (w + [a])[..|w|] == w;
    BucketSize(lg, p, w, k);
    Int32Small(n[k] + 1);
    ReducedMore(n[k], min[k], max[k], InBucket(lg, p, w, k), v);
    hide Reduced;
    forall b | 0 <= b < p.buckets && b != k ensures InBucket(lg, p, w + [a], b) == InBucket(lg, p, w, b) { }
  }

  lemma {:induction false} BucketSize(lg: Logs, p: Pos, s: seq<Sample>, b: int)
    requires Usable(lg, p)
    ensures |InBucket(lg, p, s, b)| <= |s|
  {
    hide Bucket;
    if s != [] { BucketSize(lg, p, s[..|s| - 1], b); }
  }

  /** A window of a series in at most so many points. */
  method Numeric(lg: Logs, s: seq<Sample>, from: real, to: real, size: int, scale: Scale) returns (e: Envelope)
    requires LogLaws(lg)
    ensures var w := Window(s, from, to);
      var n: nat := if size < 1 then 1 else size;
      Sorted(s) && |s| < TWO31 ==>
        if |w| <= n then AsTheyAre(e, w) else Bucketed(lg, NewPos(from, to, n, scale), e, w)
  {
    hide Window;
    hide Sorted;
    hide Bucketed;
    hide AsTheyAre;
    hide Reducing;
    hide InBucket;
    hide LogLaws;
    hide Bucket;
    hide Centre;
    hide Reduced;
    hide Int32;
    var lo, hi := Range(s, from, to);
    ghost var good := Sorted(s) && |s| < TWO31;
    var buckets: nat := if size < 1 then 1 else size;
    if hi - lo <= buckets {
      e := Points(s, lo, hi);
      return;
    }
    var pos := NewPos(from, to, buckets, scale);
    NewUsable(lg, from, to, buckets, scale);
    hide Usable;
    hide NewPos;
    var xs, mins, maxs, ns := Blank(lg, pos);
    ReducingNone(lg, pos, ns[..], mins[..], maxs[..]);
    assert s[lo..lo] == [];
    for i := lo to hi
      invariant fresh(xs) && fresh(mins) && fresh(maxs) && fresh(ns) && mins != maxs
      invariant xs.Length == mins.Length == maxs.Length == ns.Length == buckets
      invariant forall b :: 0 <= b < buckets ==> xs[b] == Centre(lg, pos, b)
      invariant good ==> Reducing(lg, pos, ns[..], mins[..], maxs[..], s[lo..i])
    {
      assert s[lo..i + 1] == s[lo..i] + [s[i]];
      if s[i].v == None {
        if good { ReducingSkip(lg, pos, ns[..], mins[..], maxs[..], s[lo..i], s[i]); }
        continue;
      }
      var b := Bucket(lg, pos, s[i].x);
      if b < 0 || b >= buckets {
        if good { ReducingSkip(lg, pos, ns[..], mins[..], maxs[..], s[lo..i], s[i]); }
        continue;
      }
      var v := s[i].v.value;
      if good { ReducingMore(lg, pos, ns[..], mins[..], maxs[..], s[lo..i], s[i]); }
      ghost var n0, min0, max0 := ns[..], mins[..], maxs[..];
      if ns[b] == 0 {
        mins[b], maxs[b] := Some(v), Some(v);
      } else {
        mins[b], maxs[b] := Lesser(mins[b], v), Greater(maxs[b], v);
      }
      ns[b] := Int32(ns[b] + 1);
      assert ns[..] == n0[b := Int32(n0[b] + 1)];
      assert mins[..] == min0[b := if n0[b] == 0 then Some(v) else Lesser(min0[b], v)];
      assert maxs[..] == max0[b := if n0[b] == 0 then Some(v) else Greater(max0[b], v)];
    }
    e := Envelope(xs[..], mins[..], maxs[..], ns[..], false);
    if good { BucketedIs(lg, pos, e, s[lo..hi]); }
  }

  lemma BucketedIs(lg: Logs, p: Pos, e: Envelope, w: seq<Sample>)
    requires Usable(lg, p) && !e.exact && |e.x| == p.buckets && Reducing(lg, p, e.n, e.min, e.max, w)
    requires forall b :: 0 <= b < p.buckets ==> e.x[b] == Centre(lg, p, b)
    ensures Bucketed(lg, p, e, w)
  {
    hide Reduced;
    hide Centre;
  }

  method Range(s: seq<Sample>, from: real, to: real) returns (lo: nat, hi: nat)
    ensures lo <= |s| && hi <= |s|
    ensures Sorted(s) ==> Window(s, from, to) == if lo <= hi then s[lo..hi] else []
  {
    lo := FirstAt(s, from);
    hi := FirstPast(s, to);
    if Sorted(s) { WindowIs(s, from, to, lo, hi); }
  }

  method Points(s: seq<Sample>, lo: nat, hi: nat) returns (e: Envelope)
    requires lo <= |s| && hi <= |s|
    ensures AsTheyAre(e, if lo <= hi then s[lo..hi] else [])
  {
    e := Envelope([], [], [], [], true);
    if hi < lo { return; }
    assert s[lo..lo] == [];
    for i := lo to hi
      invariant AsTheyAre(e, s[lo..i])
    {
      assert s[lo..i + 1] == s[lo..i] + [s[i]];
      PointMore(e, s[lo..i], s[i]);
      e := Envelope(e.x + [s[i].x], e.min + [s[i].v], e.max + [s[i].v], e.n + [if s[i].v.Some? then 1 else 0], true);
    }
  }

  lemma PointMore(e: Envelope, w: seq<Sample>, a: Sample)
    requires AsTheyAre(e, w)
    ensures AsTheyAre(Envelope(e.x + [a.x], e.min + [a.v], e.max + [a.v], e.n + [if a.v.Some? then 1 else 0], true), w + [a])
  {
  }

  /** Empty buckets, each with its place. */
  method Blank(lg: Logs, p: Pos) returns (xs: array<real>, mins: array<Option<real>>, maxs: array<Option<real>>, ns: array<int>)
    requires Usable(lg, p)
    ensures fresh(xs) && fresh(mins) && fresh(maxs) && fresh(ns) && mins != maxs
    ensures xs.Length == mins.Length == maxs.Length == ns.Length == p.buckets
    ensures forall b :: 0 <= b < p.buckets ==> xs[b] == Centre(lg, p, b) && mins[b] == None && maxs[b] == None && ns[b] == 0
  {
    hide Centre;
    xs := new real[p.buckets](_ => 0.0);
    mins := new Option<real>[p.buckets](_ => None);
    maxs := new Option<real>[p.buckets](_ => None);
    ns := new int[p.buckets](_ => 0);
    for b := 0 to p.buckets
      invariant forall k :: 0 <= k < b ==> xs[k] == Centre(lg, p, k)
      invariant forall k :: 0 <= k < p.buckets ==> mins[k] == None && maxs[k] == None && ns[k] == 0
    {
      xs[b] := Centre(lg, p, b);
    }
  }

  // --- from the frames' summaries -----------------------------------------------------------------------------------

  /** One frame's summary of one field: its extent, its bounds, how many samples were
      present, the first of their values, and whether there were others. */
  datatype FrameStat = FrameStat(
    first: real, last: real, min: Option<real>, max: Option<real>, nPresent: nat, value: Option<real>, distinct: bool)

  /** The buckets a frame covers, or negative when it is outside. */
  function SpanBuckets(lg: Logs, p: Pos, first: real, last: real): (int, int)
    requires Usable(lg, p)
  {
    var lo, hi := Bucket(lg, p, first), Bucket(lg, p, last);
    if lo < 0 && hi < 0 then (-1, -1)
    else
      var lo1 := if lo < 0 then 0 else lo;
      var hi1 := if hi < 0 then p.buckets - 1 else hi;
      var lo2 := if lo1 > hi1 then hi1 else lo1;
      var hi2 := if lo1 > hi1 then lo1 else hi1;
      (if lo2 < 0 then 0 else lo2, if hi2 >= p.buckets then p.buckets - 1 else hi2)
  }

  lemma SpanBounds(lg: Logs, p: Pos, first: real, last: real)
    requires Usable(lg, p)
    ensures var (lo, hi) := SpanBuckets(lg, p, first, last);
      lo == -1 || 0 <= lo <= hi < p.buckets
  {
    hide Frac;
    var f, g := Frac(lg, p, first), Frac(lg, p, last);
    BucketAtBounds(f, p.buckets);
    BucketAtBounds(g, p.buckets);
    hide BucketAt;
  }

  lemma BucketAtBounds(f: real, n: nat)
    requires n >= 1
    ensures -1 <= BucketAt(f, n) < n
  {
    if f >= 0.0 { ProductOrderWeak(0.0, f, n as real); }
  }

  predicate Spans(lg: Logs, p: Pos, s: FrameStat, b: int)
    requires Usable(lg, p)
  {
    var (lo, hi) := SpanBuckets(lg, p, s.first, s.last);
    s.nPresent > 0 && lo >= 0 && lo <= b <= hi
  }

  /** A place of the window that a frame reaches is in a bucket the frame covers. */
  lemma SpanCovers(lg: Logs, p: Pos, s: FrameStat, x: real)
    requires LogLaws(lg) && Usable(lg, p) && p.from <= x <= p.to && s.first <= x <= s.last && s.nPresent > 0
    ensures 0 <= Bucket(lg, p, x) < p.buckets && Spans(lg, p, s, Bucket(lg, p, x))
  {
    BucketInWindow(lg, p, x);
    BucketOrder(lg, p, s.first, x);
    BucketOrder(lg, p, x, s.last);
    hide LogLaws;
    hide Frac;
    BucketAtBounds(Frac(lg, p, s.first), p.buckets);
    BucketAtBounds(Frac(lg, p, s.last), p.buckets);
    hide BucketAt;
  }

  /** And it covers no bucket before or after those of its ends. */
  lemma SpanTight(lg: Logs, p: Pos, s: FrameStat, b: int)
    requires LogLaws(lg) && Usable(lg, p) && p.from <= p.to && s.first <= s.last && s.first <= p.to && p.from <= s.last
    requires Spans(lg, p, s, b)
    ensures 0 <= b < p.buckets
    ensures p.from <= s.first ==> Bucket(lg, p, s.first) <= b
    ensures s.last <= p.to ==> b <= Bucket(lg, p, s.last)
  {
    BucketOrder(lg, p, s.first, s.last);
    if p.from <= s.first { BucketInWindow(lg, p, s.first); }
    if s.last <= p.to { BucketInWindow(lg, p, s.last); }
    hide LogLaws;
    hide Frac;
    BucketAtBounds(Frac(lg, p, s.first), p.buckets);
    BucketAtBounds(Frac(lg, p, s.last), p.buckets);
    hide BucketAt;
  }

  /** Division as the machine has it, toward zero. */
  function Quotient(a: int, b: int): int
    requires b > 0
  {
    if a >= 0 then a / b else -((-a) / b)
  }

  /** A frame's samples spread over its buckets, at least one in each. */
  function Share(nPresent: nat, span: nat): int
    requires 0 < span < TWO31
  {
    var share := Quotient(Int32(nPresent), span);
    if share < 1 then 1 else share
  }

  /** How many buckets a frame covers. */
  function Breadth(lg: Logs, p: Pos, s: FrameStat): (n: int)
    requires Usable(lg, p)
    ensures n <= p.buckets
  {
    var (lo, hi) := SpanBuckets(lg, p, s.first, s.last);
    SpanBounds(lg, p, s.first, s.last);
    if lo < 0 then 0 else hi - lo + 1
  }

  /** What is dealt to a bucket by the frames that cover it. */
  function Dealt(lg: Logs, p: Pos, stats: seq<FrameStat>, b: int): int
    requires Usable(lg, p) && p.buckets < TWO31
  {
    if stats == [] then 0
    else
      var n := |stats| - 1;
      Dealt(lg, p, stats[..n], b) +
      if Spans(lg, p, stats[n], b) then SpansBreadth(lg, p, stats[n], b); Share(stats[n].nPresent, Breadth(lg, p, stats[n])) else 0
  }

  lemma SpansBreadth(lg: Logs, p: Pos, s: FrameStat, b: int)
    requires Usable(lg, p) && Spans(lg, p, s, b)
    ensures Breadth(lg, p, s) >= 1
  {
    hide SpanBuckets;
  }

  lemma DealtMore(lg: Logs, p: Pos, stats: seq<FrameStat>, s: FrameStat, b: int)
    requires Usable(lg, p) && p.buckets < TWO31
    ensures Spans(lg, p, s, b) ==> Breadth(lg, p, s) >= 1
    ensures Dealt(lg, p, stats + [s], b) ==
      Dealt(lg, p, stats, b) + if Spans(lg, p, s, b) then Share(s.nPresent, Breadth(lg, p, s)) else 0
  {
    hide Spans;
    hide Breadth;
    hide Share;
    assert (stats + [s])[..|stats|] == stats;
    if Spans(lg, p, s, b) { SpansBreadth(lg, p, s, b); }
  }

  lemma ShareBounds(nPresent: nat, span: nat)
    requires 0 < span < TWO31 && 0 < nPresent < TWO31
    ensures 1 <= Share(nPresent, span) <= nPresent
  {
    Int32Small(nPresent);
    assert nPresent / span <= nPresent by { DivideLess(nPresent, span); }
  }

  lemma DivideLess(a: nat, b: nat)
    requires b > 0
    ensures a / b <= a
  {
    var q := a / b;
    assert a == b * q + a % b;
    assert b * q >= q by { TimesMore(b, q); }
  }

  lemma TimesMore(b: nat, q: nat)
    requires b > 0
    ensures b * q >= q
  {
  }

  /** The least of a bound so far and another; NaN is sticky. */
  function MinOf(a: Option<real>, b: Option<real>): Option<real> {
    if a == None || b == None then None else if b.value < a.value then b else a
  }

  function MaxOf(a: Option<real>, b: Option<real>): Option<real> {
    if a == None || b == None then None else if b.value > a.value then b else a
  }

  /** The frames with samples that cover a bucket. */
  function Over(lg: Logs, p: Pos, stats: seq<FrameStat>, b: int): seq<FrameStat>
    requires Usable(lg, p)
  {
    if stats == [] then []
    else
      var n := |stats| - 1;
      Over(lg, p, stats[..n], b) + if Spans(lg, p, stats[n], b) then [stats[n]] else []
  }

  /** A frame with samples has bounds. */
  predicate Bounded(stats: seq<FrameStat>) {
    forall s :: s in stats && s.nPresent > 0 ==> s.min.Some? && s.max.Some? && s.nPresent < TWO31
  }

  function Samples(stats: seq<FrameStat>): nat {
    if stats == [] then 0 else Samples(stats[..|stats| - 1]) + stats[|stats| - 1].nPresent
  }

  /** Bounds that contain every frame's and are some frame's, and a count that is not
      zero when there is a frame, nor more than the frames hold. */
  ghost predicate Widest(n: int, min: Option<real>, max: Option<real>, over: seq<FrameStat>) {
    |over| <= n <= Samples(over) &&
    if over == [] then min == None && max == None
    else
      min.Some? && max.Some? &&
      (forall s :: s in over && s.min.Some? ==> min.value <= s.min.value) && (exists s :: s in over && s.min == min) &&
      (forall s :: s in over && s.max.Some? ==> s.max.value <= max.value) && (exists s :: s in over && s.max == max)
  }

  lemma WidestMore(n: int, min: Option<real>, max: Option<real>, over: seq<FrameStat>, s: FrameStat, share: int)
    requires Widest(n, min, max, over) && Bounded(over + [s]) && s.nPresent > 0 && 1 <= share <= s.nPresent
    ensures n == 0 <==> over == []
    ensures Widest(n + share, if n == 0 then s.min else MinOf(min, s.min), if n == 0 then s.max else MaxOf(max, s.max), over + [s])
  {
    var all := over + [s];
    assert all[..|over|] == over;
    assert s in all && forall t :: t in over ==> t in all;
    assert forall t :: t in all ==> t in over || t == s;
    if n != 0 {
      var t :| t in over && t.min == min;
      var u :| u in over && u.max == max;
      assert t in all && u in all;
    }
  }

  ghost predicate Widening(lg: Logs, p: Pos, n: seq<int>, min: seq<Option<real>>, max: seq<Option<real>>, stats: seq<FrameStat>) {
    Usable(lg, p) && |n| == |min| == |max| == p.buckets < TWO31 &&
    forall b :: 0 <= b < p.buckets ==>
      Widest(n[b], min[b], max[b], Over(lg, p, stats, b)) && n[b] == Dealt(lg, p, stats, b)
  }

  /** Buckets below `c` that the next frame covers have it already. */
  ghost predicate Spreading(lg: Logs, p: Pos, n: seq<int>, min: seq<Option<real>>, max: seq<Option<real>>,
                            stats: seq<FrameStat>, s: FrameStat, c: int) {
    Usable(lg, p) && |n| == |min| == |max| == p.buckets < TWO31 &&
    forall b :: 0 <= b < p.buckets ==> SpreadAt(lg, p, n[b], min[b], max[b], stats, s, b, c)
  }

  ghost predicate SpreadAt(lg: Logs, p: Pos, n: int, min: Option<real>, max: Option<real>,
                           stats: seq<FrameStat>, s: FrameStat, b: int, c: int)
    requires Usable(lg, p) && p.buckets < TWO31
  {
    var covering := if b < c then stats + [s] else stats;
    Widest(n, min, max, Over(lg, p, covering, b)) && n == Dealt(lg, p, covering, b)
  }

  lemma OverMore(lg: Logs, p: Pos, stats: seq<FrameStat>, s: FrameStat, b: int)
    requires Usable(lg, p)
    ensures Over(lg, p, stats + [s], b) == Over(lg, p, stats, b) + if Spans(lg, p, s, b) then [s] else []
  {
    hide Spans;
    assert (stats + [s])[..|stats|] == stats;
  }

  lemma OverSame(lg: Logs, p: Pos, stats: seq<FrameStat>, s: FrameStat, b: int)
    requires Usable(lg, p) && !Spans(lg, p, s, b)
    ensures Over(lg, p, stats + [s], b) == Over(lg, p, stats, b)
  {
    OverMore(lg, p, stats, s, b);
    hide Over;
    assert Over(lg, p, stats, b) + [] == Over(lg, p, stats, b);
  }

  lemma SpreadNone(lg: Logs, p: Pos, n: seq<int>, min: seq<Option<real>>, max: seq<Option<real>>,
                   stats: seq<FrameStat>, s: FrameStat, c: int)
    requires Widening(lg, p, n, min, max, stats) && forall b :: 0 <= b < p.buckets && b < c ==> !Spans(lg, p, s, b)
    ensures Spreading(lg, p, n, min, max, stats, s, c)
  {
    hide Spans;
    hide Over;
    hide Dealt;
    hide Widest;
    forall b | 0 <= b < p.buckets ensures SpreadAt(lg, p, n[b], min[b], max[b], stats, s, b, c) {
      if b < c {
        OverSame(lg, p, stats, s, b);
        DealtMore(lg, p, stats, s, b);
      }
    }
  }

  lemma SpreadDone(lg: Logs, p: Pos, n: seq<int>, min: seq<Option<real>>, max: seq<Option<real>>,
                   stats: seq<FrameStat>, s: FrameStat, c: int)
    requires Spreading(lg, p, n, min, max, stats, s, c) && forall b :: c <= b < p.buckets ==> !Spans(lg, p, s, b)
    ensures Widening(lg, p, n, min, max, stats + [s])
  {
    hide Spans;
    hide Over;
    hide Dealt;
    hide Widest;
    forall b | 0 <= b < p.buckets
      ensures Widest(n[b], min[b], max[b], Over(lg, p, stats + [s], b)) && n[b] == Dealt(lg, p, stats + [s], b)
    {
      assert SpreadAt(lg, p, n[b], min[b], max[b], stats, s, b, c);
      if c <= b {
        OverSame(lg, p, stats, s, b);
        DealtMore(lg, p, stats, s, b);
      }
    }
  }

  /** Frames that cover a bucket hold no more than all the frames do. */
  lemma {:induction false} OverHolds(lg: Logs, p: Pos, stats: seq<FrameStat>, b: int)
    requires Usable(lg, p)
    ensures Samples(Over(lg, p, stats, b)) <= Samples(stats)
  {
    hide Spans;
    if stats != [] {
      var n := |stats| - 1;
      OverHolds(lg, p, stats[..n], b);
      var over := Over(lg, p, stats[..n], b);
      if Spans(lg, p, stats[n], b) {
        assert (over + [stats[n]])[..|over|] == over;
      } else {
        assert over + [] == over;
      }
    }
  }

  lemma {:induction false} OverIs(lg: Logs, p: Pos, stats: seq<FrameStat>, b: int, s: FrameStat)
    requires Usable(lg, p)
    ensures s in Over(lg, p, stats, b) <==> s in stats && Spans(lg, p, s, b)
  {
    hide Spans;
    if stats != [] {
      var n := |stats| - 1;
      OverIs(lg, p, stats[..n], b, s);
      InLast(stats, s);
    }
  }

  lemma InLast(stats: seq<FrameStat>, s: FrameStat)
    requires stats != []
    ensures s in stats <==> s in stats[..|stats| - 1] || s == stats[|stats| - 1]
  {
    assert stats == stats[..|stats| - 1] + [stats[|stats| - 1]];
  }

  lemma OverBounded(lg: Logs, p: Pos, stats: seq<FrameStat>, s: FrameStat, b: int)
    requires Usable(lg, p) && Bounded(stats + [s])
    ensures Bounded(Over(lg, p, stats, b) + [s])
  {
    hide Over;
    hide Spans;
    forall t | t in Over(lg, p, stats, b) + [s] ensures t in stats + [s] {
      OverIs(lg, p, stats, b, t);
    }
  }

  lemma RoomyIs(stats: seq<FrameStat>, s: FrameStat, share: int)
    requires Roomy(stats, s, share)
    ensures 1 <= share <= s.nPresent && Bounded(stats + [s]) && Samples(stats + [s]) < TWO31
  {
  }

  /** A frame that may be added without a count leaving 31 bits. */
  ghost predicate Roomy(stats: seq<FrameStat>, s: FrameStat, share: int) {
    1 <= share <= s.nPresent && Bounded(stats + [s]) && Samples(stats + [s]) < TWO31
  }

  lemma WidestHere(lg: Logs, p: Pos, n: int, min: Option<real>, max: Option<real>, stats: seq<FrameStat>, s: FrameStat, b: int, share: int)
    requires Usable(lg, p) && Widest(n, min, max, Over(lg, p, stats, b)) && Spans(lg, p, s, b) && Roomy(stats, s, share)
    ensures Widest(Int32(n + share), if n == 0 then s.min else MinOf(min, s.min), if n == 0 then s.max else MaxOf(max, s.max),
                   Over(lg, p, stats + [s], b))
    ensures Int32(n + share) == n + share
  {
    hide *;
    var over := Over(lg, p, stats, b);
    RoomyIs(stats, s, share);
    OverMore(lg, p, stats, s, b);
    OverHolds(lg, p, stats + [s], b);
    OverBounded(lg, p, stats, s, b);
    WidestMore(n, min, max, over, s, share);
    WidestBound(n, min, max, over);
    WidestBound(n + share, if n == 0 then s.min else MinOf(min, s.min), if n == 0 then s.max else MaxOf(max, s.max), over + [s]);
    Int32Small(n + share);
  }

  lemma WidestBound(n: int, min: Option<real>, max: Option<real>, over: seq<FrameStat>)
    requires Widest(n, min, max, over)
    ensures |over| <= n <= Samples(over)
  {
  }

  lemma SpreadOne(lg: Logs, p: Pos, n: seq<int>, min: seq<Option<real>>, max: seq<Option<real>>,
                  stats: seq<FrameStat>, s: FrameStat, b: int, share: int)
    requires Spreading(lg, p, n, min, max, stats, s, b) && 0 <= b < p.buckets && Spans(lg, p, s, b)
    requires Roomy(stats, s, share) && Breadth(lg, p, s) >= 1 && share == Share(s.nPresent, Breadth(lg, p, s))
    ensures Spreading(lg, p, n[b := Int32(n[b] + share)],
                      min[b := if n[b] == 0 then s.min else MinOf(min[b], s.min)],
                      max[b := if n[b] == 0 then s.max else MaxOf(max[b], s.max)], stats, s, b + 1)
  {
    hide Spans;
    hide Over;
    hide Widest;
    hide MinOf;
    hide MaxOf;
    hide Int32;
    hide Roomy;
    hide Dealt;
    hide Share;
    hide Breadth;
    assert SpreadAt(lg, p, n[b], min[b], max[b], stats, s, b, b);
    DealtMore(lg, p, stats, s, b);
    WidestHere(lg, p, n[b], min[b], max[b], stats, s, b, share);
    forall k | 0 <= k < p.buckets && k != b ensures SpreadAt(lg, p, n[k], min[k], max[k], stats, s, k, b + 1) {
      assert SpreadAt(lg, p, n[k], min[k], max[k], stats, s, k, b);
    }
  }

  /** One bucket raised to a frame's bounds. */
  method Raise(s: FrameStat, b: nat, share: int, mins: array<Option<real>>, maxs: array<Option<real>>, ns: array<int>)
    requires mins != maxs && b < mins.Length == maxs.Length == ns.Length
    modifies mins, maxs, ns
    ensures ns[..] == old(ns[..])[b := Int32(old(ns[b]) + share)]
    ensures mins[..] == old(mins[..])[b := if old(ns[b]) == 0 then s.min else MinOf(old(mins[b]), s.min)]
    ensures maxs[..] == old(maxs[..])[b := if old(ns[b]) == 0 then s.max else MaxOf(old(maxs[b]), s.max)]
  {
    hide Int32;
    hide MinOf;
    hide MaxOf;
    if ns[b] == 0 {
      mins[b], maxs[b] := s.min, s.max;
    } else {
      mins[b], maxs[b] := MinOf(mins[b], s.min), MaxOf(maxs[b], s.max);
    }
    ns[b] := Int32(ns[b] + share);
  }

  lemma SpansIs(lg: Logs, p: Pos, s: FrameStat, lo: int, hi: int)
    requires Usable(lg, p) && SpanBuckets(lg, p, s.first, s.last) == (lo, hi) && lo >= 0 && s.nPresent > 0
    ensures forall b: int :: Spans(lg, p, s, b) <==> lo <= b <= hi
    ensures Breadth(lg, p, s) == hi - lo + 1
  {
  }

  /** One frame's bounds on every bucket it covers. */
  method Spread(lg: Logs, p: Pos, ghost stats: seq<FrameStat>, s: FrameStat, lo: nat, hi: nat, share: int,
                mins: array<Option<real>>, maxs: array<Option<real>>, ns: array<int>)
    requires Usable(lg, p) && mins != maxs && mins.Length == maxs.Length == ns.Length == p.buckets
    requires SpanBuckets(lg, p, s.first, s.last) == (lo, hi) && lo <= hi < p.buckets && s.nPresent > 0
    modifies mins, maxs, ns
    ensures old(Widening(lg, p, ns[..], mins[..], maxs[..], stats)) && Roomy(stats, s, share) ==>
      (hi - lo + 1 < TWO31 && share == Share(s.nPresent, hi - lo + 1)) ==>
      Widening(lg, p, ns[..], mins[..], maxs[..], stats + [s])
  {
    hide *;
    SpansIs(lg, p, s, lo, hi);
    ghost var good := Widening(lg, p, ns[..], mins[..], maxs[..], stats) && Roomy(stats, s, share) && hi - lo + 1 < TWO31 &&
      share == Share(s.nPresent, hi - lo + 1);
    if good { SpreadNone(lg, p, ns[..], mins[..], maxs[..], stats, s, lo); }
    for b := lo to hi + 1
      invariant good ==> Spreading(lg, p, ns[..], mins[..], maxs[..], stats, s, b)
    {
      if good { SpreadOne(lg, p, ns[..], mins[..], maxs[..], stats, s, b, share); }
      Raise(s, b, share, mins, maxs, ns);
    }
    if good { SpreadDone(lg, p, ns[..], mins[..], maxs[..], stats, s, hi + 1); }
  }

  /** Every bucket bounded by the frames that cover it. */
  ghost predicate Enveloped(lg: Logs, p: Pos, e: Envelope, stats: seq<FrameStat>) {
    Usable(lg, p) && !e.exact && |e.x| == |e.min| == |e.max| == |e.n| == p.buckets < TWO31 &&
    (forall b :: 0 <= b < p.buckets ==> e.x[b] == Centre(lg, p, b) && e.n[b] == Dealt(lg, p, stats, b)) &&
    forall b :: 0 <= b < p.buckets ==> Widest(e.n[b], e.min[b], e.max[b], Over(lg, p, stats, b))
  }

  /** A window in so many points, without decoding anything. */
  method NumericFromStats(lg: Logs, stats: seq<FrameStat>, from: real, to: real, size: int, scale: Scale) returns (e: Envelope)
    requires LogLaws(lg) && size < TWO31
    ensures Bounded(stats) && Samples(stats) < TWO31 ==>
      Enveloped(lg, NewPos(from, to, if size < 1 then 1 else size, scale), e, stats)
  {
    var buckets: nat := if size < 1 then 1 else size;
    var pos := NewPos(from, to, buckets, scale);
    NewUsable(lg, from, to, buckets, scale);
    hide LogLaws;
    hide Usable;
    hide NewPos;
    hide Centre;
    hide Widening;
    hide Bounded;
    hide Samples;
    hide SpanBuckets;
    hide Share;
    hide Enveloped;
    hide Dealt;
    var xs, mins, maxs, ns := Blank(lg, pos);
    WideningNone(lg, pos, ns[..], mins[..], maxs[..]);
    ghost var good := Bounded(stats) && Samples(stats) < TWO31;
    for i := 0 to |stats|
      invariant fresh(xs) && fresh(mins) && fresh(maxs) && fresh(ns) && mins != maxs
      invariant xs.Length == mins.Length == maxs.Length == ns.Length == buckets
      invariant forall b :: 0 <= b < buckets ==> xs[b] == Centre(lg, pos, b)
      invariant good ==> Widening(lg, pos, ns[..], mins[..], maxs[..], stats[..i])
    {
      var s := stats[i];
      assert stats[..i + 1] == stats[..i] + [s];
      if good { StatsBefore(stats, i + 1); }
      if s.nPresent == 0 {
        if good { WideningSkip(lg, pos, ns[..], mins[..], maxs[..], stats[..i], s); }
        continue;
      }
      var (lo, hi) := SpanBuckets(lg, pos, s.first, s.last);
      SpanBounds(lg, pos, s.first, s.last);
      if lo < 0 {
        if good { WideningSkip(lg, pos, ns[..], mins[..], maxs[..], stats[..i], s); }
        continue;
      }
      var share := Share(s.nPresent, hi - lo + 1);
      if good {
        StatHere(stats, i);
        ShareBounds(s.nPresent, hi - lo + 1);
        assert Roomy(stats[..i], s, share);
      }
      Spread(lg, pos, stats[..i], s, lo, hi, share, mins, maxs, ns);
    }
    e := Envelope(xs[..], mins[..], maxs[..], ns[..], false);
    assert stats[..|stats|] == stats;
    if good { EnvelopedIs(lg, pos, e, stats); }
  }

  lemma EnvelopedIs(lg: Logs, p: Pos, e: Envelope, stats: seq<FrameStat>)
    requires Usable(lg, p) && !e.exact && |e.x| == p.buckets && Widening(lg, p, e.n, e.min, e.max, stats)
    requires forall b :: 0 <= b < p.buckets ==> e.x[b] == Centre(lg, p, b)
    ensures Enveloped(lg, p, e, stats)
  {
    hide Widest;
    hide Centre;
    hide Dealt;
  }

  // --- and no sample is drawn in every bucket -------------------------------------------------------------------

  function Sum(n: seq<int>): int { if n == [] then 0 else Sum(n[..|n| - 1]) + n[|n| - 1] }

  /** How many of the first `k` buckets a frame covers. */
  function Covering(lg: Logs, p: Pos, s: FrameStat, k: nat): (n: nat)
    requires Usable(lg, p)
    ensures n <= k
  {
    if k == 0 then 0 else Covering(lg, p, s, k - 1) + if Spans(lg, p, s, k - 1) then 1 else 0
  }

  /** The samples of the frames drawn, but one for each bucket of a frame that has fewer
      samples than buckets. */
  function MostDrawn(lg: Logs, p: Pos, stats: seq<FrameStat>): int
    requires Usable(lg, p)
  {
    if stats == [] then 0
    else
      var n := |stats| - 1;
      var c := Covering(lg, p, stats[n], p.buckets);
      MostDrawn(lg, p, stats[..n]) + if c == 0 then 0 else if stats[n].nPresent < c then c else stats[n].nPresent
  }

  /** The same, less what does not divide evenly. */
  function LeastDrawn(lg: Logs, p: Pos, stats: seq<FrameStat>): int
    requires Usable(lg, p)
  {
    if stats == [] then 0
    else
      var n := |stats| - 1;
      var c := Covering(lg, p, stats[n], p.buckets);
      LeastDrawn(lg, p, stats[..n]) +
      if c == 0 then 0 else if stats[n].nPresent < c then c else stats[n].nPresent - (c - 1)
  }

  lemma ShareFair(nPresent: nat, span: nat)
    requires 0 < span < TWO31 && 0 < nPresent < TWO31
    ensures var all := Share(nPresent, span) * span;
      if nPresent < span then all == span else nPresent - (span - 1) <= all <= nPresent
  {
    Int32Small(nPresent);
    var q := nPresent / span;
    assert nPresent == span * q + nPresent % span;
  }

  /** The first `k` buckets hold what each frame deals to those of them it covers. */
  lemma {:induction false} DealtTo(lg: Logs, p: Pos, stats: seq<FrameStat>, s: FrameStat, n: seq<int>, was: seq<int>, k: nat)
    requires Usable(lg, p) && p.buckets < TWO31 && k <= p.buckets && |n| == |was| == k
    requires forall b :: 0 <= b < k ==> n[b] == Dealt(lg, p, stats + [s], b) && was[b] == Dealt(lg, p, stats, b)
    ensures Covering(lg, p, s, k) > 0 ==> Breadth(lg, p, s) >= 1
    ensures Sum(n) == Sum(was) +
      if Covering(lg, p, s, k) == 0 then 0 else Share(s.nPresent, Breadth(lg, p, s)) * Covering(lg, p, s, k)
  {
    hide Spans;
    hide Breadth;
    hide Share;
    hide Dealt;
    if k > 0 {
      DealtTo(lg, p, stats, s, n[..k - 1], was[..k - 1], k - 1);
      DealtMore(lg, p, stats, s, k - 1);
    }
  }

  lemma {:induction false} CoveringIs(lg: Logs, p: Pos, s: FrameStat, lo: int, hi: int, k: nat)
    requires Usable(lg, p) && SpanBuckets(lg, p, s.first, s.last) == (lo, hi) && 0 <= lo <= hi && s.nPresent > 0
    ensures Covering(lg, p, s, k) == if k <= lo then 0 else if k <= hi then k - lo else hi - lo + 1
  {
    hide SpanBuckets;
    if k > 0 { CoveringIs(lg, p, s, lo, hi, k - 1); }
  }

  lemma {:induction false} CoveringNone(lg: Logs, p: Pos, s: FrameStat, k: nat)
    requires Usable(lg, p) && (s.nPresent == 0 || SpanBuckets(lg, p, s.first, s.last).0 < 0)
    ensures Covering(lg, p, s, k) == 0
  {
    hide SpanBuckets;
    if k > 0 { CoveringNone(lg, p, s, k - 1); }
  }

  /** A frame covers as many buckets as it is broad, or none. */
  lemma CoveringBreadth(lg: Logs, p: Pos, s: FrameStat)
    requires Usable(lg, p)
    ensures var c := Covering(lg, p, s, p.buckets); c == 0 || (s.nPresent > 0 && c == Breadth(lg, p, s))
  {
    SpanBounds(lg, p, s.first, s.last);
    hide Covering;
    var (lo, hi) := SpanBuckets(lg, p, s.first, s.last);
    hide SpanBuckets;
    if lo < 0 || s.nPresent == 0 {
      CoveringNone(lg, p, s, p.buckets);
    } else {
      CoveringIs(lg, p, s, lo, hi, p.buckets);
    }
  }

  lemma {:induction false} DealtInAll(lg: Logs, p: Pos, stats: seq<FrameStat>, n: seq<int>)
    requires Usable(lg, p) && Bounded(stats) && |n| == p.buckets < TWO31
    requires forall b :: 0 <= b < p.buckets ==> n[b] == Dealt(lg, p, stats, b)
    ensures LeastDrawn(lg, p, stats) <= Sum(n) <= MostDrawn(lg, p, stats)
  {
    hide Spans;
    hide Breadth;
    hide Share;
    hide Covering;
    if stats == [] {
      SumZero(n);
    } else {
      var k := |stats| - 1;
      var s := stats[k];
      assert stats == stats[..k] + [s];
      StatsBefore(stats, k);
      var was := seq(p.buckets, b requires 0 <= b < p.buckets => Dealt(lg, p, stats[..k], b));
      hide Dealt;
      hide Sum;
      DealtInAll(lg, p, stats[..k], was);
      DealtTo(lg, p, stats[..k], s, n, was, p.buckets);
      CoveringBreadth(lg, p, s);
      if Covering(lg, p, s, p.buckets) > 0 {
        StatHere(stats, k);
        ShareFair(s.nPresent, Breadth(lg, p, s));
      }
    }
  }

  lemma {:induction false} SumZero(n: seq<int>)
    requires forall b :: 0 <= b < |n| ==> n[b] == 0
    ensures Sum(n) == 0
  {
    if n != [] { SumZero(n[..|n| - 1]); }
  }

  /** A chart counts each frame's samples once, however many buckets the frame covers:
      all its counts together are no more than the samples of the frames drawn, one for
      each bucket where a frame has fewer, and fall short only by what does not divide. */
  lemma DensityKept(lg: Logs, p: Pos, e: Envelope, stats: seq<FrameStat>)
    requires Enveloped(lg, p, e, stats) && Bounded(stats)
    ensures LeastDrawn(lg, p, stats) <= Sum(e.n) <= MostDrawn(lg, p, stats)
  {
    hide *;
    EnvelopedCounts(lg, p, e, stats);
    DealtInAll(lg, p, stats, e.n);
  }

  lemma EnvelopedCounts(lg: Logs, p: Pos, e: Envelope, stats: seq<FrameStat>)
    requires Enveloped(lg, p, e, stats)
    ensures Usable(lg, p) && |e.n| == p.buckets < TWO31
    ensures forall b :: 0 <= b < p.buckets ==> e.n[b] == Dealt(lg, p, stats, b)
  {
    hide Dealt;
    hide Centre;
    hide Widest;
  }

  lemma WideningNone(lg: Logs, p: Pos, n: seq<int>, min: seq<Option<real>>, max: seq<Option<real>>)
    requires Usable(lg, p) && |n| == |min| == |max| == p.buckets < TWO31
    requires forall b :: 0 <= b < p.buckets ==> n[b] == 0 && min[b] == None && max[b] == None
    ensures Widening(lg, p, n, min, max, [])
  {
  }

  lemma WideningSkip(lg: Logs, p: Pos, n: seq<int>, min: seq<Option<real>>, max: seq<Option<real>>, stats: seq<FrameStat>, s: FrameStat)
    requires Widening(lg, p, n, min, max, stats)
    requires s.nPresent == 0 || SpanBuckets(lg, p, s.first, s.last).0 < 0
    ensures Widening(lg, p, n, min, max, stats + [s])
  {
    hide Widest;
    hide SpanBuckets;
    hide Over;
    hide Dealt;
    forall b | 0 <= b < p.buckets
      ensures Over(lg, p, stats + [s], b) == Over(lg, p, stats, b) && Dealt(lg, p, stats + [s], b) == Dealt(lg, p, stats, b)
    {
      OverSame(lg, p, stats, s, b);
      DealtMore(lg, p, stats, s, b);
    }
  }

  lemma {:induction false} StatsBefore(stats: seq<FrameStat>, i: nat)
    requires i <= |stats| && Bounded(stats)
    ensures Bounded(stats[..i]) && Samples(stats[..i]) <= Samples(stats)
    decreases |stats| - i
  {
    if i < |stats| {
      StatsBefore(stats, i + 1);
      assert stats[..i + 1][..i] == stats[..i];
      forall s | s in stats[..i] ensures s in stats[..i + 1] {
        var k :| 0 <= k < i && stats[k] == s;
        assert stats[..i + 1][k] == s;
      }
    } else {
      assert stats[..i] == stats;
    }
  }

  lemma StatHere(stats: seq<FrameStat>, i: nat)
    requires i < |stats| && Bounded(stats) && stats[i].nPresent > 0
    ensures stats[i].nPresent < TWO31
  {
    assert stats[i] in stats;
  }
}
