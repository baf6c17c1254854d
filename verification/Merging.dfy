/** Merging a tail onto a cached index gives the index of the whole file exactly
    when their epochs agree. */
module Merging {
  import opened Bytes
  import opened Format
  import opened Frames
  import opened Records
  import opened Reading
  import opened Stats
  import opened Indexing
  import opened Joining
  import opened Growing

  // --- filters keep what lies before -----------------------------------------------------------------

  lemma {:induction false} KeptSegmentsSplit(x: seq<Segment>, y: seq<Segment>, r: nat)
    requires forall s :: s in x ==> s.sync.offset < r
    requires forall s :: s in y ==> s.sync.offset >= r
    ensures KeptSegments(x + y, r) == x
    decreases |x| + |y|
  {
    if y != [] {
      LastOfJoin(x, y);
      assert forall s :: s in Init(y) ==> s in y;
      KeptSegmentsSplit(x, Init(y), r);
    } else if x != [] {
      assert x + y == x && x == Init(x) + [Last(x)];
      assert forall s :: s in Init(x) ==> s in x;
      KeptSegmentsSplit(Init(x), y, r);
      assert Init(x) + y == Init(x);
    }
  }

  lemma {:induction false} KeptDataSplit(x: seq<DataFrame>, y: seq<DataFrame>, r: nat)
    requires forall i :: 0 <= i < |x| ==> x[i].ref.offset < r
    requires forall i :: 0 <= i < |y| ==> y[i].ref.offset >= r
    ensures KeptData(x + y, r) == x
    decreases |x| + |y|
  {
    if y != [] {
      LastOfJoin(x, y);
      KeptDataSplit(x, Init(y), r);
    } else if x != [] {
      assert x + y == x && x == Init(x) + [Last(x)];
      KeptDataSplit(Init(x), y, r);
      assert Init(x) + y == Init(x);
    }
  }

  function Nudged(hs: seq<Restated>, delta: int): (q: seq<Restated>)
    ensures |q| == |hs|
    ensures forall i :: 0 <= i < |hs| ==> q[i] == hs[i].(axis := hs[i].axis + delta as real)
  {
    seq(|hs|, i requires 0 <= i < |hs| => hs[i].(axis := hs[i].axis + delta as real))
  }

  lemma {:induction false} MergedHoldsSplit(x: seq<Restated>, y: seq<Restated>, r: nat, delta: int)
    requires forall i :: 0 <= i < |x| ==> x[i].offset < r
    requires forall i :: 0 <= i < |y| ==> y[i].offset >= r
    ensures MergedHolds(x + y, r, true, delta) == x
    ensures MergedHolds(x + y, r, false, delta) == Nudged(y, delta)
    decreases |x| + |y|
  {
    if y != [] {
      LastOfJoin(x, y);
      MergedHoldsSplit(x, Init(y), r, delta);
      assert Nudged(y, delta) == Nudged(Init(y), delta) + [Last(y).(axis := Last(y).axis + delta as real)];
      assert x + [] == x;
    } else if x != [] {
      assert x + y == x && x == Init(x) + [Last(x)];
      MergedHoldsSplit(Init(x), y, r, delta);
      assert Init(x) + y == Init(x);
    }
  }

  lemma {:induction false} FramesForJoin(x: seq<DataFrame>, y: seq<DataFrame>, u: bytes)
    ensures FramesFor(x + y, u) == FramesFor(x, u) + FramesFor(y, u)
    decreases |y|
  {
    if y == [] {
      assert x + y == x;
    } else {
      LastOfJoin(x, y);
      FramesForJoin(x, Init(y), u);
      assert FramesFor(x, u) + (FramesFor(Init(y), u) + [Last(y)]) == (FramesFor(x, u) + FramesFor(Init(y), u)) + [Last(y)];
      assert FramesFor(x, u) + (FramesFor(Init(y), u) + []) == (FramesFor(x, u) + FramesFor(Init(y), u)) + [];
    }
  }

  lemma {:induction false} FramesForComesFrom(ds: seq<DataFrame>, u: bytes, lo: nat, hi: nat)
    requires forall i :: 0 <= i < |ds| ==> lo <= ds[i].ref.offset < hi
    ensures forall k :: 0 <= k < |FramesFor(ds, u)| ==> lo <= FramesFor(ds, u)[k].ref.offset < hi
    decreases |ds|
  {
    if ds != [] { FramesForComesFrom(Init(ds), u, lo, hi); }
  }

  lemma {:induction false} FramesForMoved(ds: seq<DataFrame>, delta: int, u: bytes)
    ensures |FramesFor(MovedAll(ds, delta), u)| == |FramesFor(ds, u)|
    decreases |ds|
  {
    if ds != [] {
      FramesForMoved(Init(ds), delta, u);
      assert Init(MovedAll(ds, delta)) == MovedAll(Init(ds), delta);
    }
  }

  // --- finding a frame again -------------------------------------------------------------------------

  lemma {:induction false} FindInOrder(ds: seq<DataFrame>, i: nat)
    requires i < |ds| && InOrder(ds)
    ensures FindFrame(ds, ds[i].ref.offset) == Some(ds[i])
    decreases |ds|
  {
    if i > 0 { FindInOrder(ds[1..], i - 1); }
  }

  /** Each frame of `ds` has its counterpart in the table. */
  ghost predicate Counterparts(ds: seq<DataFrame>, gs: seq<DataFrame>, table: seq<DataFrame>, lo: nat, hi: nat) {
    |gs| == |ds| &&
    forall i :: 0 <= i < |ds| ==>
      gs[i].uuid == ds[i].uuid && lo <= ds[i].ref.offset < hi && FindFrame(table, ds[i].ref.offset) == Some(gs[i])
  }

  lemma {:induction false} ReattachAll(s: Stream, table: seq<DataFrame>, lo: nat, hi: nat, ds: seq<DataFrame>, gs: seq<DataFrame>, u: bytes)
    requires Counterparts(ds, gs, table, lo, hi)
    requires FramesFor(ds, u) <= s.frames && |FramesFor(ds, u)| <= |s.stats|
    ensures var k := |FramesFor(ds, u)|;
      Reattached(s, table, lo, hi, k) == Some(Attached(FramesFor(gs, u), s.stats[..k]))
    decreases |ds|
  {
    hide FindFrame;
    if ds != [] {
      var k := |FramesFor(Init(ds), u)|;
      ReattachAll(s, table, lo, hi, Init(ds), Init(gs), u);
      assert Last(gs).uuid == Last(ds).uuid;
      if Last(ds).uuid == u {
        assert s.frames[k] == FramesFor(ds, u)[k] == Last(ds);
        assert s.stats[..k + 1] == s.stats[..k] + [s.stats[k]];
        assert FindFrame(table, s.frames[k].ref.offset) == Some(Last(gs));
        assert FramesFor(gs, u) == FramesFor(Init(gs), u) + [Last(gs)];
      } else {
        assert FramesFor(ds, u) == FramesFor(Init(ds), u) && FramesFor(gs, u) == FramesFor(Init(gs), u);
      }
    }
  }

  lemma {:induction false} ReattachNoMore(s: Stream, table: seq<DataFrame>, lo: nat, hi: nat, k: nat, n: nat)
    requires k <= n <= |s.frames|
    requires forall i :: k <= i < n ==> s.frames[i].ref.offset < lo || s.frames[i].ref.offset >= hi
    ensures Reattached(s, table, lo, hi, n) == Reattached(s, table, lo, hi, k)
    decreases n
  {
    hide FindFrame;
    if n > k { ReattachNoMore(s, table, lo, hi, k, n - 1); }
  }

  // --- the two sides ------------------------------------------------------------------------------------

  /** `a` is what is kept, `c` what was cached from the resume point on, and `t` what
      is there now. */
  ghost predicate Split(a: seq<Event>, c: seq<Event>, t: seq<Event>, r: nat) {
    OpensSegment(c) && OpensSegment(t) && c <= t && r > 0 &&
    Within(a, 1, r) && Within(t, r, NO_LIMIT) && Ordered(a + t) && HeldKnown(t)
  }

  lemma SplitCached(a: seq<Event>, c: seq<Event>, t: seq<Event>, r: nat)
    requires Split(a, c, t, r)
    ensures OpensSegment(c) && Within(a, 1, r) && Within(c, r, NO_LIMIT) && Within(a, 0, r)
  {
  }

  lemma OffsetsOf(m: Meter, evs: seq<Event>, delta: int, lo: nat, hi: nat)
    requires Within(evs, lo, hi)
    ensures var ds := MovedAll(Data(m, evs), delta);
      forall i :: 0 <= i < |ds| ==> lo <= ds[i].ref.offset < hi
  {
    DataWithin(m, evs, lo, hi);
    hide Data;
  }

  lemma MovedJoin(x: seq<DataFrame>, y: seq<DataFrame>, delta: int)
    ensures MovedAll(x + y, delta) == MovedAll(x, delta) + MovedAll(y, delta)
  {
  }

  lemma PlacedMoved(ds: seq<DataFrame>, n: nat, delta: int)
    ensures MovedAll(Placed(ds, n), delta) == Placed(MovedAll(ds, delta), n)
  {
  }

  /** The segments before the resume point are the segments of what is kept. */
  lemma KeptSegmentsAre(a: seq<Event>, c: seq<Event>, r: nat)
    requires OpensSegment(c) && Within(a, 1, r) && Within(c, r, NO_LIMIT) && r > 0
    ensures KeptSegments(Segments(a + c), r) == Segments(a)
  {
    SegmentsJoin(a, c);
    SegmentsWithin(a, 1, r);
    SegmentsWithin(c, r, NO_LIMIT);
    hide Segments;
    var y := Renumbered(Segments(c), |Segments(a)|);
    forall s | s in y ensures s.sync.offset >= r {
      var i :| 0 <= i < |y| && y[i] == s;
      assert y[i].sync == Segments(c)[i].sync;
    }
    KeptSegmentsSplit(Segments(a), y, r);
  }

  lemma KeptDataIs(m: Meter, a: seq<Event>, c: seq<Event>, r: nat, delta: int)
    requires OpensSegment(c) && Within(a, 1, r) && Within(c, r, NO_LIMIT)
    ensures KeptData(MovedAll(Data(m, a + c), delta), r) == MovedAll(Data(m, a), delta)
    ensures MovedAll(Data(m, a + c), delta) ==
      MovedAll(Data(m, a), delta) + Placed(MovedAll(Data(m, c), delta), |Segments(a)|)
  {
    hide *;
    var n := |Segments(a)|;
    DataJoin(m, a, c);
    MovedJoin(Data(m, a), Placed(Data(m, c), n), delta);
    PlacedMoved(Data(m, c), n, delta);
    OffsetsOf(m, a, delta, 1, r);
    OffsetsOf(m, c, delta, r, NO_LIMIT);
    KeptDataSplit(MovedAll(Data(m, a), delta), Placed(MovedAll(Data(m, c), delta), n), r);
  }

  /** What the tail's frames are in the merged list. */
  function TailPart(m: Meter, a: seq<Event>, t: seq<Event>, delta: int): seq<DataFrame> {
    MovedAll(Placed(MovedAll(Data(m, t), -Origin(Epoch(m, t))), |Segments(a)|), delta)
  }

  lemma IndexParts(m: Meter, evs: seq<Event>, tr: bool)
    ensures var f := IndexOf(m, evs, tr);
      f.segments == Segments(evs) && f.data == MovedAll(Data(m, evs), -Origin(Epoch(m, evs))) &&
      f.streams.Keys == Models(evs).Keys && f.epoch == Epoch(m, evs) && f.truncated == tr && f.closed == Closed(evs)
    ensures forall u :: u in Models(evs) ==> IndexOf(m, evs, tr).streams[u] == StreamOf(m, evs, u)
  {
    hide Segments;
    hide Data;
    hide Models;
    hide Epoch;
    hide Closed;
    hide StreamOf;
  }

  lemma MergedDataIs(m: Meter, a: seq<Event>, c: seq<Event>, t: seq<Event>, r: nat, trC: bool, trT: bool)
    requires Split(a, c, t, r)
    ensures var cached, tail := IndexOf(m, a + c, trC), IndexOf(m, t, trT);
      KeptSegments(cached.segments, r) == Segments(a) &&
      KeptOf(cached, r) == MovedAll(Data(m, a), -Origin(cached.epoch)) &&
      MergedData(cached, tail, r) == KeptOf(cached, r) + TailPart(m, a, t, Delta(cached, tail))
  {
    hide *;
    SplitCached(a, c, t, r);
    SplitTail(a, c, t, r);
    IndexParts(m, a + c, trC);
    IndexParts(m, t, trT);
    var cached, tail := IndexOf(m, a + c, trC), IndexOf(m, t, trT);
    KeptSegmentsAre(a, c, r);
    KeptDataIs(m, a, c, r, -Origin(cached.epoch));
    KeptOfIs(cached, r);
    OffsetsOf(m, a, -Origin(cached.epoch), 1, r);
    OffsetsOf(m, t, -Origin(tail.epoch), r, NO_LIMIT);
    MergedParts(cached, tail, r);
    MovedFromSplit(KeptOf(cached, r), Placed(tail.data, |Segments(a)|), r, Delta(cached, tail));
    TailPartIs(m, a, t, Delta(cached, tail));
  }

  lemma SplitTail(a: seq<Event>, c: seq<Event>, t: seq<Event>, r: nat)
    requires Split(a, c, t, r)
    ensures OpensSegment(t) && Within(t, r, NO_LIMIT) && Ordered(a + t) && HeldKnown(t) && r > 0 && c <= t
  {
  }

  lemma KeptOfIs(f: File, r: nat)
    ensures KeptOf(f, r) == KeptData(f.data, r)
  {
  }

  lemma MergedParts(cached: File, tail: File, r: nat)
    ensures MergedData(cached, tail, r) ==
      MovedFrom(KeptOf(cached, r) + Placed(tail.data, |KeptSegments(cached.segments, r)|), r, Delta(cached, tail))
  {
  }

  lemma TailPartIs(m: Meter, a: seq<Event>, t: seq<Event>, delta: int)
    ensures TailPart(m, a, t, delta) == MovedAll(Placed(MovedAll(Data(m, t), -Origin(Epoch(m, t))), |Segments(a)|), delta)
  {
  }

  lemma MovedFromSplit(x: seq<DataFrame>, y: seq<DataFrame>, r: nat, delta: int)
    requires forall i :: 0 <= i < |x| ==> x[i].ref.offset < r
    requires forall i :: 0 <= i < |y| ==> y[i].ref.offset >= r
    ensures MovedFrom(x + y, r, delta) == x + MovedAll(y, delta)
  {
  }

  // --- streams -------------------------------------------------------------------------------------------

  lemma {:induction false} UnknownHasNothing(m: Meter, evs: seq<Event>, u: bytes)
    requires u !in Models(evs)
    ensures Rows(m, evs, u) == [] && Holds(m, evs, u) == [] && FramesFor(Data(m, evs), u) == []
    decreases |evs|
  {
    if evs != [] {
      ModelKnown(evs, u);
      hide StatRow;
      hide RestatedOf;
      UnknownHasNothing(m, Init(evs), u);
    }
    RowsParallel(m, evs, u);
  }

  lemma OrderedParts(a: seq<Event>, b: seq<Event>)
    requires Ordered(a + b)
    ensures Ordered(a) && Ordered(b)
  {
    forall i, j | 0 <= i < j < |a| ensures a[i].at < a[j].at { assert (a + b)[i] == a[i] && (a + b)[j] == a[j]; }
    forall i, j | 0 <= i < j < |b| ensures b[i].at < b[j].at {
      assert (a + b)[|a| + i] == b[i] && (a + b)[|a| + j] == b[j];
    }
  }

  lemma MovedInOrder(ds: seq<DataFrame>, delta: int)
    requires InOrder(ds)
    ensures InOrder(MovedAll(ds, delta))
  {
  }

  lemma OwnCounterparts(ds: seq<DataFrame>, lo: nat, hi: nat)
    requires InOrder(ds) && forall i :: 0 <= i < |ds| ==> lo <= ds[i].ref.offset < hi
    ensures Counterparts(ds, ds, ds, lo, hi)
  {
    forall i | 0 <= i < |ds| ensures FindFrame(ds, ds[i].ref.offset) == Some(ds[i]) { FindInOrder(ds, i); }
    hide FindFrame;
  }

  lemma StreamParts(m: Meter, evs: seq<Event>, u: bytes)
    requires u in Models(evs)
    ensures var s := StreamOf(m, evs, u);
      s.model == Models(evs)[u] && s.frames == FramesFor(MovedAll(Data(m, evs), -Origin(Epoch(m, evs))), u) &&
      s.records == Total(s.frames) && s.stats == Rows(m, evs, u) &&
      s.holds == BasedAll(Models(evs)[u], Epoch(m, evs), Holds(m, evs, u))
  {
    hide Data;
    hide Models;
    hide Epoch;
    hide Rows;
    hide Holds;
  }

  /** The cached side gives a stream's frames from before the resume point, and
      their summaries. */
  lemma CachedSide(m: Meter, a: seq<Event>, c: seq<Event>, r: nat, tr: bool, u: bytes)
    requires OpensSegment(c) && Within(a, 1, r) && Within(c, r, NO_LIMIT) && r > 0 && Ordered(a)
    ensures var f := IndexOf(m, a + c, tr);
      KeptOf(f, r) == MovedAll(Data(m, a), -Origin(f.epoch)) &&
      Side(f, u, KeptOf(f, r), 0, r) == Some(Attached(FramesFor(KeptOf(f, r), u), Rows(m, a, u)))
  {
    hide *;
    IndexParts(m, a + c, tr);
    var f := IndexOf(m, a + c, tr);
    var o := -Origin(f.epoch);
    KeptOfIs(f, r);
    KeptDataIs(m, a, c, r, o);
    var x := MovedAll(Data(m, a), o);
    var y := Placed(MovedAll(Data(m, c), o), |Segments(a)|);
    ModelsJoin(a, c);
    RowsParallel(m, a, u);
    FramesForMoved(Data(m, a), o, u);
    if u in Models(a + c) {
      var s := f.streams[u];
      StreamParts(m, a + c, u);
      FramesForJoin(x, y, u);
      RowsGrow(m, a, c, u);
      DataInOrder(m, a);
      MovedInOrder(Data(m, a), o);
      OffsetsOf(m, a, o, 1, r);
      OffsetsOf(m, c, o, r, NO_LIMIT);
      OwnCounterparts(x, 0, r);
      ReattachAll(s, x, 0, r, x, x, u);
      FramesForComesFrom(y, u, r, NO_LIMIT);
      ReattachNoMore(s, x, 0, r, |FramesFor(x, u)|, |s.frames|);
      SideKnown(f, u, x, 0, r);
      assert s.stats[..|Rows(m, a, u)|] == Rows(m, a, u);
    } else {
      UnknownHasNothing(m, a, u);
      assert FramesFor(x, u) == [];
      SideUnknown(f, u, x, 0, r);
    }
  }

  lemma SideKnown(f: File, u: bytes, table: seq<DataFrame>, lo: nat, hi: nat)
    requires u in f.streams
    ensures Side(f, u, table, lo, hi) == Reattached(f.streams[u], table, lo, hi, |f.streams[u].frames|)
  {
  }

  lemma SideUnknown(f: File, u: bytes, table: seq<DataFrame>, lo: nat, hi: nat)
    requires u !in f.streams
    ensures Side(f, u, table, lo, hi) == Some(Attached([], []))
  {
  }

  lemma TailCounterparts(x: seq<DataFrame>, ds: seq<DataFrame>, n: nat, delta: int, lo: nat, hi: nat)
    requires InOrder(x + MovedAll(Placed(ds, n), delta))
    requires forall i :: 0 <= i < |ds| ==> lo <= ds[i].ref.offset < hi
    ensures Counterparts(ds, MovedAll(Placed(ds, n), delta), x + MovedAll(Placed(ds, n), delta), lo, hi)
  {
    var y := MovedAll(Placed(ds, n), delta);
    forall i | 0 <= i < |ds| ensures FindFrame(x + y, ds[i].ref.offset) == Some(y[i]) {
      assert (x + y)[|x| + i] == y[i];
      FindInOrder(x + y, |x| + i);
    }
    hide FindFrame;
  }

  /** The tail's side gives the rest, as the merged list has them. */
  lemma TailSide(m: Meter, t: seq<Event>, x: seq<DataFrame>, n: nat, delta: int, r: nat, tr: bool, u: bytes)
    requires Within(t, r, NO_LIMIT)
    requires var ds := MovedAll(Data(m, t), -Origin(Epoch(m, t)));
      InOrder(x + MovedAll(Placed(ds, n), delta))
    ensures var f := IndexOf(m, t, tr);
      var y := MovedAll(Placed(f.data, n), delta);
      Side(f, u, x + y, r, NO_LIMIT) == Some(Attached(FramesFor(y, u), Rows(m, t, u)))
  {
    hide *;
    IndexParts(m, t, tr);
    var f := IndexOf(m, t, tr);
    var ds := f.data;
    var y := MovedAll(Placed(ds, n), delta);
    var o := -Origin(f.epoch);
    RowsParallel(m, t, u);
    FramesForMoved(Data(m, t), o, u);
    OffsetsOf(m, t, o, r, NO_LIMIT);
    TailCounterparts(x, ds, n, delta, r, NO_LIMIT);
    if u in Models(t) {
      StreamParts(m, t, u);
      ReattachAll(f.streams[u], x + y, r, NO_LIMIT, ds, y, u);
      SideKnown(f, u, x + y, r, NO_LIMIT);
      assert f.streams[u].stats[..|Rows(m, t, u)|] == Rows(m, t, u);
    } else {
      UnknownHasNothing(m, t, u);
      assert FramesFor(ds, u) == [];
      CounterpartsMatch(ds, y, x + y, r, NO_LIMIT);
      NobodysFrames(ds, y, u);
      SideUnknown(f, u, x + y, r, NO_LIMIT);
    }
  }

  lemma CounterpartsMatch(ds: seq<DataFrame>, gs: seq<DataFrame>, table: seq<DataFrame>, lo: nat, hi: nat)
    requires Counterparts(ds, gs, table, lo, hi)
    ensures |gs| == |ds| && forall i :: 0 <= i < |ds| ==> gs[i].uuid == ds[i].uuid
  {
  }

  lemma {:induction false} NobodysFrames(ds: seq<DataFrame>, gs: seq<DataFrame>, u: bytes)
    requires |gs| == |ds| && FramesFor(ds, u) == []
    requires forall i :: 0 <= i < |ds| ==> gs[i].uuid == ds[i].uuid
    ensures FramesFor(gs, u) == []
    decreases |ds|
  {
    if ds != [] { NobodysFrames(Init(ds), Init(gs), u); }
  }

  // --- restatements --------------------------------------------------------------------------------------

  lemma {:induction false} HoldsTicks(m: Meter, evs: seq<Event>, u: bytes)
    requires u in Models(evs) && OnTime(Models(evs)[u])
    ensures forall i :: 0 <= i < |Holds(m, evs, u)| ==> Holds(m, evs, u)[i].axis == Holds(m, evs, u)[i].ticks as real
    decreases |evs|
  {
    if evs != [] {
      ModelsGrow(evs, |evs| - 1);
      if u in Models(Init(evs)) { HoldsTicks(m, Init(evs), u); } else { UnknownHasNothing(m, Init(evs), u); }
      hide Models;
      hide Values;
      hide Ticks;
    }
  }

  lemma {:induction false} HoldsAfter(m: Meter, a: seq<Event>, b: seq<Event>, u: bytes, lo: nat, hi: nat)
    requires Within(b, lo, hi)
    ensures Holds(m, a, u) <= Holds(m, a + b, u)
    ensures forall i :: |Holds(m, a, u)| <= i < |Holds(m, a + b, u)| ==> Holds(m, a + b, u)[i].offset >= lo
    decreases |b|
  {
    if b == [] {
      assert a + b == a;
    } else {
      LastOfJoin(a, b);
      WithinInit(b, lo, hi);
      HoldsAfter(m, a, Init(b), u, lo, hi);
      hide Values;
      hide Restates;
    }
  }

  lemma BasedSplit(model: Schema, epoch: Option<int>, x: seq<Restated>, y: seq<Restated>)
    ensures BasedAll(model, epoch, x + y) == BasedAll(model, epoch, x) + BasedAll(model, epoch, y)
  {
  }

  lemma CachedHolds(m: Meter, a: seq<Event>, c: seq<Event>, r: nat, tr: bool, u: bytes, mu: Schema)
    requires Within(a, 1, r) && Within(c, r, NO_LIMIT)
    requires u in Models(a + c) ==> Models(a + c)[u] == mu
    ensures var f := IndexOf(m, a + c, tr);
      MergedHolds(HoldsIn(f, u), r, true, 0) == BasedAll(mu, f.epoch, Holds(m, a, u))
  {
    hide *;
    IndexParts(m, a + c, tr);
    var f := IndexOf(m, a + c, tr);
    if u in Models(a + c) {
      StreamParts(m, a + c, u);
      HoldsAfter(m, a, c, u, r, NO_LIMIT);
      HoldsWithin(m, a, u, 1, r);
      var x := Holds(m, a, u);
      var y := Holds(m, a + c, u)[|x|..];
      assert Holds(m, a + c, u) == x + y;
      BasedSplit(mu, f.epoch, x, y);
      BasedOffsets(mu, f.epoch, x);
      BasedOffsets(mu, f.epoch, y);
      MergedHoldsSplit(BasedAll(mu, f.epoch, x), BasedAll(mu, f.epoch, y), r, 0);
      HoldsInKnown(f, u);
    } else {
      ModelsJoin(a, c);
      UnknownHasNothing(m, a, u);
      NoHolds(f, u, r, true, 0);
      assert BasedAll(mu, f.epoch, []) == [];
    }
  }

  lemma BasedOffsets(model: Schema, epoch: Option<int>, hs: seq<Restated>)
    ensures forall i :: 0 <= i < |hs| ==> BasedAll(model, epoch, hs)[i].offset == hs[i].offset
  {
  }

  lemma HoldsInKnown(f: File, u: bytes)
    requires u in f.streams
    ensures HoldsIn(f, u) == f.streams[u].holds
  {
  }

  lemma NoHolds(f: File, u: bytes, r: nat, side: bool, delta: int)
    requires u !in f.streams
    ensures HoldsIn(f, u) == [] && MergedHolds(HoldsIn(f, u), r, side, delta) == []
  {
  }

  lemma TailHolds(m: Meter, t: seq<Event>, r: nat, tr: bool, u: bytes, mu: Schema, delta: int)
    requires Within(t, r, NO_LIMIT)
    requires u in Models(t) ==> Models(t)[u] == mu
    ensures var f := IndexOf(m, t, tr);
      MergedHolds(HoldsIn(f, u), r, false, delta) == Nudged(BasedAll(mu, f.epoch, Holds(m, t, u)), delta)
  {
    hide *;
    IndexParts(m, t, tr);
    var f := IndexOf(m, t, tr);
    if u in Models(t) {
      StreamParts(m, t, u);
      HoldsWithin(m, t, u, r, NO_LIMIT);
      var y := BasedAll(mu, f.epoch, Holds(m, t, u));
      BasedOffsets(mu, f.epoch, Holds(m, t, u));
      MergedHoldsSplit([], y, r, delta);
      assert [] + y == y;
      HoldsInKnown(f, u);
    } else {
      UnknownHasNothing(m, t, u);
      NoHolds(f, u, r, false, delta);
      assert BasedAll(mu, f.epoch, []) == [];
      assert Nudged([], delta) == [];
    }
  }

  // --- agreement, piece by piece -------------------------------------------------------------------------

  predicate AnyTimed(ds: seq<DataFrame>) { exists i :: 0 <= i < |ds| && ds[i].time }

  lemma SameJoin<T>(x: seq<T>, y: seq<T>, p: seq<T>, q: seq<T>)
    requires |x| == |p|
    ensures x + y == p + q <==> x == p && y == q
  {
    if x + y == p + q {
      assert (x + y)[..|x|] == x && (p + q)[..|x|] == p;
      assert (x + y)[|x|..] == y && (p + q)[|x|..] == q;
    }
  }

  lemma MovedSame(ds: seq<DataFrame>, x: int, y: int)
    ensures MovedAll(ds, x) == MovedAll(ds, y) <==> (AnyTimed(ds) ==> x == y)
  {
    var p, q := MovedAll(ds, x), MovedAll(ds, y);
    if p == q && AnyTimed(ds) {
      var i :| 0 <= i < |ds| && ds[i].time;
      assert p[i].firstTick == q[i].firstTick;
    }
  }

  lemma MovedTwice(ds: seq<DataFrame>, x: int, y: int)
    ensures MovedAll(MovedAll(ds, x), y) == MovedAll(ds, x + y)
  {
  }

  lemma DataAgrees(x: seq<DataFrame>, y: seq<DataFrame>, oc: int, ot: int, delta: int, of: int)
    ensures MovedAll(x, -oc) + MovedAll(MovedAll(y, -ot), delta) == MovedAll(x + y, -of) <==>
      (AnyTimed(x) ==> oc == of) && (AnyTimed(y) ==> ot - delta == of)
  {
    hide *;
    MovedJoin(x, y, -of);
    MovedTwice(y, -ot, delta);
    MovedSame(x, -oc, -of);
    MovedSame(y, delta - ot, -of);
    SameJoin(MovedAll(x, -oc), MovedAll(y, delta - ot), MovedAll(x, -of), MovedAll(y, -of));
  }

  ghost predicate AxisIsTicks(hs: seq<Restated>) {
    forall i :: 0 <= i < |hs| ==> hs[i].axis == hs[i].ticks as real
  }

  lemma BasedSame(mu: Schema, hs: seq<Restated>, ec: Option<int>, ef: Option<int>)
    requires OnTime(mu) ==> AxisIsTicks(hs)
    ensures BasedAll(mu, ec, hs) == BasedAll(mu, ef, hs) <==> (OnTime(mu) && hs != [] ==> Origin(ec) == Origin(ef))
  {
    var p, q := BasedAll(mu, ec, hs), BasedAll(mu, ef, hs);
    hide OnTime;
    forall i | 0 <= i < |hs| ensures p[i] == Based(mu, ec, hs[i]) && q[i] == Based(mu, ef, hs[i]) { }
    if p == q && hs != [] { assert p[0].axis == q[0].axis; }
  }

  lemma NudgedSame(mu: Schema, hs: seq<Restated>, et: Option<int>, delta: int, ef: Option<int>)
    requires OnTime(mu) ==> AxisIsTicks(hs)
    ensures Nudged(BasedAll(mu, et, hs), delta) == BasedAll(mu, ef, hs) <==>
      (hs != [] ==> if OnTime(mu) then Origin(et) - delta == Origin(ef) else delta == 0)
  {
    var p, q := Nudged(BasedAll(mu, et, hs), delta), BasedAll(mu, ef, hs);
    hide OnTime;
    forall i | 0 <= i < |hs|
      ensures p[i] == Based(mu, et, hs[i]).(axis := Based(mu, et, hs[i]).axis + delta as real)
      ensures q[i] == Based(mu, ef, hs[i])
      ensures p[i].axis == if OnTime(mu) then (hs[i].ticks - Origin(et) + delta) as real else hs[i].axis + delta as real
      ensures q[i].axis == if OnTime(mu) then (hs[i].ticks - Origin(ef)) as real else hs[i].axis
    {
    }
    if p == q && hs != [] { assert p[0].axis == q[0].axis; }
  }

  lemma HoldsAgree(mu: Schema, x: seq<Restated>, y: seq<Restated>, ec: Option<int>, et: Option<int>, delta: int, ef: Option<int>)
    requires OnTime(mu) ==> AxisIsTicks(x) && AxisIsTicks(y)
    ensures BasedAll(mu, ec, x) + Nudged(BasedAll(mu, et, y), delta) == BasedAll(mu, ef, x + y) <==>
      (OnTime(mu) && x != [] ==> Origin(ec) == Origin(ef)) &&
      (y != [] ==> if OnTime(mu) then Origin(et) - delta == Origin(ef) else delta == 0)
  {
    hide *;
    BasedSplit(mu, ef, x, y);
    BasedSame(mu, x, ec, ef);
    NudgedSame(mu, y, et, delta, ef);
    SameJoin(BasedAll(mu, ec, x), Nudged(BasedAll(mu, et, y), delta), BasedAll(mu, ef, x), BasedAll(mu, ef, y));
  }

  // --- the whole ------------------------------------------------------------------------------------------

  /** A kept prefix and a tail that reads the cached rest again know the same
      streams, by the same models. */
  lemma ModelsMeet(m: Meter, a: seq<Event>, c: seq<Event>, t: seq<Event>, trC: bool, trT: bool)
    requires c <= t && SameModels(IndexOf(m, a + c, trC), IndexOf(m, t, trT))
    ensures Agree(Models(a), Models(t))
    ensures Models(a + t).Keys == Models(a + c).Keys + Models(t).Keys
    ensures forall u :: u in Models(a + c) ==> Models(a + c)[u] == Models(a + t)[u]
    ensures forall u :: u in Models(t) ==> Models(t)[u] == Models(a + t)[u]
  {
    hide *;
    forall u | u in Models(a + c) && u in Models(t) ensures Models(a + c)[u] == Models(t)[u] {
      IndexParts(m, a + c, trC);
      IndexParts(m, t, trT);
      StreamParts(m, a + c, u);
      StreamParts(m, t, u);
      SameModelsAt(IndexOf(m, a + c, trC), IndexOf(m, t, trT), u);
    }
    ModelsJoin(a, c);
    ModelsJoin(a, t);
    assert t[..|c|] == c;
    ModelsGrow(t, |c|);
    AgreeMake(Models(a), Models(t));
  }

  lemma SameModelsAt(f: File, g: File, u: bytes)
    requires SameModels(f, g) && u in f.streams && u in g.streams
    ensures f.streams[u].model == g.streams[u].model
  {
  }

  lemma AgreeMake(x: map<bytes, Schema>, y: map<bytes, Schema>)
    requires forall u :: u in x && u in y ==> x[u] == y[u]
    ensures Agree(x, y)
  {
  }

  lemma EpochsMeet(m: Meter, a: seq<Event>, c: seq<Event>, t: seq<Event>)
    requires c <= t
    ensures Earlier(Epoch(m, a + c), Epoch(m, t)) == Epoch(m, a + t)
  {
    hide Epoch;
    EpochJoin(m, a, c);
    EpochJoin(m, a, t);
    EpochJoin(m, c, t[|c|..]);
    assert c + t[|c|..] == t;
    EarlierTwice(Epoch(m, a), Epoch(m, c), Epoch(m, t[|c|..]));
  }

  lemma EarlierTwice(a: Option<int>, c: Option<int>, t: Option<int>)
    ensures Earlier(Earlier(a, c), Earlier(c, t)) == Earlier(a, Earlier(c, t))
  {
  }

  lemma ClosedMeet(a: seq<Event>, c: seq<Event>, t: seq<Event>)
    requires c <= t
    ensures Closed(a + t) == (Closed(a + c) || Closed(t))
  {
    if Closed(a + t) {
      var i :| 0 <= i < |a + t| && (a + t)[i].frame.typ == FRAME_END;
      if i < |a| { assert (a + c)[i] == a[i]; } else { assert t[i - |a|] == (a + t)[i]; }
    }
    if Closed(a + c) {
      var i :| 0 <= i < |a + c| && (a + c)[i].frame.typ == FRAME_END;
      assert (a + t)[i] == (a + c)[i];
    }
    if Closed(t) {
      var i :| 0 <= i < |t| && t[i].frame.typ == FRAME_END;
      assert (a + t)[|a| + i] == t[i];
    }
  }

  lemma SameOffsetsInOrder(x: seq<DataFrame>, y: seq<DataFrame>)
    requires InOrder(x) && |y| == |x| && forall i :: 0 <= i < |x| ==> y[i].ref.offset == x[i].ref.offset
    ensures InOrder(y)
  {
  }

  lemma MergedInOrder(m: Meter, a: seq<Event>, t: seq<Event>, oc: int, delta: int)
    requires OpensSegment(t) && Ordered(a + t)
    ensures InOrder(MovedAll(Data(m, a), -oc) + TailPart(m, a, t, delta))
    ensures |TailPart(m, a, t, delta)| == |Data(m, t)|
  {
    DataJoin(m, a, t);
    DataInOrder(m, a + t);
    hide Data;
    hide Epoch;
    SameOffsetsInOrder(Data(m, a + t), MovedAll(Data(m, a), -oc) + TailPart(m, a, t, delta));
  }

  lemma MergedStreamIs(m: Meter, a: seq<Event>, c: seq<Event>, t: seq<Event>, r: nat, trC: bool, trT: bool, u: bytes)
    requires Split(a, c, t, r) && SameModels(IndexOf(m, a + c, trC), IndexOf(m, t, trT)) && u in Models(a + t)
    ensures var cached, tail := IndexOf(m, a + c, trC), IndexOf(m, t, trT);
      (u in cached.streams || u in tail.streams) &&
      var mu := Models(a + t)[u];
      var fr := FramesFor(MergedData(cached, tail, r), u);
      MergedStream(cached, tail, r, u) ==
        Some(Stream(mu, Total(fr), fr, Rows(m, a + t, u),
          BasedAll(mu, cached.epoch, Holds(m, a, u)) + Nudged(BasedAll(mu, tail.epoch, Holds(m, t, u)), Delta(cached, tail))))
  {
    hide *;
    SplitCached(a, c, t, r);
    SplitTail(a, c, t, r);
    OrderedParts(a, t);
    IndexParts(m, a + c, trC);
    IndexParts(m, t, trT);
    var cached, tail := IndexOf(m, a + c, trC), IndexOf(m, t, trT);
    var mu := Models(a + t)[u];
    var delta := Delta(cached, tail);
    var x, y := KeptOf(cached, r), TailPart(m, a, t, delta);
    ModelsMeet(m, a, c, t, trC, trT);
    MergedDataIs(m, a, c, t, r, trC, trT);
    MergedInOrder(m, a, t, Origin(cached.epoch), delta);
    CachedSide(m, a, c, r, trC, u);
    TailPartIs(m, a, t, delta);
    TailSide(m, t, x, |Segments(a)|, delta, r, trT, u);
    CachedHolds(m, a, c, r, trC, u, mu);
    TailHolds(m, t, r, trT, u, mu, delta);
    RowsJoin(m, a, t, u);
    FramesForJoin(x, y, u);
    if u in Models(a + c) { StreamParts(m, a + c, u); }
    if u in Models(t) { StreamParts(m, t, u); }
    MergedStreamMake(cached, tail, r, u, mu, FramesFor(x, u), Rows(m, a, u), FramesFor(y, u), Rows(m, t, u));
  }

  lemma MergedStreamMake(cached: File, tail: File, r: nat, u: bytes, mu: Schema,
                         f: seq<DataFrame>, p: seq<seq<Stat>>, g: seq<DataFrame>, q: seq<seq<Stat>>)
    requires u in cached.streams || u in tail.streams
    requires mu == if u in cached.streams then cached.streams[u].model else tail.streams[u].model
    requires Side(cached, u, KeptOf(cached, r), 0, r) == Some(Attached(f, p))
    requires Side(tail, u, MergedData(cached, tail, r), r, NO_LIMIT) == Some(Attached(g, q))
    ensures MergedStream(cached, tail, r, u) ==
      Some(Stream(mu, Total(f + g), f + g, p + q,
        MergedHolds(HoldsIn(cached, u), r, true, 0) + MergedHolds(HoldsIn(tail, u), r, false, Delta(cached, tail))))
  {
    hide Side;
    hide MergedData;
    hide MergedHolds;
    hide KeptOf;
    hide Total;
    hide Delta;
  }

  /** The restatements of a stream agree with the whole file's. */
  ghost predicate HoldsMeet(m: Meter, a: seq<Event>, t: seq<Event>, ec: Option<int>, et: Option<int>, delta: int, ef: Option<int>, u: bytes)
    requires u in Models(a + t)
  {
    var timed := OnTime(Models(a + t)[u]);
    (timed && Holds(m, a, u) != [] ==> Origin(ec) == Origin(ef)) &&
    (Holds(m, t, u) != [] ==> if timed then Origin(et) - delta == Origin(ef) else delta == 0)
  }

  lemma StreamMeets(m: Meter, a: seq<Event>, c: seq<Event>, t: seq<Event>, r: nat, trC: bool, trT: bool, u: bytes)
    requires Split(a, c, t, r) && SameModels(IndexOf(m, a + c, trC), IndexOf(m, t, trT)) && u in Models(a + t)
    requires MergedData(IndexOf(m, a + c, trC), IndexOf(m, t, trT), r) == IndexOf(m, a + t, trT).data
    ensures var cached, tail := IndexOf(m, a + c, trC), IndexOf(m, t, trT);
      (u in cached.streams || u in tail.streams) &&
      (MergedStream(cached, tail, r, u) == Some(StreamOf(m, a + t, u)) <==>
        HoldsMeet(m, a, t, cached.epoch, tail.epoch, Delta(cached, tail), Epoch(m, a + t), u))
  {
    hide *;
    SplitTail(a, c, t, r);
    MergedStreamIs(m, a, c, t, r, trC, trT, u);
    IndexParts(m, a + t, trT);
    StreamParts(m, a + t, u);
    ModelsMeet(m, a, c, t, trC, trT);
    HoldsJoin(m, a, t, u);
    ModelsJoin(a, t);
    if u !in Models(a) { UnknownHasNothing(m, a, u); }
    if u !in Models(t) { UnknownHasNothing(m, t, u); }
    AxesAreTicks(m, a, t, u);
    var cached, tail := IndexOf(m, a + c, trC), IndexOf(m, t, trT);
    HoldsAgree(Models(a + t)[u], Holds(m, a, u), Holds(m, t, u), cached.epoch, tail.epoch, Delta(cached, tail), Epoch(m, a + t));
    HoldsMeetIs(m, a, t, cached.epoch, tail.epoch, Delta(cached, tail), Epoch(m, a + t), u);
  }

  lemma HoldsMeetIs(m: Meter, a: seq<Event>, t: seq<Event>, ec: Option<int>, et: Option<int>, delta: int, ef: Option<int>, u: bytes)
    requires u in Models(a + t)
    ensures HoldsMeet(m, a, t, ec, et, delta, ef, u) <==>
      (OnTime(Models(a + t)[u]) && Holds(m, a, u) != [] ==> Origin(ec) == Origin(ef)) &&
      (Holds(m, t, u) != [] ==> if OnTime(Models(a + t)[u]) then Origin(et) - delta == Origin(ef) else delta == 0)
  {
    hide Holds;
    hide Models;
    hide OnTime;
    hide Origin;
  }

  lemma AxesAreTicks(m: Meter, a: seq<Event>, t: seq<Event>, u: bytes)
    requires u in Models(a + t) && Agree(Models(a), Models(t))
    ensures OnTime(Models(a + t)[u]) ==> AxisIsTicks(Holds(m, a, u)) && AxisIsTicks(Holds(m, t, u))
  {
    ModelsJoin(a, t);
    hide Models;
    if OnTime(Models(a + t)[u]) {
      if u in Models(a) { HoldsTicks(m, a, u); } else { UnknownHasNothing(m, a, u); }
      if u in Models(t) { HoldsTicks(m, t, u); } else { UnknownHasNothing(m, t, u); }
    }
    hide Holds;
  }

  lemma OriginsMeet(cached: File, tail: File)
    ensures Origin(tail.epoch) - Delta(cached, tail) == Origin(Earlier(cached.epoch, tail.epoch)) <==>
      tail.epoch.Some? || Origin(Earlier(cached.epoch, tail.epoch)) == 0
  {
  }

  lemma DataMeets(m: Meter, a: seq<Event>, c: seq<Event>, t: seq<Event>, r: nat, trC: bool, trT: bool)
    requires Split(a, c, t, r)
    ensures var cached, tail := IndexOf(m, a + c, trC), IndexOf(m, t, trT);
      var ef := Epoch(m, a + t);
      MergedData(cached, tail, r) == IndexOf(m, a + t, trT).data <==>
        (AnyTimed(Data(m, a)) ==> Origin(cached.epoch) == Origin(ef)) &&
        (AnyTimed(Data(m, t)) ==> Origin(tail.epoch) - Delta(cached, tail) == Origin(ef))
  {
    hide *;
    SplitTail(a, c, t, r);
    MergedDataIs(m, a, c, t, r, trC, trT);
    var cached, tail := IndexOf(m, a + c, trC), IndexOf(m, t, trT);
    IndexParts(m, a + t, trT);
    IndexParts(m, t, trT);
    DataJoin(m, a, t);
    var n, delta, ot := |Segments(a)|, Delta(cached, tail), Origin(tail.epoch);
    TailPartIs(m, a, t, delta);
    PlacedMoved(Data(m, t), n, -ot);
    DataAgrees(Data(m, a), Placed(Data(m, t), n), Origin(cached.epoch), ot, delta, Origin(Epoch(m, a + t)));
    PlacedTimed(Data(m, t), n);
  }

  lemma PlacedTimed(ds: seq<DataFrame>, n: nat)
    ensures AnyTimed(Placed(ds, n)) <==> AnyTimed(ds)
  {
    if AnyTimed(ds) {
      var i :| 0 <= i < |ds| && ds[i].time;
      assert Placed(ds, n)[i].time;
    }
  }

  lemma MergedFromStreams(cached: File, tail: File, r: nat, streams: map<bytes, Stream>)
    requires streams.Keys == cached.streams.Keys + tail.streams.Keys
    requires forall u :: u in streams ==> MergedStream(cached, tail, r, u) == Some(streams[u])
    ensures Merged(cached, tail, r).Some? && Merged(cached, tail, r).value.streams == streams
  {
    hide MergedStream;
    hide MergedData;
    hide KeptSegments;
    hide Earlier;
    var us := cached.streams.Keys + tail.streams.Keys;
    assert forall u :: u in us ==> u in streams;
  }

  /** Two files are the same when their parts are. */
  lemma MergedByParts(cached: File, tail: File, r: nat, full: File)
    requires full.segments == KeptSegments(cached.segments, r) + Renumbered(tail.segments, |KeptSegments(cached.segments, r)|)
    requires full.epoch == Earlier(cached.epoch, tail.epoch)
    requires full.truncated == tail.truncated && full.closed == (cached.closed || tail.closed)
    requires full.streams.Keys == cached.streams.Keys + tail.streams.Keys
    ensures Merged(cached, tail, r) == Some(full) <==>
      MergedData(cached, tail, r) == full.data &&
      forall u :: u in full.streams ==> MergedStream(cached, tail, r, u) == Some(full.streams[u])
  {
    hide MergedStream;
    hide MergedData;
    hide KeptSegments;
    hide Earlier;
    if Merged(cached, tail, r) == Some(full) {
      forall u | u in full.streams ensures MergedStream(cached, tail, r, u) == Some(full.streams[u]) {
        assert u in cached.streams.Keys + tail.streams.Keys;
      }
    }
    if MergedData(cached, tail, r) == full.data &&
       forall u :: u in full.streams ==> MergedStream(cached, tail, r, u) == Some(full.streams[u]) {
      MergedFromStreams(cached, tail, r, full.streams);
    }
  }

  /** All that must hold for the merged index to be the whole file's. */
  ghost predicate AllMeet(m: Meter, a: seq<Event>, t: seq<Event>, ec: Option<int>, et: Option<int>, delta: int, ef: Option<int>) {
    (AnyTimed(Data(m, a)) ==> Origin(ec) == Origin(ef)) &&
    (AnyTimed(Data(m, t)) ==> Origin(et) - delta == Origin(ef)) &&
    forall u :: u in Models(a + t) ==> HoldsMeet(m, a, t, ec, et, delta, ef, u)
  }

  lemma MergedMeets(m: Meter, a: seq<Event>, c: seq<Event>, t: seq<Event>, r: nat, trC: bool, trT: bool)
    requires Split(a, c, t, r) && SameModels(IndexOf(m, a + c, trC), IndexOf(m, t, trT))
    ensures var cached, tail := IndexOf(m, a + c, trC), IndexOf(m, t, trT);
      Merged(cached, tail, r) == Some(IndexOf(m, a + t, trT)) <==>
        AllMeet(m, a, t, cached.epoch, tail.epoch, Delta(cached, tail), Epoch(m, a + t))
    ensures Epoch(m, a + t) == Earlier(IndexOf(m, a + c, trC).epoch, IndexOf(m, t, trT).epoch)
  {
    hide *;
    SplitTail(a, c, t, r);
    var cached, tail, full := IndexOf(m, a + c, trC), IndexOf(m, t, trT), IndexOf(m, a + t, trT);
    IndexParts(m, a + c, trC);
    IndexParts(m, t, trT);
    IndexParts(m, a + t, trT);
    MergedDataIs(m, a, c, t, r, trC, trT);
    SegmentsJoin(a, t);
    EpochsMeet(m, a, c, t);
    ClosedMeet(a, c, t);
    ModelsMeet(m, a, c, t, trC, trT);
    MergedByParts(cached, tail, r, full);
    DataMeets(m, a, c, t, r, trC, trT);
    if MergedData(cached, tail, r) == full.data {
      forall u | u in Models(a + t)
        ensures MergedStream(cached, tail, r, u) == Some(full.streams[u]) <==>
          HoldsMeet(m, a, t, cached.epoch, tail.epoch, Delta(cached, tail), Epoch(m, a + t), u)
      {
        StreamMeets(m, a, c, t, r, trC, trT, u);
      }
    }
    AllMeetIs(m, a, t, cached.epoch, tail.epoch, Delta(cached, tail), Epoch(m, a + t));
  }

  lemma AllMeetIs(m: Meter, a: seq<Event>, t: seq<Event>, ec: Option<int>, et: Option<int>, delta: int, ef: Option<int>)
    ensures AllMeet(m, a, t, ec, et, delta, ef) <==>
      (AnyTimed(Data(m, a)) ==> Origin(ec) == Origin(ef)) &&
      (AnyTimed(Data(m, t)) ==> Origin(et) - delta == Origin(ef)) &&
      forall u :: u in Models(a + t) ==> HoldsMeet(m, a, t, ec, et, delta, ef, u)
  {
    hide Data;
    hide Models;
    hide HoldsMeet;
  }

  /** What stands on time among kept events, and among the tail's. */
  ghost predicate TimedIn(m: Meter, evs: seq<Event>, ms: map<bytes, Schema>) {
    AnyTimed(Data(m, evs)) || exists u :: u in ms && OnTime(ms[u]) && Holds(m, evs, u) != []
  }

  lemma KeptTimedIs(m: Meter, a: seq<Event>, c: seq<Event>, t: seq<Event>, r: nat, trC: bool)
    requires Split(a, c, t, r)
    requires forall u :: u in Models(a + c) ==> u in Models(a + t) && Models(a + c)[u] == Models(a + t)[u]
    ensures KeptTimed(IndexOf(m, a + c, trC), r) <==> TimedIn(m, a, Models(a + t))
  {
    hide *;
    SplitCached(a, c, t, r);
    var f := IndexOf(m, a + c, trC);
    var o := -Origin(f.epoch);
    IndexParts(m, a + c, trC);
    KeptDataIs(m, a, c, r, o);
    OffsetsOf(m, a, o, 1, r);
    OffsetsOf(m, c, o, r, NO_LIMIT);
    KeptFramesTimed(Data(m, a), Placed(MovedAll(Data(m, c), o), |Segments(a)|), o, r);
    forall u | u in Models(a + c)
      ensures (exists i :: 0 <= i < |f.streams[u].holds| && f.streams[u].holds[i].offset < r) <==> Holds(m, a, u) != []
    {
      StreamParts(m, a + c, u);
      HoldsAfter(m, a, c, u, r, NO_LIMIT);
      HoldsWithin(m, a, u, 1, r);
      BasedOffsets(Models(a + c)[u], f.epoch, Holds(m, a + c, u));
      SomeBefore(f.streams[u].holds, Holds(m, a, u), Holds(m, a + c, u), r);
    }
    forall u | u in Models(a + t) && u !in Models(a + c) ensures Holds(m, a, u) == [] {
      ModelsJoin(a, c);
      UnknownHasNothing(m, a, u);
    }
    forall u | u in Models(a + c) ensures f.streams[u].model == Models(a + c)[u] { StreamParts(m, a + c, u); }
    KeptTimedUnfold(f, r);
    TimedUnfold(m, a, Models(a + t));
  }

  lemma KeptTimedUnfold(f: File, r: nat)
    ensures KeptTimed(f, r) <==>
      (exists i :: 0 <= i < |f.data| && f.data[i].time && f.data[i].ref.offset < r) ||
      (exists u :: u in f.streams && OnTime(f.streams[u].model) &&
        exists i :: 0 <= i < |f.streams[u].holds| && f.streams[u].holds[i].offset < r)
  {
    hide OnTime;
  }

  lemma TimedUnfold(m: Meter, evs: seq<Event>, ms: map<bytes, Schema>)
    ensures TimedIn(m, evs, ms) <==>
      AnyTimed(Data(m, evs)) || exists u :: u in ms && OnTime(ms[u]) && Holds(m, evs, u) != []
  {
    hide Data;
    hide Holds;
    hide OnTime;
  }

  lemma KeptFramesTimed(x: seq<DataFrame>, y: seq<DataFrame>, delta: int, r: nat)
    requires forall i :: 0 <= i < |x| ==> MovedAll(x, delta)[i].ref.offset < r
    requires forall i :: 0 <= i < |y| ==> y[i].ref.offset >= r
    ensures var ds := MovedAll(x, delta) + y;
      (exists i :: 0 <= i < |ds| && ds[i].time && ds[i].ref.offset < r) <==> AnyTimed(x)
  {
    var ds := MovedAll(x, delta) + y;
    if AnyTimed(x) {
      var i :| 0 <= i < |x| && x[i].time;
      assert ds[i] == Moved(x[i], delta);
    }
    if i :| 0 <= i < |ds| && ds[i].time && ds[i].ref.offset < r {
      assert i < |x|;
      assert x[i].time;
    }
  }

  lemma SomeBefore(hs: seq<Restated>, x: seq<Restated>, all: seq<Restated>, r: nat)
    requires x <= all && |hs| == |all|
    requires forall i :: 0 <= i < |all| ==> hs[i].offset == all[i].offset
    requires forall i :: 0 <= i < |x| ==> x[i].offset < r
    requires forall i :: |x| <= i < |all| ==> all[i].offset >= r
    ensures (exists i :: 0 <= i < |hs| && hs[i].offset < r) <==> x != []
  {
    if x != [] { assert hs[0].offset == all[0].offset == x[0].offset; }
  }

  lemma TailTimedIs(m: Meter, t: seq<Event>, tr: bool, ms: map<bytes, Schema>)
    requires forall u :: u in Models(t) ==> u in ms && Models(t)[u] == ms[u]
    ensures TailTimed(IndexOf(m, t, tr)) <==> TimedIn(m, t, ms)
    ensures TailPlain(IndexOf(m, t, tr)) <==> exists u :: u in ms && !OnTime(ms[u]) && Holds(m, t, u) != []
  {
    hide *;
    var f := IndexOf(m, t, tr);
    IndexParts(m, t, tr);
    MovedTimed(Data(m, t), -Origin(f.epoch));
    forall u | u in Models(t)
      ensures f.streams[u].model == Models(t)[u] && (f.streams[u].holds != [] <==> Holds(m, t, u) != [])
    {
      StreamParts(m, t, u);
      BasedOffsets(Models(t)[u], f.epoch, Holds(m, t, u));
    }
    forall u | u in ms && u !in Models(t) ensures Holds(m, t, u) == [] { UnknownHasNothing(m, t, u); }
    TailUnfold(f);
    TimedUnfold(m, t, ms);
  }

  lemma MovedTimed(ds: seq<DataFrame>, delta: int)
    ensures AnyTimed(MovedAll(ds, delta)) <==> AnyTimed(ds)
  {
    if AnyTimed(ds) {
      var i :| 0 <= i < |ds| && ds[i].time;
      assert MovedAll(ds, delta)[i].time;
    }
  }

  lemma TailUnfold(f: File)
    ensures TailTimed(f) <==>
      AnyTimed(f.data) || exists u :: u in f.streams && OnTime(f.streams[u].model) && f.streams[u].holds != []
    ensures TailPlain(f) <==> exists u :: u in f.streams && !OnTime(f.streams[u].model) && f.streams[u].holds != []
  {
    hide OnTime;
  }

  /** The merged index is the whole file's exactly when the epochs agree. */
  lemma MergedIsWhole(m: Meter, a: seq<Event>, c: seq<Event>, t: seq<Event>, r: nat, trC: bool, trT: bool)
    requires Split(a, c, t, r) && SameModels(IndexOf(m, a + c, trC), IndexOf(m, t, trT))
    ensures var cached, tail := IndexOf(m, a + c, trC), IndexOf(m, t, trT);
      Merged(cached, tail, r) == Some(IndexOf(m, a + t, trT)) <==> EpochsAgree(cached, tail, r)
  {
    hide *;
    var cached, tail := IndexOf(m, a + c, trC), IndexOf(m, t, trT);
    SplitTail(a, c, t, r);
    MergedMeets(m, a, c, t, r, trC, trT);
    ModelsMeet(m, a, c, t, trC, trT);
    KeptTimedIs(m, a, c, t, r, trC);
    TailTimedIs(m, t, trT, Models(a + t));
    OriginsMeet(cached, tail);
    TimedUnfold(m, a, Models(a + t));
    TimedUnfold(m, t, Models(a + t));
    AllMeetIs(m, a, t, cached.epoch, tail.epoch, Delta(cached, tail), Epoch(m, a + t));
    forall u | u in Models(a + t)
      ensures HoldsMeet(m, a, t, cached.epoch, tail.epoch, Delta(cached, tail), Epoch(m, a + t), u) <==>
        (OnTime(Models(a + t)[u]) && Holds(m, a, u) != [] ==> Origin(cached.epoch) == Origin(Epoch(m, a + t))) &&
        (Holds(m, t, u) != [] ==>
          if OnTime(Models(a + t)[u]) then Origin(tail.epoch) - Delta(cached, tail) == Origin(Epoch(m, a + t))
          else Delta(cached, tail) == 0)
    {
      HoldsMeetIs(m, a, t, cached.epoch, tail.epoch, Delta(cached, tail), Epoch(m, a + t), u);
    }
    EpochsAgreeIs(cached, tail, r);
  }

  lemma EpochsAgreeIs(cached: File, tail: File, r: nat)
    ensures var e := Earlier(cached.epoch, tail.epoch);
      EpochsAgree(cached, tail, r) <==>
        (KeptTimed(cached, r) ==> Origin(cached.epoch) == Origin(e)) &&
        (TailTimed(tail) ==> tail.epoch.Some? || Origin(e) == 0) &&
        (TailPlain(tail) ==> Delta(cached, tail) == 0)
  {
    hide KeptTimed;
    hide TailTimed;
    hide TailPlain;
    hide Delta;
  }
}
