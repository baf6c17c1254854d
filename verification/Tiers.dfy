/** A chart's two sources: the samples, and the summaries made while indexing. What
    the summaries draw contains what the samples would. */
module Tiers {
  import opened Bytes
  import opened Format
  import opened Records
  import opened Reading
  import opened Frames
  import opened Stats
  import opened Indexing
  import opened Joining
  import opened Query
  import opened Paging
  import opened Buckets
  import D = Decimate
  import Access
  import Merging
  import Resuming

  // --- the samples ------------------------------------------------------------------------------------

  /** A record as a sample of one field, if it stands anywhere. */
  function SampleAt(m: Meter, model: Schema, f: nat, b: Batch, i: nat, time: bool, epoch: int): seq<D.Sample>
    requires f < |model.fields|
  {
    match Axis(m, b, i)
    case None => []
    case Some(v) => [D.Sample(if time then (Ticks(v) - epoch) as real else m.float(v), Number(m, model, b, i, f))]
  }

  function BatchSeries(m: Meter, model: Schema, f: nat, b: Batch, n: nat, time: bool, epoch: int): seq<D.Sample>
    requires f < |model.fields|
  {
    if n == 0 then []
    else BatchSeries(m, model, f, b, n - 1, time, epoch) + SampleAt(m, model, f, b, n - 1, time, epoch)
  }

  function Series(m: Meter, model: Schema, f: nat, bs: seq<Batch>, time: bool, epoch: int): seq<D.Sample>
    requires f < |model.fields|
  {
    if bs == [] then []
    else
      var n := |bs| - 1;
      Series(m, model, f, bs[..n], time, epoch) + BatchSeries(m, model, f, bs[n], bs[n].count, time, epoch)
  }

  /** The axis of a series is its first batch's. */
  predicate OnTicks(bs: seq<Batch>) { bs != [] && bs[0].schema.axisKind == AXIS_TIME }

  predicate OneKind(bs: seq<Batch>) { forall k :: 0 <= k < |bs| ==> bs[k].schema.axisKind == bs[0].schema.axisKind }

  method SeriesFrom(m: Meter, model: Schema, f: nat, bs: seq<Batch>, epoch: int) returns (s: seq<D.Sample>)
    requires f < |model.fields|
    ensures s == Series(m, model, f, bs, OnTicks(bs), epoch)
  {
    hide Axis;
    hide Number;
    s := [];
    if bs == [] { return; }
    var time := bs[0].schema.axisKind == AXIS_TIME;
    for k := 0 to |bs|
      invariant s == Series(m, model, f, bs[..k], time, epoch)
    {
      var b := bs[k];
      ghost var was := s;
      assert bs[..k + 1][..k] == bs[..k];
      assert was + [] == was;
      for i := 0 to b.count
        invariant s == was + BatchSeries(m, model, f, b, i, time, epoch)
      {
        var av := Axis(m, b, i);
        ghost var so := BatchSeries(m, model, f, b, i, time, epoch);
        ghost var here := SampleAt(m, model, f, b, i, time, epoch);
        assert (was + so) + here == was + (so + here);
        if av == None {
          assert so + [] == so;
          continue;
        }
        s := s + [D.Sample(if time then (Ticks(av.value) - epoch) as real else m.float(av.value), Number(m, model, b, i, f))];
      }
    }
    assert bs[..|bs|] == bs;
  }

  /** `a` is a record of one of the batches. */
  ghost predicate From(m: Meter, model: Schema, f: nat, b: Batch, i: nat, time: bool, epoch: int, a: D.Sample)
    requires f < |model.fields|
  {
    i < b.count && SampleAt(m, model, f, b, i, time, epoch) == [a]
  }

  lemma {:induction false} BatchSample(m: Meter, model: Schema, f: nat, b: Batch, n: nat, time: bool, epoch: int, a: D.Sample) returns (i: nat)
    requires f < |model.fields| && n <= b.count && a in BatchSeries(m, model, f, b, n, time, epoch)
    ensures From(m, model, f, b, i, time, epoch, a)
  {
    hide Axis;
    hide Number;
    if a in BatchSeries(m, model, f, b, n - 1, time, epoch) {
      i := BatchSample(m, model, f, b, n - 1, time, epoch, a);
    } else {
      i := n - 1;
    }
  }

  lemma {:induction false} SeriesSample(m: Meter, model: Schema, f: nat, bs: seq<Batch>, time: bool, epoch: int, a: D.Sample)
    returns (k: nat, i: nat)
    requires f < |model.fields| && a in Series(m, model, f, bs, time, epoch)
    ensures k < |bs| && From(m, model, f, bs[k], i, time, epoch, a)
    decreases |bs|
  {
    hide From;
    hide BatchSeries;
    var n := |bs| - 1;
    if a in Series(m, model, f, bs[..n], time, epoch) {
      k, i := SeriesSample(m, model, f, bs[..n], time, epoch, a);
    } else {
      k := n;
      i := BatchSample(m, model, f, bs[n], bs[n].count, time, epoch, a);
    }
  }

  // --- the summaries -------------------------------------------------------------------------------------

  /** A field whose samples are summarised. */
  predicate Plotted(model: Schema, f: nat) {
    f < |model.fields| && !IsAxis(model, f) && (Classify(model.fields[f]).Numeric? || Classify(model.fields[f]).Categorical?)
  }

  function Summary(m: Meter, f: DataFrame, s: Stat): D.FrameStat {
    D.FrameStat(First(m, f), Final(m, f),
      match s.bounds case None => None case Some(b) => Some(b.min),
      match s.bounds case None => None case Some(b) => Some(b.max), s.nPresent,
      match s.bounds case None => None case Some(b) => Some(b.first), s.distinct)
  }

  lemma {:induction false} SampleIn(m: Meter, model: Schema, b: Batch, f: nat, n: nat, i: nat, v: real)
    requires f < |model.fields| && i < n && Number(m, model, b, i, f) == Some(v)
    ensures v in Stats.Samples(m, model, b, f, n)
  {
    hide Number;
    if i < n - 1 { SampleIn(m, model, b, f, n - 1, i, v); }
  }

  lemma {:induction false} SamplesCount(m: Meter, model: Schema, b: Batch, f: nat, n: nat)
    requires f < |model.fields|
    ensures |Stats.Samples(m, model, b, f, n)| <= n
  {
    hide Number;
    if n > 0 { SamplesCount(m, model, b, f, n - 1); }
  }

  /** A frame's summary bounds each of its samples. */
  lemma SummaryBounds(m: Meter, model: Schema, b: Batch, f: nat, i: nat, v: real)
    requires Plotted(model, f) && i < b.count && Number(m, model, b, i, f) == Some(v)
    ensures var s := FieldStat(m, model, b, f, b.count);
      s.bounds.Some? && s.bounds.value.min <= v <= s.bounds.value.max && s.nPresent > 0
  {
    SampleIn(m, model, b, f, b.count, i, v);
    hide Number;
    hide Classify;
    PlottedStat(m, model, b, f);
    hide FieldStat;
    hide Stats.Samples;
    StatIsSummary(Stats.Samples(m, model, b, f, b.count));
    hide StatOf;
  }

  lemma PlottedStat(m: Meter, model: Schema, b: Batch, f: nat)
    requires Plotted(model, f)
    ensures FieldStat(m, model, b, f, b.count) == StatOf(Stats.Samples(m, model, b, f, b.count))
  {
  }

  /** What the index says of the frames is what their records say. */
  ghost predicate Summarised(m: Meter, model: Schema, f: nat, fs: seq<DataFrame>, bs: seq<Batch>, stats: seq<D.FrameStat>)
    requires f < |model.fields|
  {
    |stats| == |fs| == |bs| &&
    forall k :: 0 <= k < |fs| ==> SummarisedAt(m, model, f, fs[k], bs[k], stats[k])
  }

  ghost predicate SummarisedAt(m: Meter, model: Schema, f: nat, d: DataFrame, b: Batch, s: D.FrameStat)
    requires f < |model.fields|
  {
    s == Summary(m, d, FieldStat(m, model, b, f, b.count))
  }

  /** Every present sample in the window is in a bucket the summaries populate, and
      within that bucket's bounds. */
  lemma SampleCovered(lg: Logs, m: Meter, model: Schema, f: nat, fs: seq<DataFrame>, bs: seq<Batch>, epoch: int,
                      stats: seq<D.FrameStat>, p: Pos, e: D.Envelope, a: D.Sample)
    requires LogLaws(lg) && Usable(lg, p) && f < |model.fields| && Plotted(model, f)
    requires AllStraight(m, fs, bs, epoch) && OneKind(bs) && Summarised(m, model, f, fs, bs, stats)
    requires D.Enveloped(lg, p, e, stats)
    requires a in Series(m, model, f, bs, OnTicks(bs), epoch) && D.In(a, p.from, p.to) && a.v.Some?
    ensures var b := Bucket(lg, p, a.x);
      0 <= b < p.buckets && |e.n| == |e.min| == |e.max| == p.buckets &&
      e.n[b] > 0 && e.min[b].Some? && e.max[b].Some? && e.min[b].value <= a.v.value <= e.max[b].value
  {
    hide *;
    var k, i := SeriesSample(m, model, f, bs, OnTicks(bs), epoch, a);
    RecordHere(m, model, f, fs, bs, epoch, stats, k, i, a);
    CoveredBy(lg, p, e, stats, stats[k], a);
  }

  lemma RecordHere(m: Meter, model: Schema, f: nat, fs: seq<DataFrame>, bs: seq<Batch>, epoch: int,
                   stats: seq<D.FrameStat>, k: nat, i: nat, a: D.Sample)
    requires Plotted(model, f) && AllStraight(m, fs, bs, epoch) && OneKind(bs) && Summarised(m, model, f, fs, bs, stats)
    requires k < |bs| && From(m, model, f, bs[k], i, OnTicks(bs), epoch, a) && a.v.Some?
    ensures k < |stats| && stats[k].first <= a.x <= stats[k].last && stats[k].nPresent > 0
    ensures stats[k].min.Some? && stats[k].max.Some? && stats[k].min.value <= a.v.value <= stats[k].max.value
  {
    assert SummarisedAt(m, model, f, fs[k], bs[k], stats[k]);
    assert Straight(m, fs[k], bs[k], epoch);
    assert Between(m, fs[k], bs[k], i, epoch);
    hide Plotted;
    hide FieldStat;
    hide Number;
    hide Axis;
    SummaryBounds(m, model, bs[k], f, i, a.v.value);
  }

  lemma CoveredBy(lg: Logs, p: Pos, e: D.Envelope, stats: seq<D.FrameStat>, s: D.FrameStat, a: D.Sample)
    requires LogLaws(lg) && Usable(lg, p) && D.Enveloped(lg, p, e, stats) && s in stats
    requires D.In(a, p.from, p.to) && a.v.Some? && s.first <= a.x <= s.last && s.nPresent > 0
    requires s.min.Some? && s.max.Some? && s.min.value <= a.v.value <= s.max.value
    ensures var b := Bucket(lg, p, a.x);
      0 <= b < p.buckets && |e.n| == |e.min| == |e.max| == p.buckets &&
      e.n[b] > 0 && e.min[b].Some? && e.max[b].Some? && e.min[b].value <= a.v.value <= e.max[b].value
  {
    hide LogLaws;
    hide Bucket;
    hide D.Spans;
    D.SpanCovers(lg, p, s, a.x);
    var b := Bucket(lg, p, a.x);
    D.OverIs(lg, p, stats, b, s);
    hide D.Over;
    hide D.Samples;
    assert D.Widest(e.n[b], e.min[b], e.max[b], D.Over(lg, p, stats, b));
  }

  /** The tiers agree: whatever bucket the samples populate, the summaries populate,
      with bounds at least as wide. */
  lemma TierSound(lg: Logs, m: Meter, model: Schema, f: nat, fs: seq<DataFrame>, bs: seq<Batch>, epoch: int,
                  stats: seq<D.FrameStat>, p: Pos, exact: D.Envelope, e: D.Envelope, b: nat)
    requires LogLaws(lg) && Usable(lg, p) && f < |model.fields| && Plotted(model, f)
    requires AllStraight(m, fs, bs, epoch) && OneKind(bs) && Summarised(m, model, f, fs, bs, stats)
    requires D.Enveloped(lg, p, e, stats)
    requires D.Bucketed(lg, p, exact, D.Window(Series(m, model, f, bs, OnTicks(bs), epoch), p.from, p.to))
    requires b < p.buckets && |exact.n| == p.buckets && exact.n[b] > 0
    ensures Wider(e, exact, b)
  {
    hide *;
    var s := Series(m, model, f, bs, OnTicks(bs), epoch);
    var w := D.Window(s, p.from, p.to);
    var lo, hi := BucketEnds(lg, p, exact, w, b);
    WindowOf(s, p.from, p.to, lo);
    WindowOf(s, p.from, p.to, hi);
    SampleCovered(lg, m, model, f, fs, bs, epoch, stats, p, e, lo);
    SampleCovered(lg, m, model, f, fs, bs, epoch, stats, p, e, hi);
    WiderIs(e, exact, b, lo.v.value, hi.v.value);
  }

  predicate Wider(e: D.Envelope, exact: D.Envelope, b: nat) {
    b < |e.n| && |e.n| == |e.min| == |e.max| == |exact.n| == |exact.min| == |exact.max| &&
    e.n[b] > 0 && e.min[b].Some? && e.max[b].Some? && exact.min[b].Some? && exact.max[b].Some? &&
    e.min[b].value <= exact.min[b].value && exact.max[b].value <= e.max[b].value
  }

  lemma WiderIs(e: D.Envelope, exact: D.Envelope, b: nat, lo: real, hi: real)
    requires b < |e.n| && |e.n| == |e.min| == |e.max| == |exact.n| == |exact.min| == |exact.max|
    requires e.n[b] > 0 && e.min[b].Some? && e.max[b].Some? && e.min[b].value <= lo && hi <= e.max[b].value
    requires exact.min[b] == Some(lo) && exact.max[b] == Some(hi)
    ensures Wider(e, exact, b)
  {
  }

  /** The samples a bucket's bounds come from. */
  lemma BucketEnds(lg: Logs, p: Pos, exact: D.Envelope, w: seq<D.Sample>, b: nat) returns (lo: D.Sample, hi: D.Sample)
    requires Usable(lg, p) && D.Bucketed(lg, p, exact, w) && b < p.buckets && |exact.n| == p.buckets && exact.n[b] > 0
    ensures lo in w && lo.v.Some? && Bucket(lg, p, lo.x) == b && hi in w && hi.v.Some? && Bucket(lg, p, hi.x) == b
    ensures |exact.min| == |exact.max| == p.buckets && exact.min[b] == lo.v && exact.max[b] == hi.v
  {
    hide Bucket;
    hide D.InBucket;
    assert D.Reduced(exact.n[b], exact.min[b], exact.max[b], D.InBucket(lg, p, w, b));
    lo := BucketSample(lg, p, w, b, exact.min[b].value);
    hi := BucketSample(lg, p, w, b, exact.max[b].value);
  }

  lemma {:induction false} BucketSample(lg: Logs, p: Pos, w: seq<D.Sample>, b: nat, v: real) returns (a: D.Sample)
    requires Usable(lg, p) && v in D.InBucket(lg, p, w, b)
    ensures a in w && a.v == Some(v) && Bucket(lg, p, a.x) == b
  {
    hide Bucket;
    var n := |w| - 1;
    if v in D.InBucket(lg, p, w[..n], b) {
      a := BucketSample(lg, p, w[..n], b, v);
    } else {
      a := w[n];
    }
  }

  lemma {:induction false} WindowOf(s: seq<D.Sample>, from: real, to: real, a: D.Sample)
    requires a in D.Window(s, from, to)
    ensures a in s && D.In(a, from, to)
  {
    var n := |s| - 1;
    if a in D.Window(s[..n], from, to) { WindowOf(s[..n], from, to, a); }
  }

  // --- from the index -----------------------------------------------------------------------------------------

  /** A row of a stream's summaries is of its frame. */
  ghost predicate RowIs(m: Meter, evs: seq<Event>, model: Schema, d: DataFrame, row: seq<Stat>, i: nat, k: nat) {
    i < |evs| && evs[i].out.Records? && d == FrameOf(m, evs[i], k) && row == StatRow(m, model, evs[i].out.batch)
  }

  ghost predicate RowsAre(m: Meter, evs: seq<Event>, model: Schema, ds: seq<DataFrame>, rows: seq<seq<Stat>>) {
    |rows| == |ds| && forall q :: 0 <= q < |rows| ==> RowHas(m, evs, model, ds[q], rows[q])
  }

  ghost predicate RowHas(m: Meter, evs: seq<Event>, model: Schema, d: DataFrame, row: seq<Stat>) {
    exists i: nat, k: nat :: RowIs(m, evs, model, d, row, i, k)
  }

  lemma {:induction false} StreamRows(m: Meter, evs: seq<Event>, u: bytes)
    requires u in Models(evs)
    ensures RowsAre(m, evs, Models(evs)[u], FramesFor(Data(m, evs), u), Rows(m, evs, u))
    decreases |evs|
  {
    hide RowsAre;
    hide Data;
    hide FramesFor;
    hide FrameOf;
    hide StatRow;
    hide Segments;
    var pre := Init(evs);
    var model := Models(evs)[u];
    if u in Models(pre) {
      StreamRows(m, pre, u);
      ModelStays(evs, u);
    } else {
      NoRows(m, pre, u);
      NoRowsAre(m, pre, model);
    }
    DataNext(m, evs, u);
    RowsNext(m, evs, u);
    hide Models;
    var ds, rows := FramesFor(Data(m, pre), u), Rows(m, pre, u);
    if IsOf(Last(evs), u) {
      RowsAdd(m, evs, model, ds, rows, |Segments(evs)| - 1);
    } else {
      RowsKeep(m, evs, model, ds, rows);
      assert rows + [] == rows;
    }
  }

  lemma NoRowsAre(m: Meter, evs: seq<Event>, model: Schema)
    ensures RowsAre(m, evs, model, [], [])
  {
  }

  lemma RowsKeep(m: Meter, evs: seq<Event>, model: Schema, ds: seq<DataFrame>, rows: seq<seq<Stat>>)
    requires evs != [] && RowsAre(m, Init(evs), model, ds, rows)
    ensures RowsAre(m, evs, model, ds, rows)
  {
    hide FrameOf;
    hide StatRow;
    forall q | 0 <= q < |rows| ensures RowHas(m, evs, model, ds[q], rows[q]) {
      assert RowHas(m, Init(evs), model, ds[q], rows[q]);
      var i: nat, k: nat :| RowIs(m, Init(evs), model, ds[q], rows[q], i, k);
      assert RowIs(m, evs, model, ds[q], rows[q], i, k);
    }
  }

  lemma RowsAdd(m: Meter, evs: seq<Event>, model: Schema, ds: seq<DataFrame>, rows: seq<seq<Stat>>, k: nat)
    requires evs != [] && RowsAre(m, Init(evs), model, ds, rows) && Last(evs).out.Records?
    ensures RowsAre(m, evs, model, ds + [FrameOf(m, Last(evs), k)], rows + [StatRow(m, model, Last(evs).out.batch)])
  {
    RowsKeep(m, evs, model, ds, rows);
    hide FrameOf;
    hide StatRow;
    var e, more := ds + [FrameOf(m, Last(evs), k)], rows + [StatRow(m, model, Last(evs).out.batch)];
    forall q | 0 <= q < |more| ensures RowHas(m, evs, model, e[q], more[q]) {
      if q < |rows| {
        assert RowHas(m, evs, model, ds[q], rows[q]);
      } else {
        assert RowIs(m, evs, model, e[q], more[q], |evs| - 1, k);
      }
    }
  }

  lemma ModelStays(evs: seq<Event>, u: bytes)
    requires evs != [] && u in Models(Init(evs))
    ensures u in Models(evs) && Models(evs)[u] == Models(Init(evs))[u]
  {
  }

  /** A stream not yet seen has no frames. */
  lemma {:induction false} NoRows(m: Meter, evs: seq<Event>, u: bytes)
    requires u !in Models(evs)
    ensures Rows(m, evs, u) == [] && FramesFor(Data(m, evs), u) == []
    decreases |evs|
  {
    if evs != [] {
      NoRows(m, Init(evs), u);
      ModelKnown(evs, u);
      DataNext(m, evs, u);
    }
  }

  /** What an event adds to a stream's frames. */
  lemma DataNext(m: Meter, evs: seq<Event>, u: bytes)
    requires evs != []
    ensures !IsOf(Last(evs), u) ==> FramesFor(Data(m, evs), u) == FramesFor(Data(m, Init(evs)), u)
    ensures IsOf(Last(evs), u) ==>
      |Segments(evs)| > 0 &&
      FramesFor(Data(m, evs), u) == FramesFor(Data(m, Init(evs)), u) + [FrameOf(m, Last(evs), |Segments(evs)| - 1)]
  {
    SegmentsSome(evs);
    hide Segments;
    hide AxisOr;
    var ds := Data(m, Init(evs));
    if Last(evs).out.Records? {
      var d := FrameOf(m, Last(evs), |Segments(evs)| - 1);
      assert Init(ds + [d]) == ds;
    } else {
      assert Data(m, evs) == ds + [] == ds;
    }
  }

  lemma RowsNext(m: Meter, evs: seq<Event>, u: bytes)
    requires evs != [] && u in Models(evs)
    ensures Rows(m, evs, u) == Rows(m, Init(evs), u) +
      if IsOf(Last(evs), u) then [StatRow(m, Models(evs)[u], Last(evs).out.batch)] else []
  {
    hide StatRow;
    hide Models;
  }

  lemma {:induction false} FramesForShift(ds: seq<DataFrame>, delta: int, u: bytes)
    ensures FramesFor(MovedAll(ds, delta), u) == MovedAll(FramesFor(ds, u), delta)
    decreases |ds|
  {
    if ds == [] {
    } else {
      FramesForShift(Init(ds), delta, u);
      assert Init(MovedAll(ds, delta)) == MovedAll(Init(ds), delta);
      var x := FramesFor(Init(ds), u);
      if Last(ds).uuid == u {
        assert MovedAll(x + [Last(ds)], delta) == MovedAll(x, delta) + [Moved(Last(ds), delta)];
      } else {
        assert x + [] == x && MovedAll(x, delta) + [] == MovedAll(x, delta);
      }
    }
  }

  /** The index's row for a stream's frame is of the batch the frame holds. */
  lemma IndexedRow(z: Zip, m: Meter, file: bytes, u: bytes, q: nat, b: Batch)
    requires IndexFile(z, m, file).Some? && u in IndexFile(z, m, file).value.streams
    requires q < |IndexFile(z, m, file).value.streams[u].frames|
    requires BatchAt(z, file, IndexFile(z, m, file).value.streams[u].frames[q].ref.offset, b)
    ensures var st := IndexFile(z, m, file).value.streams[u];
      |st.stats| == |st.frames| && st.stats[q] == StatRow(m, st.model, b)
  {
    hide *;
    Access.IndexedHeader(z, m, file);
    var evs := Access.EventsOf(z, file);
    Resuming.IndexFileIs(z, m, file);
    Access.EventsAre(z, file);
    var r := Replay(z, FRESH, WholeFrames(file[16..]), 16);
    Merging.IndexParts(m, evs, r.stopped || Leftover(file[16..]) != []);
    StreamRows(m, evs, u);
    StreamParts(m, evs, u);
    var st := IndexFile(z, m, file).value.streams[u];
    var i, k := RowsAt(m, evs, u, q);
    Access.RefSizes(evs[i]);
    MovedRef(m, evs, u, q, evs[i], k);
    EntryGave(z, m, file, st.frames[q], evs[i], k, 0, i);
    OneBatchAt(z, file, st.frames[q].ref.offset, b, evs[i].out.batch);
  }

  lemma StreamParts(m: Meter, evs: seq<Event>, u: bytes)
    requires u in Models(evs)
    ensures var st := StreamOf(m, evs, u);
      st.model == Models(evs)[u] && st.stats == Rows(m, evs, u) &&
      st.frames == MovedAll(FramesFor(Data(m, evs), u), -Origin(Epoch(m, evs)))
  {
    FramesForShift(Data(m, evs), -Origin(Epoch(m, evs)), u);
    hide Models;
    hide Data;
    hide FramesFor;
    hide MovedAll;
    hide Rows;
    hide Epoch;
  }

  lemma RowsAt(m: Meter, evs: seq<Event>, u: bytes, q: nat) returns (i: nat, k: nat)
    requires u in Models(evs) && RowsAre(m, evs, Models(evs)[u], FramesFor(Data(m, evs), u), Rows(m, evs, u))
    requires q < |FramesFor(Data(m, evs), u)|
    ensures |Rows(m, evs, u)| == |FramesFor(Data(m, evs), u)| && i < |evs| && evs[i].out.Records?
    ensures FramesFor(Data(m, evs), u)[q] == FrameOf(m, evs[i], k)
    ensures Rows(m, evs, u)[q] == StatRow(m, Models(evs)[u], evs[i].out.batch)
  {
    hide Models;
    hide Data;
    hide FramesFor;
    hide FrameOf;
    hide StatRow;
    hide Rows;
    assert RowHas(m, evs, Models(evs)[u], FramesFor(Data(m, evs), u)[q], Rows(m, evs, u)[q]);
    i, k :| RowIs(m, evs, Models(evs)[u], FramesFor(Data(m, evs), u)[q], Rows(m, evs, u)[q], i, k);
  }

  lemma MovedRef(m: Meter, evs: seq<Event>, u: bytes, q: nat, e: Event, k: nat)
    requires q < |FramesFor(Data(m, evs), u)| && e.out.Records? && FramesFor(Data(m, evs), u)[q] == FrameOf(m, e, k)
    ensures |MovedAll(FramesFor(Data(m, evs), u), -Origin(Epoch(m, evs)))| == |FramesFor(Data(m, evs), u)|
    ensures MovedAll(FramesFor(Data(m, evs), u), -Origin(Epoch(m, evs)))[q].ref.offset == e.at
  {
    hide Data;
    hide FramesFor;
    hide Epoch;
    hide AxisOr;
  }

  // --- as it is done ---------------------------------------------------------------------------------------------

  /** A frame's position in its stream, by where it lies in the file. */
  method FrameOrdinal(st: Stream, offset: nat) returns (ord: int)
    ensures -1 <= ord < |st.frames|
    ensures ord >= 0 ==> st.frames[ord].ref.offset == offset
    ensures ord == -1 ==> forall i :: 0 <= i < |st.frames| ==> st.frames[i].ref.offset != offset
  {
    for i := 0 to |st.frames|
      invariant forall j :: 0 <= j < i ==> st.frames[j].ref.offset != offset
    {
      if st.frames[i].ref.offset == offset { return i; }
    }
    return -1;
  }

  function StatAt(st: Stream, ord: nat, f: nat): Stat {
    if ord < |st.stats| && f < |st.stats[ord]| then st.stats[ord][f] else Stat(None, 0, false)
  }

  ghost predicate Looked(m: Meter, st: Stream, f: nat, d: DataFrame, s: D.FrameStat, ord: nat) {
    ord < |st.frames| && st.frames[ord].ref.offset == d.ref.offset && s == Summary(m, d, StatAt(st, ord, f))
  }

  ghost predicate LookedUp(m: Meter, st: Stream, f: nat, d: DataFrame, s: D.FrameStat) {
    exists ord: nat :: Looked(m, st, f, d, s, ord)
  }

  method FrameStats(m: Meter, st: Stream, f: nat, fs: seq<DataFrame>) returns (out: seq<D.FrameStat>)
    ensures (forall d :: d in fs ==> d in st.frames) ==> |out| == |fs|
    ensures (forall d :: d in fs ==> d in st.frames) ==> forall k :: 0 <= k < |fs| ==> LookedUp(m, st, f, fs[k], out[k])
  {
    hide Summary;
    hide StatAt;
    ghost var good := forall d :: d in fs ==> d in st.frames;
    out := [];
    for k := 0 to |fs|
      invariant good ==> |out| == k && forall j :: 0 <= j < k ==> LookedUp(m, st, f, fs[j], out[j])
    {
      var ord := FrameOrdinal(st, fs[k].ref.offset);
      if ord < 0 {
        assert fs[k] in fs;
        continue;
      }
      var s := Summary(m, fs[k], StatAt(st, ord, f));
      assert Looked(m, st, f, fs[k], s, ord);
      out := out + [s];
    }
  }

  lemma {:induction false} TouchingFrom(m: Meter, fs: seq<DataFrame>, run: Option<u32>, from: real, to: real, d: DataFrame)
    requires d in Touching(m, fs, run, from, to)
    ensures d in fs && Wanted(m, d, run, from, to)
  {
    hide Wanted;
    var n := |fs| - 1;
    if d in Touching(m, fs[..n], run, from, to) {
      TouchingFrom(m, fs[..n], run, from, to, d);
      assert d in fs[..n];
    }
  }

  /** What was looked up is what the frames' records say. */
  lemma LookedSummarises(z: Zip, m: Meter, file: bytes, u: bytes, f: nat, fs: seq<DataFrame>, bs: seq<Batch>, stats: seq<D.FrameStat>)
    requires IndexFile(z, m, file).Some? && u in IndexFile(z, m, file).value.streams
    requires AllGiven(z, file, fs, bs) && |stats| == |fs|
    requires var st := IndexFile(z, m, file).value.streams[u];
      f < |st.model.fields| && forall k :: 0 <= k < |fs| ==> LookedUp(m, st, f, fs[k], stats[k])
    ensures var st := IndexFile(z, m, file).value.streams[u]; Summarised(m, st.model, f, fs, bs, stats)
  {
    hide IndexFile;
    hide FieldStat;
    hide Summary;
    hide BatchAt;
    hide StatAt;
    var st := IndexFile(z, m, file).value.streams[u];
    forall k | 0 <= k < |fs| ensures SummarisedAt(m, st.model, f, fs[k], bs[k], stats[k]) {
      assert LookedUp(m, st, f, fs[k], stats[k]);
      var ord: nat :| Looked(m, st, f, fs[k], stats[k], ord);
      IndexedRow(z, m, file, u, ord, bs[k]);
      RowField(m, st, bs[k], ord, f);
    }
  }

  lemma RowField(m: Meter, st: Stream, b: Batch, ord: nat, f: nat)
    requires ord < |st.stats| && st.stats[ord] == StatRow(m, st.model, b) && f < |st.model.fields|
    ensures StatAt(st, ord, f) == FieldStat(m, st.model, b, f, b.count)
  {
    hide FieldStat;
  }

  function Counts(bs: seq<Batch>): nat {
    if bs == [] then 0 else Counts(bs[..|bs| - 1]) + bs[|bs| - 1].count
  }

  /** With fewer than 2^31 records in the frames no count overflows. */
  lemma {:induction false} SummariesFit(m: Meter, model: Schema, f: nat, fs: seq<DataFrame>, bs: seq<Batch>, stats: seq<D.FrameStat>)
    requires f < |model.fields| && Plotted(model, f) && Summarised(m, model, f, fs, bs, stats) && Counts(bs) < D.TWO31
    ensures D.Bounded(stats) && D.Samples(stats) <= Counts(bs)
    decreases |bs|
  {
    hide Plotted;
    hide Summary;
    hide FieldStat;
    if bs != [] {
      var n := |bs| - 1;
      SummariesFit(m, model, f, fs[..n], bs[..n], stats[..n]);
      assert SummarisedAt(m, model, f, fs[n], bs[n], stats[n]);
      SummaryFits(m, model, f, fs[n], bs[n]);
      assert stats == stats[..n] + [stats[n]];
    }
  }

  lemma SummaryFits(m: Meter, model: Schema, f: nat, d: DataFrame, b: Batch)
    requires f < |model.fields| && Plotted(model, f)
    ensures var s := Summary(m, d, FieldStat(m, model, b, f, b.count));
      s.nPresent <= b.count && (s.nPresent > 0 ==> s.min.Some? && s.max.Some?)
  {
    PlottedStat(m, model, b, f);
    hide Plotted;
    hide FieldStat;
    SamplesCount(m, model, b, f, b.count);
    StatIsSummary(Stats.Samples(m, model, b, f, b.count));
    hide Stats.Samples;
    hide StatOf;
  }

  function ScaleOf(st: Stream): Scale { if st.model.axisMode == AXIS_LOG then Scale.Log else Scale.Linear }

  /** A chart's buckets divide the window evenly, and on a logarithmic axis its logarithms. */
  lemma StreamBuckets(lg: Logs, st: Stream, from: real, to: real, n: nat, b: nat)
    requires LogLaws(lg) && n >= 1 && from < to
    ensures var p := NewPos(from, to, n, ScaleOf(st));
      Usable(lg, p) &&
      if st.model.axisMode == AXIS_LOG && from > 0.0 then
        n as real * (lg.log(Edge(lg, p, b)) - lg.log(from)) == b as real * (lg.log(to) - lg.log(from)) && Edge(lg, p, b) > 0.0
      else n as real * (Edge(lg, p, b) - from) == b as real * (to - from)
  {
    var p := NewPos(from, to, n, ScaleOf(st));
    NewUsable(lg, from, to, n, ScaleOf(st));
    EdgesAreEven(lg, p, b);
    EdgeEven(lg, p, b);
    hide Edge;
  }

  function Points(n: int): nat { if n < 1 then 1 else n }

  const NO_POINTS := D.Envelope([], [], [], [], false)

  /** The samples of the window, reduced. */
  ghost predicate Exactly(lg: Logs, e: D.Envelope, s: seq<D.Sample>, from: real, to: real, n: nat, scale: Scale) {
    var w := D.Window(s, from, to);
    D.Sorted(s) && |s| < D.TWO31 ==>
      if |w| <= n then D.AsTheyAre(e, w) else D.Bucketed(lg, NewPos(from, to, n, scale), e, w)
  }

  /** From the frames the window touches: their samples when they are few enough to
      decode, and their summaries otherwise. */
  method WindowEnvelope(q: Query, lg: Logs, u: bytes, f: nat, run: u32, from: real, to: real, size: int, budget: int)
    returns (r: Option<D.Envelope>, exact: bool, ghost stats: seq<D.FrameStat>)
    requires q.Valid() && u in q.index.streams && f < |q.index.streams[u].model.fields| && LogLaws(lg) && size < D.TWO31
    modifies q.acc, q.cache
    ensures q.Valid()
    ensures var fs := Touching(q.m, q.index.streams[u].frames, Some(run), from, to);
      if fs == [] then r == Some(NO_POINTS) && exact else exact == (|fs| <= budget)
    ensures var fs := Touching(q.m, q.index.streams[u].frames, Some(run), from, to);
      Servable(q.z, q.m, q.file, fs) && old(Faithful(q.z, q.file, q.cache.list)) ==>
        Faithful(q.z, q.file, q.cache.list) && r.Some?
    ensures var st := q.index.streams[u];
      var fs := Touching(q.m, st.frames, Some(run), from, to);
      var bs := Truth(q, fs);
      fs != [] && exact && Servable(q.z, q.m, q.file, fs) && old(Faithful(q.z, q.file, q.cache.list)) ==>
        r.Some? && Exactly(lg, r.value, Series(q.m, st.model, f, bs, OnTicks(bs), Origin(q.index.epoch)), from, to,
                           Points(size), ScaleOf(st))
    ensures var st := q.index.streams[u];
      var fs := Touching(q.m, st.frames, Some(run), from, to);
      var bs := Truth(q, fs);
      fs != [] && !exact && Servable(q.z, q.m, q.file, fs) && Plotted(st.model, f) && Counts(bs) < D.TWO31 ==>
        r.Some? && Summarised(q.m, st.model, f, fs, bs, stats) &&
        D.Enveloped(lg, NewPos(from, to, Points(size), ScaleOf(st)), r.value, stats)
  {
    hide *;
    var m, st, epoch := q.m, q.index.streams[u], Origin(q.index.epoch);
    var fs := RecordFrames(m, st, Some(run), from, to);
    ghost var truth := Truth(q, fs);
    ghost var given := Servable(q.z, m, q.file, fs);
    ghost var good := given && Faithful(q.z, q.file, q.cache.list);
    stats := [];
    if fs == [] { return Some(NO_POINTS), true, stats; }
    if given { TruthGiven(q, fs); }
    if |fs| <= budget {
      var bs := q.Batches(fs);
      if bs == None { return None, true, stats; }
      if good { SameGiven(q.z, q.file, fs, bs.value, truth); }
      var s := SeriesFrom(m, st.model, f, bs.value, epoch);
      var e := D.Numeric(lg, s, from, to, size, ScaleOf(st));
      ExactlyIs(lg, e, s, from, to, size, ScaleOf(st));
      return Some(e), true, stats;
    }
    forall d | d in fs ensures d in st.frames { TouchingFrom(m, st.frames, Some(run), from, to, d); }
    var summaries := FrameStats(m, st, f, fs);
    stats := summaries;
    if given {
      IndexIs(q);
      LookedSummarises(q.z, m, q.file, u, f, fs, truth, stats);
      if Plotted(st.model, f) && Counts(truth) < D.TWO31 { SummariesFit(m, st.model, f, fs, truth, stats); }
    }
    var e := D.NumericFromStats(lg, summaries, from, to, size, ScaleOf(st));
    PointsIs(size);
    return Some(e), false, stats;
  }

  // --- what a window leaves out of a chart ---------------------------------------------------------------------

  /** A sample is in a bucket that is drawn, within its bounds. */
  ghost predicate Covered(lg: Logs, p: Pos, e: D.Envelope, a: D.Sample) {
    Usable(lg, p) && a.v.Some? &&
    var b := Bucket(lg, p, a.x);
    0 <= b < p.buckets && |e.n| == |e.min| == |e.max| == p.buckets &&
    e.n[b] > 0 && e.min[b].Some? && e.max[b].Some? && e.min[b].value <= a.v.value <= e.max[b].value
  }

  lemma {:induction false} OutsideSamples(m: Meter, model: Schema, f: nat, d: DataFrame, b: Batch, epoch: int, from: real, to: real,
                                          time: bool, n: nat)
    requires f < |model.fields| && Straight(m, d, b, epoch) && !Overlaps(m, d, from, to) && n <= b.count
    requires time == (b.schema.axisKind == AXIS_TIME)
    ensures D.Window(BatchSeries(m, model, f, b, n, time, epoch), from, to) == []
  {
    hide Axis;
    hide First;
    hide Final;
    hide Number;
    if n > 0 {
      OutsideSamples(m, model, f, d, b, epoch, from, to, time, n - 1);
      assert Between(m, d, b, n - 1, epoch);
      D.WindowJoin(BatchSeries(m, model, f, b, n - 1, time, epoch), SampleAt(m, model, f, b, n - 1, time, epoch), from, to);
      OneOutside(SampleAt(m, model, f, b, n - 1, time, epoch), from, to);
    }
  }

  lemma OneOutside(s: seq<D.Sample>, from: real, to: real)
    requires |s| <= 1 && forall a :: a in s ==> !D.In(a, from, to)
    ensures D.Window(s, from, to) == []
  {
    if s != [] { assert s[..0] == []; }
  }

  /** Batches of one kind of axis. */
  predicate Timed(bs: seq<Batch>, time: bool) { forall k :: 0 <= k < |bs| ==> (bs[k].schema.axisKind == AXIS_TIME) == time }

  /** Leaving out the frames a window does not touch loses none of its samples, and what
      is left is in the order it was. */
  lemma {:induction false} PickedSamples(m: Meter, model: Schema, f: nat, fs: seq<DataFrame>, bs: seq<Batch>, epoch: int,
                                         from: real, to: real, time: bool)
    requires f < |model.fields| && AllStraight(m, fs, bs, epoch) && Timed(bs, time)
    ensures var s, t := Series(m, model, f, bs, time, epoch), Series(m, model, f, Picked(m, fs, bs, from, to), time, epoch);
      D.Window(t, from, to) == D.Window(s, from, to) && |t| <= |s| && (forall a :: a in t ==> a in s) &&
      (D.Sorted(s) ==> D.Sorted(t)) && Counts(Picked(m, fs, bs, from, to)) <= Counts(bs)
    decreases |fs|
  {
    hide Straight;
    hide BatchSeries;
    hide Overlaps;
    hide D.Window;
    hide D.Sorted;
    if fs == [] {
    } else {
      var n := |fs| - 1;
      var was := Picked(m, fs[..n], bs[..n], from, to);
      PickedSamples(m, model, f, fs[..n], bs[..n], epoch, from, to, time);
      var s, t := Series(m, model, f, bs[..n], time, epoch), Series(m, model, f, was, time, epoch);
      var more := BatchSeries(m, model, f, bs[n], bs[n].count, time, epoch);
      D.WindowJoin(s, more, from, to);
      assert Straight(m, fs[n], bs[n], epoch);
      SortedParts(s, more);
      if Overlaps(m, fs[n], from, to) {
        assert (was + [bs[n]])[..|was|] == was;
        D.WindowJoin(t, more, from, to);
        if D.Sorted(s + more) { SortedLess(s, t, more); }
      } else {
        OutsideSamples(m, model, f, fs[n], bs[n], epoch, from, to, time, bs[n].count);
        assert was + [] == was;
        assert D.Window(s, from, to) + [] == D.Window(s, from, to);
      }
    }
  }

  lemma SortedParts(x: seq<D.Sample>, y: seq<D.Sample>)
    ensures D.Sorted(x + y) ==> D.Sorted(x)
  {
    if D.Sorted(x + y) {
      forall i, j | 0 <= i <= j < |x| ensures x[i].x <= x[j].x { assert (x + y)[i].x <= (x + y)[j].x; }
    }
  }

  lemma SortedLess(x: seq<D.Sample>, t: seq<D.Sample>, y: seq<D.Sample>)
    requires D.Sorted(x + y) && D.Sorted(t) && forall a :: a in t ==> a in x
    ensures D.Sorted(t + y)
  {
    forall i, j | 0 <= i <= j < |t + y| ensures (t + y)[i].x <= (t + y)[j].x {
      if i < |t| && j >= |t| {
        assert t[i] in x;
        var k :| 0 <= k < |x| && x[k] == t[i];
        assert (x + y)[k].x <= (x + y)[|x| + j - |t|].x;
      } else if i >= |t| {
        assert (x + y)[|x| + i - |t|].x <= (x + y)[|x| + j - |t|].x;
      }
    }
  }

  lemma KindIs(bs: seq<Batch>)
    requires OneKind(bs)
    ensures Timed(bs, OnTicks(bs))
  {
  }

  lemma {:induction false} PickedKind(m: Meter, fs: seq<DataFrame>, bs: seq<Batch>, from: real, to: real, time: bool)
    requires |bs| == |fs| && Timed(bs, time)
    ensures Timed(Picked(m, fs, bs, from, to), time)
    ensures Picked(m, fs, bs, from, to) != [] ==> OnTicks(Picked(m, fs, bs, from, to)) == time
  {
    hide Overlaps;
    if fs != [] { PickedKind(m, fs[..|fs| - 1], bs[..|fs| - 1], from, to, time); }
  }

  lemma SomePicked(m: Meter, fs: seq<DataFrame>, bs: seq<Batch>, from: real, to: real)
    requires OneKind(bs) && |bs| == |fs|
    ensures OneKind(Picked(m, fs, bs, from, to))
  {
    hide Picked;
    PickedFrom(m, fs, bs, from, to);
    assert forall b :: b in bs ==> b.schema.axisKind == bs[0].schema.axisKind;
    var r := Picked(m, fs, bs, from, to);
    forall k | 0 <= k < |r| ensures r[k].schema.axisKind == r[0].schema.axisKind { assert r[k] in bs && r[0] in bs; }
  }

  lemma {:induction false} PickedFrom(m: Meter, fs: seq<DataFrame>, bs: seq<Batch>, from: real, to: real)
    requires |bs| == |fs|
    ensures forall b :: b in Picked(m, fs, bs, from, to) ==> b in bs
  {
    hide Overlaps;
    if fs != [] {
      PickedFrom(m, fs[..|fs| - 1], bs[..|fs| - 1], from, to);
      assert forall b :: b in bs[..|fs| - 1] ==> b in bs;
    }
  }

  /** The samples of a run, by the full scan. */
  ghost function RunSeries(q: Query, u: bytes, f: nat, run: u32): seq<D.Sample>
    requires u in q.index.streams && f < |q.index.streams[u].model.fields|
  {
    var st := q.index.streams[u];
    var bs := Truth(q, OfRun(st.frames, Some(run)));
    Series(q.m, st.model, f, bs, OnTicks(bs), Origin(q.index.epoch))
  }

  /** Every frame of the run is straight, and its batches are of one kind of axis. */
  ghost predicate RunStraight(q: Query, u: bytes, run: u32)
    requires u in q.index.streams
  {
    var fs := OfRun(q.index.streams[u].frames, Some(run));
    AllStraight(q.m, fs, Truth(q, fs), Origin(q.index.epoch)) && OneKind(Truth(q, fs))
  }

  /** The samples the window's frames give are the run's in the window, in order. */
  lemma RunWindow(q: Query, u: bytes, f: nat, run: u32, from: real, to: real)
    requires u in q.index.streams && f < |q.index.streams[u].model.fields|
    requires Servable(q.z, q.m, q.file, OfRun(q.index.streams[u].frames, Some(run))) && RunStraight(q, u, run)
    ensures var st, epoch := q.index.streams[u], Origin(q.index.epoch);
      var fs := Touching(q.m, st.frames, Some(run), from, to);
      var bs := Truth(q, fs);
      var s, t := RunSeries(q, u, f, run), Series(q.m, st.model, f, bs, OnTicks(bs), epoch);
      Servable(q.z, q.m, q.file, fs) && AllStraight(q.m, fs, bs, epoch) && OneKind(bs) &&
      D.Window(t, from, to) == D.Window(s, from, to) && |t| <= |s| && (D.Sorted(s) ==> D.Sorted(t)) &&
      Counts(bs) <= Counts(Truth(q, OfRun(st.frames, Some(run)))) && (fs == [] ==> D.Window(s, from, to) == [])
  {
    hide *;
    var st, epoch := q.index.streams[u], Origin(q.index.epoch);
    var all := OfRun(st.frames, Some(run));
    var its := Truth(q, all);
    RunIs(q, u, f, run);
    WindowMissesNothing(q, st, Some(run), from, to);
    StraightLengths(q.m, all, its, epoch);
    KindIs(its);
    PickedSamples(q.m, st.model, f, all, its, epoch, from, to, OnTicks(its));
    PickedKind(q.m, all, its, from, to, OnTicks(its));
    SomePicked(q.m, all, its, from, to);
    TouchingOfRun(q.m, st.frames, Some(run), from, to);
    NoSeries(q.m, st.model, f, OnTicks(its), epoch, from, to);
  }

  lemma RunIs(q: Query, u: bytes, f: nat, run: u32)
    requires u in q.index.streams && f < |q.index.streams[u].model.fields| && RunStraight(q, u, run)
    ensures var st := q.index.streams[u];
      var fs := OfRun(st.frames, Some(run));
      var bs := Truth(q, fs);
      AllStraight(q.m, fs, bs, Origin(q.index.epoch)) && OneKind(bs) &&
      RunSeries(q, u, f, run) == Series(q.m, st.model, f, bs, OnTicks(bs), Origin(q.index.epoch))
  {
    hide AllStraight;
    hide OneKind;
    hide Truth;
    hide Series;
  }

  lemma NoSeries(m: Meter, model: Schema, f: nat, time: bool, epoch: int, from: real, to: real)
    requires f < |model.fields|
    ensures Series(m, model, f, [], time, epoch) == [] && D.Window([], from, to) == []
    ensures Series(m, model, f, [], OnTicks([]), epoch) == []
  {
  }

  /** Nothing of the run in the window is missed: where nothing is drawn there is
      nothing, the exact reduction is of all of it, and the summaries cover every
      present sample of it. */
  ghost predicate DrawsRun(lg: Logs, q: Query, u: bytes, f: nat, run: u32, from: real, to: real, size: int, e: D.Envelope, exact: bool)
    requires u in q.index.streams && f < |q.index.streams[u].model.fields|
  {
    var st := q.index.streams[u];
    var s := RunSeries(q, u, f, run);
    var w, n := D.Window(s, from, to), Points(size);
    RunStraight(q, u, run) ==>
      (e == NO_POINTS && w == []) ||
      (if exact then Exactly(lg, e, s, from, to, n, ScaleOf(st))
       else Plotted(st.model, f) && Counts(Truth(q, OfRun(st.frames, Some(run)))) < D.TWO31 ==>
         forall a :: a in w && a.v.Some? ==> Covered(lg, NewPos(from, to, n, ScaleOf(st)), e, a))
  }

  lemma ExactlySame(lg: Logs, e: D.Envelope, t: seq<D.Sample>, s: seq<D.Sample>, from: real, to: real, n: nat, scale: Scale)
    requires Exactly(lg, e, t, from, to, n, scale) && D.Window(t, from, to) == D.Window(s, from, to)
    requires |t| <= |s| && (D.Sorted(s) ==> D.Sorted(t))
    ensures Exactly(lg, e, s, from, to, n, scale)
  {
    hide D.Window;
    hide D.Sorted;
    hide D.AsTheyAre;
    hide D.Bucketed;
  }

  lemma EnvelopedPos(lg: Logs, from: real, to: real, n: nat, scale: Scale, e: D.Envelope, stats: seq<D.FrameStat>)
    requires D.Enveloped(lg, NewPos(from, to, n, scale), e, stats)
    ensures var p := NewPos(from, to, n, scale); Usable(lg, p) && p.from == from && p.to == to
  {
  }

  lemma CoveredIs(lg: Logs, p: Pos, e: D.Envelope, a: D.Sample)
    requires Usable(lg, p) && a.v.Some?
    requires var b := Bucket(lg, p, a.x);
      0 <= b < p.buckets && |e.n| == |e.min| == |e.max| == p.buckets &&
      e.n[b] > 0 && e.min[b].Some? && e.max[b].Some? && e.min[b].value <= a.v.value <= e.max[b].value
    ensures Covered(lg, p, e, a)
  {
    hide Bucket;
  }

  lemma DrawsIs(lg: Logs, q: Query, u: bytes, f: nat, run: u32, from: real, to: real, size: int, e: D.Envelope, exact: bool)
    requires u in q.index.streams && f < |q.index.streams[u].model.fields|
    requires var st := q.index.streams[u];
      var s := RunSeries(q, u, f, run);
      RunStraight(q, u, run) ==>
        (e == NO_POINTS && D.Window(s, from, to) == []) ||
        (if exact then Exactly(lg, e, s, from, to, Points(size), ScaleOf(st))
         else Plotted(st.model, f) && Counts(Truth(q, OfRun(st.frames, Some(run)))) < D.TWO31 ==>
           forall a :: a in D.Window(s, from, to) && a.v.Some? ==> Covered(lg, NewPos(from, to, Points(size), ScaleOf(st)), e, a))
    ensures DrawsRun(lg, q, u, f, run, from, to, size, e, exact)
  {
    hide RunStraight;
    hide RunSeries;
    hide Exactly;
    hide Covered;
    hide Plotted;
    hide Counts;
    hide D.Window;
  }

  lemma DrawsTheRun(lg: Logs, q: Query, u: bytes, f: nat, run: u32, from: real, to: real, size: int,
                    e: D.Envelope, exact: bool, stats: seq<D.FrameStat>)
    requires LogLaws(lg) && u in q.index.streams && f < |q.index.streams[u].model.fields|
    requires Servable(q.z, q.m, q.file, OfRun(q.index.streams[u].frames, Some(run)))
    requires var st := q.index.streams[u];
      var fs := Touching(q.m, st.frames, Some(run), from, to);
      var bs := Truth(q, fs);
      if fs == [] then e == NO_POINTS
      else if exact then Exactly(lg, e, Series(q.m, st.model, f, bs, OnTicks(bs), Origin(q.index.epoch)), from, to,
                                 Points(size), ScaleOf(st))
      else Plotted(st.model, f) && Counts(bs) < D.TWO31 ==>
        Summarised(q.m, st.model, f, fs, bs, stats) &&
        D.Enveloped(lg, NewPos(from, to, Points(size), ScaleOf(st)), e, stats)
    ensures DrawsRun(lg, q, u, f, run, from, to, size, e, exact)
  {
    hide *;
    if RunStraight(q, u, run) {
      RunWindow(q, u, f, run, from, to);
      var st, epoch := q.index.streams[u], Origin(q.index.epoch);
      var fs := Touching(q.m, st.frames, Some(run), from, to);
      var bs := Truth(q, fs);
      var t, s, p := Series(q.m, st.model, f, bs, OnTicks(bs), epoch), RunSeries(q, u, f, run), NewPos(from, to, Points(size), ScaleOf(st));
      if exact {
        if fs != [] { ExactlySame(lg, e, t, s, from, to, Points(size), ScaleOf(st)); }
      } else if fs != [] && Plotted(st.model, f) && Counts(bs) < D.TWO31 {
        forall a | a in D.Window(s, from, to) && a.v.Some? ensures Covered(lg, p, e, a) {
          WindowOf(t, from, to, a);
          EnvelopedPos(lg, from, to, Points(size), ScaleOf(st), e, stats);
          SampleCovered(lg, q.m, st.model, f, fs, bs, epoch, stats, p, e, a);
          CoveredIs(lg, p, e, a);
        }
      }
    }
    DrawsIs(lg, q, u, f, run, from, to, size, e, exact);
  }

  /** A numeric field over a window: from its samples when the window's frames are few
      enough to decode, and from their summaries otherwise. */
  method Envelope(q: Query, lg: Logs, u: bytes, f: nat, run: u32, from: real, to: real, size: int, budget: int)
    returns (r: Option<D.Envelope>, exact: bool, ghost stats: seq<D.FrameStat>)
    requires q.Valid() && u in q.index.streams && f < |q.index.streams[u].model.fields| && LogLaws(lg) && size < D.TWO31
    modifies q.acc, q.cache
    ensures q.Valid()
    ensures var fs := Touching(q.m, q.index.streams[u].frames, Some(run), from, to);
      if fs == [] then r == Some(NO_POINTS) && exact else exact == (|fs| <= budget)
    ensures var fs := Touching(q.m, q.index.streams[u].frames, Some(run), from, to);
      Servable(q.z, q.m, q.file, fs) && old(Faithful(q.z, q.file, q.cache.list)) ==>
        Faithful(q.z, q.file, q.cache.list) && r.Some?
    ensures var st := q.index.streams[u];
      var fs := Touching(q.m, st.frames, Some(run), from, to);
      var bs := Truth(q, fs);
      fs != [] && exact && Servable(q.z, q.m, q.file, fs) && old(Faithful(q.z, q.file, q.cache.list)) ==>
        r.Some? && Exactly(lg, r.value, Series(q.m, st.model, f, bs, OnTicks(bs), Origin(q.index.epoch)), from, to,
                           Points(size), ScaleOf(st))
    ensures var st := q.index.streams[u];
      var fs := Touching(q.m, st.frames, Some(run), from, to);
      var bs := Truth(q, fs);
      fs != [] && !exact && Servable(q.z, q.m, q.file, fs) && Plotted(st.model, f) && Counts(bs) < D.TWO31 ==>
        r.Some? && Summarised(q.m, st.model, f, fs, bs, stats) &&
        D.Enveloped(lg, NewPos(from, to, Points(size), ScaleOf(st)), r.value, stats)
    ensures var fs := OfRun(q.index.streams[u].frames, Some(run));
      Servable(q.z, q.m, q.file, fs) && old(Faithful(q.z, q.file, q.cache.list)) ==>
        r.Some? && DrawsRun(lg, q, u, f, run, from, to, size, r.value, exact)
  {
    hide *;
    ghost var fs := OfRun(q.index.streams[u].frames, Some(run));
    ghost var good := Servable(q.z, q.m, q.file, fs) && Faithful(q.z, q.file, q.cache.list);
    r, exact, stats := WindowEnvelope(q, lg, u, f, run, from, to, size, budget);
    if good {
      TouchingServable(q, q.index.streams[u], Some(run), from, to);
      DrawsTheRun(lg, q, u, f, run, from, to, size, r.value, exact, stats);
    }
  }

  lemma PointsIs(n: int)
    ensures Points(n) == if n < 1 then 1 else n
  {
  }

  lemma IndexIs(q: Query)
    requires q.Valid()
    ensures IndexFile(q.z, q.m, q.file) == Some(q.index)
  {
  }

  lemma ExactlyIs(lg: Logs, e: D.Envelope, s: seq<D.Sample>, from: real, to: real, size: int, scale: Scale)
    requires var w := D.Window(s, from, to);
      var n: nat := if size < 1 then 1 else size;
      D.Sorted(s) && |s| < D.TWO31 ==>
        if |w| <= n then D.AsTheyAre(e, w) else D.Bucketed(lg, NewPos(from, to, n, scale), e, w)
    ensures Exactly(lg, e, s, from, to, Points(size), scale)
  {
    hide D.Window;
    hide D.Sorted;
    hide D.AsTheyAre;
    hide D.Bucketed;
  }
}
