/** Enumerated fields from samples and from summaries: the bands made of summaries deny
    no sample. */
module Categories {
  import opened Bytes
  import opened Format
  import opened Records
  import opened Reading
  import opened Stats
  import opened Indexing
  import opened Query
  import opened Paging
  import opened Buckets
  import opened Tiers
  import D = Decimate
  import S = States

  // --- one frame -----------------------------------------------------------------------------------------

  /** A frame's summary does not deny a value the frame has. */
  lemma SummaryAdmits(m: Meter, model: Schema, d: DataFrame, b: Batch, f: nat, i: nat, v: real)
    requires f < |model.fields| && Plotted(model, f) && i < b.count && Number(m, model, b, i, f) == Some(v)
    ensures var s := Summary(m, d, FieldStat(m, model, b, f, b.count));
      s.nPresent > 0 && (s.distinct || s.value == Some(v))
  {
    SampleIn(m, model, b, f, b.count, i, v);
    PlottedStat(m, model, b, f);
    hide Plotted;
    hide Number;
    hide FieldStat;
    hide Stats.Samples;
    var vals := Stats.Samples(m, model, b, f, b.count);
    StatIsSummary(vals);
    hide StatOf;
    var k :| 0 <= k < |vals| && vals[k] == v;
  }

  /** A present sample of the window is admitted by the bands, at its place and with its
      value. */
  lemma SampleAdmitted(m: Meter, model: Schema, f: nat, fs: seq<DataFrame>, bs: seq<Batch>, epoch: int,
                       stats: seq<D.FrameStat>, out: seq<S.State>, from: real, to: real, a: D.Sample)
    requires f < |model.fields| && Plotted(model, f)
    requires AllStraight(m, fs, bs, epoch) && OneKind(bs) && Summarised(m, model, f, fs, bs, stats)
    requires S.AllAdmitted(out, stats, from, to)
    requires a in Series(m, model, f, bs, OnTicks(bs), epoch) && D.In(a, from, to) && a.v.Some?
    ensures S.Admitted(out, a.x, a.v.value)
  {
    hide *;
    var k, i := SeriesSample(m, model, f, bs, OnTicks(bs), epoch, a);
    RecordHere(m, model, f, fs, bs, epoch, stats, k, i, a);
    RecordHolds(m, model, f, fs, bs, epoch, stats, k, i, a);
    AdmittedBy(out, stats, from, to, k, a);
  }

  lemma RecordHolds(m: Meter, model: Schema, f: nat, fs: seq<DataFrame>, bs: seq<Batch>, epoch: int,
                    stats: seq<D.FrameStat>, k: nat, i: nat, a: D.Sample)
    requires f < |model.fields| && Plotted(model, f) && Summarised(m, model, f, fs, bs, stats)
    requires k < |bs| && From(m, model, f, bs[k], i, OnTicks(bs), epoch, a) && a.v.Some?
    requires k < |stats| && stats[k].first <= a.x <= stats[k].last
    ensures S.Holds(stats[k], a.x, a.v.value)
  {
    assert SummarisedAt(m, model, f, fs[k], bs[k], stats[k]);
    hide Plotted;
    hide FieldStat;
    hide Number;
    hide Axis;
    SummaryAdmits(m, model, fs[k], bs[k], f, i, a.v.value);
  }

  lemma AdmittedBy(out: seq<S.State>, stats: seq<D.FrameStat>, from: real, to: real, k: nat, a: D.Sample)
    requires S.AllAdmitted(out, stats, from, to) && k < |stats| && a.v.Some? && D.In(a, from, to)
    requires S.Holds(stats[k], a.x, a.v.value)
    ensures S.Admitted(out, a.x, a.v.value)
  {
    hide S.Admitted;
    hide S.Holds;
    assert S.AdmittedFor(out, stats[k], from, to);
  }

  // --- frames in the axis's order ---------------------------------------------------------------------------

  lemma SortedJoin(x: seq<D.Sample>, y: seq<D.Sample>)
    requires D.Sorted(x + y)
    ensures D.Sorted(x) && D.Sorted(y) && forall a, c :: a in x && c in y ==> a.x <= c.x
  {
    var all := x + y;
    forall i, j | 0 <= i <= j < |x| ensures x[i].x <= x[j].x { assert all[i].x <= all[j].x; }
    forall i, j | 0 <= i <= j < |y| ensures y[i].x <= y[j].x { assert all[|x| + i].x <= all[|x| + j].x; }
    forall a, c | a in x && c in y ensures a.x <= c.x {
      var i :| 0 <= i < |x| && x[i] == a;
      var j :| 0 <= j < |y| && y[j] == c;
      assert all[i].x <= all[|x| + j].x;
    }
  }

  /** The samples of the records of one batch are in the order of the records. */
  lemma {:induction false} RecordsInTurn(m: Meter, model: Schema, f: nat, b: Batch, n: nat, time: bool, epoch: int,
                                         i: nat, j: nat, a: D.Sample, c: D.Sample)
    requires f < |model.fields| && D.Sorted(BatchSeries(m, model, f, b, n, time, epoch)) && i <= j < n
    requires SampleAt(m, model, f, b, i, time, epoch) == [a] && SampleAt(m, model, f, b, j, time, epoch) == [c]
    ensures a.x <= c.x && c in BatchSeries(m, model, f, b, n, time, epoch)
  {
    hide SampleAt;
    var pre := BatchSeries(m, model, f, b, n - 1, time, epoch);
    SortedJoin(pre, SampleAt(m, model, f, b, n - 1, time, epoch));
    if j < n - 1 {
      RecordsInTurn(m, model, f, b, n - 1, time, epoch, i, j, a, c);
    } else if i < n - 1 {
      RecordsInTurn(m, model, f, b, n - 1, time, epoch, i, i, a, a);
    }
  }

  lemma {:induction false} BatchesInTurn(m: Meter, model: Schema, f: nat, bs: seq<Batch>, time: bool, epoch: int,
                                         i: nat, j: nat, a: D.Sample, c: D.Sample)
    requires f < |model.fields| && D.Sorted(Series(m, model, f, bs, time, epoch)) && i < j < |bs|
    requires a in BatchSeries(m, model, f, bs[i], bs[i].count, time, epoch)
    requires c in BatchSeries(m, model, f, bs[j], bs[j].count, time, epoch)
    ensures a.x <= c.x
    decreases |bs|
  {
    hide BatchSeries;
    hide D.Sorted;
    var n := |bs| - 1;
    SortedJoin(Series(m, model, f, bs[..n], time, epoch), BatchSeries(m, model, f, bs[n], bs[n].count, time, epoch));
    if j < n {
      BatchesInTurn(m, model, f, bs[..n], time, epoch, i, j, a, c);
    } else {
      InSeries(m, model, f, bs[..n], time, epoch, i, a);
    }
  }

  lemma {:induction false} InSeries(m: Meter, model: Schema, f: nat, bs: seq<Batch>, time: bool, epoch: int, i: nat, a: D.Sample)
    requires f < |model.fields| && i < |bs| && a in BatchSeries(m, model, f, bs[i], bs[i].count, time, epoch)
    ensures a in Series(m, model, f, bs, time, epoch)
    decreases |bs|
  {
    hide BatchSeries;
    if i < |bs| - 1 { InSeries(m, model, f, bs[..|bs| - 1], time, epoch, i, a); }
  }

  lemma {:induction false} BatchSorted(m: Meter, model: Schema, f: nat, bs: seq<Batch>, time: bool, epoch: int, i: nat)
    requires f < |model.fields| && D.Sorted(Series(m, model, f, bs, time, epoch)) && i < |bs|
    ensures D.Sorted(BatchSeries(m, model, f, bs[i], bs[i].count, time, epoch))
    decreases |bs|
  {
    hide BatchSeries;
    hide D.Sorted;
    var n := |bs| - 1;
    SortedJoin(Series(m, model, f, bs[..n], time, epoch), BatchSeries(m, model, f, bs[n], bs[n].count, time, epoch));
    if i < n { BatchSorted(m, model, f, bs[..n], time, epoch, i); }
  }

  /** Every record of a frame stands somewhere. */
  ghost predicate Decodes(m: Meter, b: Batch, epoch: int) { forall i :: 0 <= i < b.count ==> At(m, b, i, epoch).Some? }

  ghost predicate AllDecode(m: Meter, fs: seq<DataFrame>, bs: seq<Batch>, epoch: int) {
    |bs| == |fs| && forall k :: 0 <= k < |fs| ==> Decodes(m, bs[k], epoch) && Describes(m, fs[k], bs[k], epoch)
  }

  lemma SampleThere(m: Meter, model: Schema, f: nat, b: Batch, i: nat, time: bool, epoch: int) returns (a: D.Sample)
    requires f < |model.fields| && At(m, b, i, epoch).Some? && time == (b.schema.axisKind == AXIS_TIME)
    ensures SampleAt(m, model, f, b, i, time, epoch) == [a] && a.x == At(m, b, i, epoch).value
  {
    hide Axis;
    hide Number;
    a := SampleAt(m, model, f, b, i, time, epoch)[0];
  }

  lemma KindAt(bs: seq<Batch>, k: nat)
    requires OneKind(bs) && k < |bs|
    ensures OnTicks(bs) == (bs[k].schema.axisKind == AXIS_TIME)
  {
    assert bs[0].schema.axisKind == bs[0].schema.axisKind;
  }

  /** A batch of a series that never goes back is in order. */
  lemma BatchInOrder(m: Meter, model: Schema, f: nat, bs: seq<Batch>, epoch: int, k: nat)
    requires f < |model.fields| && OneKind(bs) && k < |bs| && Decodes(m, bs[k], epoch)
    requires D.Sorted(Series(m, model, f, bs, OnTicks(bs), epoch))
    ensures InOrder(m, bs[k], epoch)
  {
    KindAt(bs, k);
    hide OneKind;
    var b, time := bs[k], OnTicks(bs);
    BatchSorted(m, model, f, bs, time, epoch, k);
    hide OnTicks;
    hide D.Sorted;
    hide Series;
    hide BatchSeries;
    hide At;
    forall i, j | 0 <= i <= j < b.count ensures Before(m, b, i, j, epoch) {
      var a := SampleThere(m, model, f, b, i, time, epoch);
      var c := SampleThere(m, model, f, b, j, time, epoch);
      RecordsInTurn(m, model, f, b, b.count, time, epoch, i, j, a, c);
    }
  }

  /** When the samples of the frames never go back, the frames are straight and come one
      after the other. */
  lemma SortedInTurn(m: Meter, model: Schema, f: nat, fs: seq<DataFrame>, bs: seq<Batch>, epoch: int, stats: seq<D.FrameStat>)
    requires f < |model.fields| && Plotted(model, f) && OneKind(bs) && AllDecode(m, fs, bs, epoch)
    requires Summarised(m, model, f, fs, bs, stats) && D.Sorted(Series(m, model, f, bs, OnTicks(bs), epoch))
    ensures AllStraight(m, fs, bs, epoch) && S.InTurn(stats)
  {
    hide Plotted;
    hide Decodes;
    hide Describes;
    hide SummarisedAt;
    hide Straight;
    hide InOrder;
    hide OneKind;
    hide D.Sorted;
    hide Series;
    hide OnTicks;
    forall k | 0 <= k < |fs| ensures Straight(m, fs[k], bs[k], epoch) {
      BatchInOrder(m, model, f, bs, epoch, k);
      OrderedIsStraight(m, fs[k], bs[k], epoch);
    }
    forall i, j | 0 <= i <= j < |stats| && stats[i].nPresent > 0 && stats[j].nPresent > 0
      ensures stats[i].first <= stats[j].first && stats[i].last <= stats[j].last
    {
      if i < j { EndsInTurn(m, model, f, fs, bs, epoch, stats, i, j); }
    }
  }

  lemma EndsInTurn(m: Meter, model: Schema, f: nat, fs: seq<DataFrame>, bs: seq<Batch>, epoch: int,
                   stats: seq<D.FrameStat>, i: nat, j: nat)
    requires f < |model.fields| && Plotted(model, f) && OneKind(bs) && AllDecode(m, fs, bs, epoch) && i < j < |stats|
    requires Summarised(m, model, f, fs, bs, stats) && D.Sorted(Series(m, model, f, bs, OnTicks(bs), epoch))
    requires stats[i].nPresent > 0 && stats[j].nPresent > 0
    ensures stats[i].first <= stats[j].first && stats[i].last <= stats[j].last
  {
    hide *;
    SummarisedSizes(m, model, f, fs, bs, stats);
    var a0, a1 := EndsAre(m, model, f, fs, bs, epoch, stats, i);
    var c0, c1 := EndsAre(m, model, f, fs, bs, epoch, stats, j);
    BatchesInTurn(m, model, f, bs, OnTicks(bs), epoch, i, j, a0, c0);
    BatchesInTurn(m, model, f, bs, OnTicks(bs), epoch, i, j, a1, c1);
  }

  lemma SummarisedSizes(m: Meter, model: Schema, f: nat, fs: seq<DataFrame>, bs: seq<Batch>, stats: seq<D.FrameStat>)
    requires f < |model.fields| && Summarised(m, model, f, fs, bs, stats)
    ensures |stats| == |fs| == |bs|
  {
  }

  /** A frame that holds something ends where its end records stand. */
  lemma EndsHeld(m: Meter, model: Schema, f: nat, fs: seq<DataFrame>, bs: seq<Batch>, epoch: int, stats: seq<D.FrameStat>, k: nat)
    requires f < |model.fields| && Plotted(model, f) && AllDecode(m, fs, bs, epoch) && k < |stats|
    requires Summarised(m, model, f, fs, bs, stats) && stats[k].nPresent > 0
    ensures |stats| == |bs| && bs[k].count > 0
    ensures var n := bs[k].count - 1;
      At(m, bs[k], 0, epoch) == Some(stats[k].first) && At(m, bs[k], n, epoch) == Some(stats[k].last)
  {
    hide Plotted;
    hide Describes;
    hide FieldStat;
    hide At;
    hide First;
    hide Final;
    var b := bs[k];
    assert SummarisedAt(m, model, f, fs[k], b, stats[k]);
    SummaryFits(m, model, f, fs[k], b);
    assert Decodes(m, b, epoch) && Describes(m, fs[k], b, epoch);
    DescribedEnds(m, fs[k], b, epoch);
  }

  /** The samples at a frame's ends. */
  lemma EndsAre(m: Meter, model: Schema, f: nat, fs: seq<DataFrame>, bs: seq<Batch>, epoch: int, stats: seq<D.FrameStat>, k: nat)
    returns (a: D.Sample, c: D.Sample)
    requires f < |model.fields| && Plotted(model, f) && OneKind(bs) && AllDecode(m, fs, bs, epoch) && k < |stats|
    requires Summarised(m, model, f, fs, bs, stats) && D.Sorted(Series(m, model, f, bs, OnTicks(bs), epoch))
    requires stats[k].nPresent > 0
    ensures |stats| == |bs| && stats[k].first == a.x && stats[k].last == c.x
    ensures a in BatchSeries(m, model, f, bs[k], bs[k].count, OnTicks(bs), epoch)
    ensures c in BatchSeries(m, model, f, bs[k], bs[k].count, OnTicks(bs), epoch)
  {
    hide *;
    EndsHeld(m, model, f, fs, bs, epoch, stats, k);
    var b := bs[k];
    KindAt(bs, k);
    BatchSorted(m, model, f, bs, OnTicks(bs), epoch, k);
    a := SampleThere(m, model, f, b, 0, OnTicks(bs), epoch);
    c := SampleThere(m, model, f, b, b.count - 1, OnTicks(bs), epoch);
    RecordsInTurn(m, model, f, b, b.count, OnTicks(bs), epoch, 0, b.count - 1, a, c);
    RecordsInTurn(m, model, f, b, b.count, OnTicks(bs), epoch, 0, 0, a, a);
  }

  /** The tiers agree: over frames whose samples never go back, the bands made of the
      index's own summaries admit every present sample of the window. */
  lemma BandsSound(m: Meter, model: Schema, f: nat, fs: seq<DataFrame>, bs: seq<Batch>, epoch: int,
                   stats: seq<D.FrameStat>, out: seq<S.State>, from: real, to: real, a: D.Sample)
    requires f < |model.fields| && Plotted(model, f) && OneKind(bs) && AllDecode(m, fs, bs, epoch)
    requires Summarised(m, model, f, fs, bs, stats) && D.Sorted(Series(m, model, f, bs, OnTicks(bs), epoch))
    requires S.InTurn(stats) ==> S.AllAdmitted(out, stats, from, to)
    requires a in D.Window(Series(m, model, f, bs, OnTicks(bs), epoch), from, to) && a.v.Some?
    ensures S.Admitted(out, a.x, a.v.value)
  {
    hide *;
    SortedInTurn(m, model, f, fs, bs, epoch, stats);
    WindowOf(Series(m, model, f, bs, OnTicks(bs), epoch), from, to, a);
    SampleAdmitted(m, model, f, fs, bs, epoch, stats, out, from, to, a);
  }

  /** A bucket of the exact reduction that holds something holds what the bands admit,
      somewhere in that bucket. */
  lemma BucketAdmitted(lg: Logs, m: Meter, model: Schema, f: nat, fs: seq<DataFrame>, bs: seq<Batch>, epoch: int,
                       stats: seq<D.FrameStat>, p: Pos, exact: seq<S.State>, out: seq<S.State>, b: nat) returns (x: real)
    requires LogLaws(lg) && Usable(lg, p) && f < |model.fields| && Plotted(model, f)
    requires OneKind(bs) && AllDecode(m, fs, bs, epoch) && Summarised(m, model, f, fs, bs, stats)
    requires D.Sorted(Series(m, model, f, bs, OnTicks(bs), epoch))
    requires S.InTurn(stats) ==> S.AllAdmitted(out, stats, p.from, p.to)
    requires S.Banded(lg, p, exact, D.Window(Series(m, model, f, bs, OnTicks(bs), epoch), p.from, p.to))
    requires b < p.buckets && |exact| == p.buckets && !exact[b].absent
    ensures Bucket(lg, p, x) == b && S.Admitted(out, x, exact[b].raw)
  {
    hide *;
    var w := D.Window(Series(m, model, f, bs, OnTicks(bs), epoch), p.from, p.to);
    HeldInBucket(lg, p, exact, w, b);
    var a := BucketSample(lg, p, w, b, exact[b].raw);
    BandsSound(m, model, f, fs, bs, epoch, stats, out, p.from, p.to, a);
    x := a.x;
  }

  lemma HeldInBucket(lg: Logs, p: Pos, exact: seq<S.State>, w: seq<D.Sample>, b: nat)
    requires Usable(lg, p) && S.Banded(lg, p, exact, w) && b < p.buckets && |exact| == p.buckets && !exact[b].absent
    ensures exact[b].raw in D.InBucket(lg, p, w, b)
  {
    hide Edge;
    hide D.InBucket;
    assert S.Holding(exact[b], D.InBucket(lg, p, w, b));
  }

  // --- and say nothing the frames do not -------------------------------------------------------------------

  /** A band says of these samples that there are none, that they differ, or which one
      value they all are. */
  ghost predicate Tells(st: S.State, vals: seq<real>) {
    (st.absent <==> vals == []) &&
    (st.mixed <==> exists i, j :: 0 <= i < |vals| && 0 <= j < |vals| && vals[i] != vals[j]) &&
    (!st.absent && !st.mixed ==> forall v :: v in vals ==> v == st.raw)
  }

  lemma StateTells(m: Meter, model: Schema, d: DataFrame, b: Batch, f: nat, from: real, to: real)
    requires f < |model.fields| && Plotted(model, f)
    ensures Tells(S.StateOf(Summary(m, d, FieldStat(m, model, b, f, b.count)), from, to),
                  Stats.Samples(m, model, b, f, b.count))
  {
    PlottedStat(m, model, b, f);
    hide Plotted;
    hide FieldStat;
    hide Stats.Samples;
    hide First;
    hide Final;
    var vals := Stats.Samples(m, model, b, f, b.count);
    StatIsSummary(vals);
    hide StatOf;
    if vals != [] {
      forall v | v in vals && !StatOf(vals).distinct ensures v == vals[0] {
        var k :| 0 <= k < |vals| && vals[k] == v;
      }
    }
  }

  lemma TellsAlike(a: S.State, b: S.State, vals: seq<real>)
    requires S.Mergeable(a, b) && Tells(b, vals)
    ensures Tells(a, vals)
  {
  }

  /** Where the states of a window come from. */
  lemma {:induction false} ClippedFrom(stats: seq<D.FrameStat>, from: real, to: real, i: nat) returns (k: nat)
    requires i < |S.Clipped(stats, from, to)|
    ensures k < |stats| && S.Clipped(stats, from, to)[i] == S.StateOf(stats[k], from, to)
  {
    hide S.StateOf;
    var n := |stats| - 1;
    if i < |S.Clipped(stats[..n], from, to)| {
      k := ClippedFrom(stats[..n], from, to, i);
    } else {
      k := n;
    }
  }

  lemma {:induction false} ClippedHas(stats: seq<D.FrameStat>, from: real, to: real, k: nat) returns (i: nat)
    requires k < |stats| && S.StateOf(stats[k], from, to).x0 <= S.StateOf(stats[k], from, to).x1
    ensures i < |S.Clipped(stats, from, to)| && S.Clipped(stats, from, to)[i] == S.StateOf(stats[k], from, to)
  {
    hide S.StateOf;
    var n := |stats| - 1;
    if k < n {
      i := ClippedHas(stats[..n], from, to, k);
    } else {
      i := |S.Clipped(stats[..n], from, to)|;
    }
  }

  /** The first and the last state that went into a band. */
  lemma BandEnds(out: seq<S.State>, s: seq<S.State>, at: seq<nat>, r: nat) returns (i: nat, j: nat)
    requires S.Grouped(out, s, at) && r < |out|
    ensures i < |s| == |at| && j < |s| && at[i] == r == at[j]
    ensures out[r].x0 == s[i].x0 && out[r].x1 == s[j].x1
  {
    hide S.Mergeable;
    i := 0;
    while at[i] < r
      invariant i < |s| && at[i] <= r && (i == 0 || at[i - 1] < r)
      decreases |s| - i
    {
      assert i < |s| - 1;
      i := i + 1;
    }
    j := |s| - 1;
    while at[j] > r
      invariant 0 <= j < |s| && at[j] >= r && (j == |s| - 1 || at[j + 1] > r)
      decreases j
    {
      j := j - 1;
    }
  }

  lemma StateOfFrame(m: Meter, model: Schema, f: nat, fs: seq<DataFrame>, bs: seq<Batch>, stats: seq<D.FrameStat>,
                     from: real, to: real, k: nat)
    requires f < |model.fields| && Plotted(model, f) && Summarised(m, model, f, fs, bs, stats) && k < |stats|
    ensures |stats| == |fs| == |bs|
    ensures Tells(S.StateOf(stats[k], from, to), Stats.Samples(m, model, bs[k], f, bs[k].count))
    ensures S.StateOf(stats[k], from, to).x0 == S.Max(First(m, fs[k]), from)
    ensures S.StateOf(stats[k], from, to).x1 == S.Min(Final(m, fs[k]), to)
  {
    assert SummarisedAt(m, model, f, fs[k], bs[k], stats[k]);
    hide First;
    hide Final;
    hide FieldStat;
    hide Plotted;
    hide Tells;
    StateTells(m, model, fs[k], bs[k], f, from, to);
  }

  /** Each band made of summaries tells what the samples of its frames are, and reaches
      from where the first of them begins to where the last ends. */
  lemma BandTells(m: Meter, model: Schema, f: nat, fs: seq<DataFrame>, bs: seq<Batch>, stats: seq<D.FrameStat>,
                  out: seq<S.State>, at: seq<nat>, from: real, to: real, r: nat) returns (k: nat, l: nat)
    requires f < |model.fields| && Plotted(model, f) && Summarised(m, model, f, fs, bs, stats)
    requires S.Grouped(out, S.Clipped(stats, from, to), at) && r < |out|
    ensures k < |bs| == |fs| && l < |bs|
    ensures Tells(out[r], Stats.Samples(m, model, bs[k], f, bs[k].count))
    ensures Tells(out[r], Stats.Samples(m, model, bs[l], f, bs[l].count))
    ensures out[r].x0 == S.Max(First(m, fs[k]), from) && out[r].x1 == S.Min(Final(m, fs[l]), to)
  {
    hide *;
    var i, j := BandEnds(out, S.Clipped(stats, from, to), at, r);
    k := ClippedFrom(stats, from, to, i);
    l := ClippedFrom(stats, from, to, j);
    StateOfFrame(m, model, f, fs, bs, stats, from, to, k);
    StateOfFrame(m, model, f, fs, bs, stats, from, to, l);
    GroupedAlike(out, S.Clipped(stats, from, to), at, i);
    GroupedAlike(out, S.Clipped(stats, from, to), at, j);
    TellsAlike(out[r], S.StateOf(stats[k], from, to), Stats.Samples(m, model, bs[k], f, bs[k].count));
    TellsAlike(out[r], S.StateOf(stats[l], from, to), Stats.Samples(m, model, bs[l], f, bs[l].count));
  }

  lemma GroupedAlike(out: seq<S.State>, s: seq<S.State>, at: seq<nat>, i: nat)
    requires S.Grouped(out, s, at) && i < |s|
    ensures |at| == |s| && at[i] < |out| && S.Mergeable(out[at[i]], s[i])
  {
    hide S.Mergeable;
  }

  /** And every frame the window reaches is told by one. */
  lemma FrameTold(m: Meter, model: Schema, f: nat, fs: seq<DataFrame>, bs: seq<Batch>, stats: seq<D.FrameStat>,
                  out: seq<S.State>, at: seq<nat>, from: real, to: real, k: nat) returns (r: nat)
    requires f < |model.fields| && Plotted(model, f) && Summarised(m, model, f, fs, bs, stats)
    requires S.Grouped(out, S.Clipped(stats, from, to), at) && from <= to
    requires k < |fs| == |bs| && First(m, fs[k]) <= Final(m, fs[k]) && from <= Final(m, fs[k]) && First(m, fs[k]) <= to
    ensures r < |out| && Tells(out[r], Stats.Samples(m, model, bs[k], f, bs[k].count))
  {
    hide *;
    SummarisedSizes(m, model, f, fs, bs, stats);
    StateOfFrame(m, model, f, fs, bs, stats, from, to, k);
    Ordered(First(m, fs[k]), Final(m, fs[k]), from, to);
    var i := ClippedHas(stats, from, to, k);
    GroupedAlike(out, S.Clipped(stats, from, to), at, i);
    r := at[i];
    TellsAlike(out[r], S.StateOf(stats[k], from, to), Stats.Samples(m, model, bs[k], f, bs[k].count));
  }

  lemma Ordered(first: real, final: real, from: real, to: real)
    requires first <= final && from <= final && first <= to && from <= to
    ensures S.Max(first, from) <= S.Min(final, to)
  {
  }

  // --- as it is done ---------------------------------------------------------------------------------------

  /** The samples of the window, as runs or as buckets. */
  ghost predicate ExactStates(lg: Logs, out: seq<S.State>, at: seq<nat>, s: seq<D.Sample>, from: real, to: real, n: nat, scale: Scale) {
    var w := D.Window(s, from, to);
    D.Sorted(s) ==>
      (|out| <= n && S.RunsOf(out, w, at) && (out != [] ==> out[|out| - 1].x1 == to)) ||
      S.Banded(lg, NewPos(from, to, n, scale), out, w)
  }

  /** From the frames the window touches: their samples when they are few enough to
      decode, and their summaries otherwise. */
  method WindowStates(q: Query, lg: Logs, u: bytes, f: nat, run: u32, from: real, to: real, size: int, budget: int)
    returns (r: Option<seq<S.State>>, exact: bool, ghost at: seq<nat>, ghost stats: seq<D.FrameStat>)
    requires q.Valid() && u in q.index.streams && f < |q.index.streams[u].model.fields| && LogLaws(lg)
    modifies q.acc, q.cache
    ensures q.Valid()
    ensures var fs := Touching(q.m, q.index.streams[u].frames, Some(run), from, to);
      if fs == [] then r == Some([]) && exact else exact == (|fs| <= budget)
    ensures var fs := Touching(q.m, q.index.streams[u].frames, Some(run), from, to);
      Servable(q.z, q.m, q.file, fs) && old(Faithful(q.z, q.file, q.cache.list)) ==>
        Faithful(q.z, q.file, q.cache.list) && r.Some?
    ensures var st := q.index.streams[u];
      var fs := Touching(q.m, st.frames, Some(run), from, to);
      var bs := Truth(q, fs);
      fs != [] && exact && Servable(q.z, q.m, q.file, fs) && old(Faithful(q.z, q.file, q.cache.list)) ==>
        r.Some? && ExactStates(lg, r.value, at, Series(q.m, st.model, f, bs, OnTicks(bs), Origin(q.index.epoch)), from, to,
                               Points(size), ScaleOf(st))
    ensures var st := q.index.streams[u];
      var fs := Touching(q.m, st.frames, Some(run), from, to);
      fs != [] && !exact && Servable(q.z, q.m, q.file, fs) ==>
        r.Some? && Summarised(q.m, st.model, f, fs, Truth(q, fs), stats) &&
        S.Grouped(r.value, S.Clipped(stats, from, to), at) &&
        (S.InTurn(stats) ==> S.AllAdmitted(r.value, stats, from, to))
  {
    hide *;
    var m, st, epoch := q.m, q.index.streams[u], Origin(q.index.epoch);
    var fs := RecordFrames(m, st, Some(run), from, to);
    ghost var truth := Truth(q, fs);
    ghost var given := Servable(q.z, m, q.file, fs);
    ghost var good := given && Faithful(q.z, q.file, q.cache.list);
    stats, at := [], [];
    if fs == [] { return Some([]), true, at, stats; }
    if given { TruthGiven(q, fs); }
    if |fs| <= budget {
      var bs := q.Batches(fs);
      if bs == None { return None, true, at, stats; }
      if good { SameGiven(q.z, q.file, fs, bs.value, truth); }
      var s := SeriesFrom(m, st.model, f, bs.value, epoch);
      var out;
      out, at := S.Categorical(lg, s, from, to, size, ScaleOf(st));
      ExactStatesIs(lg, out, at, s, from, to, size, ScaleOf(st));
      return Some(out), true, at, stats;
    }
    forall d | d in fs ensures d in st.frames { TouchingFrom(m, st.frames, Some(run), from, to, d); }
    var summaries := FrameStats(m, st, f, fs);
    stats := summaries;
    if given {
      IndexIs(q);
      LookedSummarises(q.z, m, q.file, u, f, fs, truth, stats);
    }
    var out;
    out, at := S.CategoricalFromStats(summaries, from, to);
    return Some(out), false, at, stats;
  }

  /** Every record of the run decodes, and its frames are straight and of one kind. */
  ghost predicate RunDecodes(q: Query, u: bytes, run: u32)
    requires u in q.index.streams
  {
    var fs := OfRun(q.index.streams[u].frames, Some(run));
    RunStraight(q, u, run) && AllDecode(q.m, fs, Truth(q, fs), Origin(q.index.epoch))
  }

  /** Nothing of the run in the window is missed: where no state is drawn there is no
      sample, the exact reduction is of all of them, and the bands of the summaries admit
      every present one when the run never goes back. */
  ghost predicate StatesRun(lg: Logs, q: Query, u: bytes, f: nat, run: u32, from: real, to: real, size: int,
                            out: seq<S.State>, exact: bool, at: seq<nat>)
    requires u in q.index.streams && f < |q.index.streams[u].model.fields|
  {
    var st := q.index.streams[u];
    var s := RunSeries(q, u, f, run);
    RunDecodes(q, u, run) ==>
      (out == [] && D.Window(s, from, to) == []) ||
      (if exact then ExactStates(lg, out, at, s, from, to, Points(size), ScaleOf(st))
       else Plotted(st.model, f) && D.Sorted(s) ==>
         forall a :: a in D.Window(s, from, to) && a.v.Some? ==> S.Admitted(out, a.x, a.v.value))
  }

  lemma PickedDecode(m: Meter, fs: seq<DataFrame>, bs: seq<Batch>, epoch: int, from: real, to: real)
    requires AllDecode(m, fs, bs, epoch)
    ensures AllDecode(m, Touching(m, fs, None, from, to), Picked(m, fs, bs, from, to), epoch)
  {
    hide Decodes;
    hide Describes;
    hide Touching;
    hide Picked;
    var ts, ps := Touching(m, fs, None, from, to), Picked(m, fs, bs, from, to);
    forall k | 0 <= k < |ts| ensures Decodes(m, ps[k], epoch) && Describes(m, ts[k], ps[k], epoch) {
      var j := PickedAt(m, fs, bs, from, to, k);
      assert Decodes(m, bs[j], epoch) && Describes(m, fs[j], bs[j], epoch);
    }
  }

  lemma RunDecodesIs(q: Query, u: bytes, run: u32)
    requires u in q.index.streams && RunDecodes(q, u, run)
    ensures var fs := OfRun(q.index.streams[u].frames, Some(run));
      RunStraight(q, u, run) && AllDecode(q.m, fs, Truth(q, fs), Origin(q.index.epoch)) &&
      AllStraight(q.m, fs, Truth(q, fs), Origin(q.index.epoch))
  {
    hide AllDecode;
    hide AllStraight;
    hide Truth;
  }

  lemma ExactStatesSame(lg: Logs, out: seq<S.State>, at: seq<nat>, t: seq<D.Sample>, s: seq<D.Sample>, from: real, to: real,
                        n: nat, scale: Scale)
    requires ExactStates(lg, out, at, t, from, to, n, scale)
    requires D.Window(t, from, to) == D.Window(s, from, to) && (D.Sorted(s) ==> D.Sorted(t))
    ensures ExactStates(lg, out, at, s, from, to, n, scale)
  {
    hide D.Window;
    hide D.Sorted;
    hide S.RunsOf;
    hide S.Banded;
  }

  lemma StatesIs(lg: Logs, q: Query, u: bytes, f: nat, run: u32, from: real, to: real, size: int,
                 out: seq<S.State>, exact: bool, at: seq<nat>)
    requires u in q.index.streams && f < |q.index.streams[u].model.fields|
    requires var st := q.index.streams[u];
      var s := RunSeries(q, u, f, run);
      RunDecodes(q, u, run) ==>
        (out == [] && D.Window(s, from, to) == []) ||
        (if exact then ExactStates(lg, out, at, s, from, to, Points(size), ScaleOf(st))
         else Plotted(st.model, f) && D.Sorted(s) ==>
           forall a :: a in D.Window(s, from, to) && a.v.Some? ==> S.Admitted(out, a.x, a.v.value))
    ensures StatesRun(lg, q, u, f, run, from, to, size, out, exact, at)
  {
    hide RunDecodes;
    hide RunSeries;
    hide ExactStates;
    hide S.Admitted;
    hide Plotted;
    hide D.Window;
    hide D.Sorted;
  }

  lemma StatesTheRun(lg: Logs, q: Query, u: bytes, f: nat, run: u32, from: real, to: real, size: int,
                     out: seq<S.State>, exact: bool, at: seq<nat>, stats: seq<D.FrameStat>)
    requires LogLaws(lg) && u in q.index.streams && f < |q.index.streams[u].model.fields|
    requires Servable(q.z, q.m, q.file, OfRun(q.index.streams[u].frames, Some(run)))
    requires var st := q.index.streams[u];
      var fs := Touching(q.m, st.frames, Some(run), from, to);
      var bs := Truth(q, fs);
      if fs == [] then out == []
      else if exact then ExactStates(lg, out, at, Series(q.m, st.model, f, bs, OnTicks(bs), Origin(q.index.epoch)), from, to,
                                     Points(size), ScaleOf(st))
      else Summarised(q.m, st.model, f, fs, bs, stats) && (S.InTurn(stats) ==> S.AllAdmitted(out, stats, from, to))
    ensures StatesRun(lg, q, u, f, run, from, to, size, out, exact, at)
  {
    hide *;
    if RunDecodes(q, u, run) {
      RunDecodesIs(q, u, run);
      RunWindow(q, u, f, run, from, to);
      var st, epoch := q.index.streams[u], Origin(q.index.epoch);
      var all := OfRun(st.frames, Some(run));
      WindowMissesNothing(q, st, Some(run), from, to);
      TouchingOfRun(q.m, st.frames, Some(run), from, to);
      PickedDecode(q.m, all, Truth(q, all), epoch, from, to);
      var fs := Touching(q.m, st.frames, Some(run), from, to);
      var bs := Truth(q, fs);
      var t, s := Series(q.m, st.model, f, bs, OnTicks(bs), epoch), RunSeries(q, u, f, run);
      if exact {
        if fs != [] { ExactStatesSame(lg, out, at, t, s, from, to, Points(size), ScaleOf(st)); }
      } else if fs != [] && Plotted(st.model, f) && D.Sorted(s) {
        forall a | a in D.Window(s, from, to) && a.v.Some? ensures S.Admitted(out, a.x, a.v.value) {
          BandsSound(q.m, st.model, f, fs, bs, epoch, stats, out, from, to, a);
        }
      }
    }
    StatesIs(lg, q, u, f, run, from, to, size, out, exact, at);
  }

  /** An enumerated field over a window: from its samples when the window's frames are
      few enough to decode, and from their summaries otherwise. */
  method StatesOf(q: Query, lg: Logs, u: bytes, f: nat, run: u32, from: real, to: real, size: int, budget: int)
    returns (r: Option<seq<S.State>>, exact: bool, ghost at: seq<nat>, ghost stats: seq<D.FrameStat>)
    requires q.Valid() && u in q.index.streams && f < |q.index.streams[u].model.fields| && LogLaws(lg)
    modifies q.acc, q.cache
    ensures q.Valid()
    ensures var fs := Touching(q.m, q.index.streams[u].frames, Some(run), from, to);
      if fs == [] then r == Some([]) && exact else exact == (|fs| <= budget)
    ensures var fs := Touching(q.m, q.index.streams[u].frames, Some(run), from, to);
      Servable(q.z, q.m, q.file, fs) && old(Faithful(q.z, q.file, q.cache.list)) ==>
        Faithful(q.z, q.file, q.cache.list) && r.Some?
    ensures var st := q.index.streams[u];
      var fs := Touching(q.m, st.frames, Some(run), from, to);
      var bs := Truth(q, fs);
      fs != [] && exact && Servable(q.z, q.m, q.file, fs) && old(Faithful(q.z, q.file, q.cache.list)) ==>
        r.Some? && ExactStates(lg, r.value, at, Series(q.m, st.model, f, bs, OnTicks(bs), Origin(q.index.epoch)), from, to,
                               Points(size), ScaleOf(st))
    ensures var st := q.index.streams[u];
      var fs := Touching(q.m, st.frames, Some(run), from, to);
      fs != [] && !exact && Servable(q.z, q.m, q.file, fs) ==>
        r.Some? && Summarised(q.m, st.model, f, fs, Truth(q, fs), stats) &&
        S.Grouped(r.value, S.Clipped(stats, from, to), at) &&
        (S.InTurn(stats) ==> S.AllAdmitted(r.value, stats, from, to))
    ensures var fs := OfRun(q.index.streams[u].frames, Some(run));
      Servable(q.z, q.m, q.file, fs) && old(Faithful(q.z, q.file, q.cache.list)) ==>
        r.Some? && StatesRun(lg, q, u, f, run, from, to, size, r.value, exact, at)
  {
    hide *;
    ghost var fs := OfRun(q.index.streams[u].frames, Some(run));
    ghost var good := Servable(q.z, q.m, q.file, fs) && Faithful(q.z, q.file, q.cache.list);
    r, exact, at, stats := WindowStates(q, lg, u, f, run, from, to, size, budget);
    if good {
      TouchingServable(q, q.index.streams[u], Some(run), from, to);
      StatesTheRun(lg, q, u, f, run, from, to, size, r.value, exact, at, stats);
    }
  }

  lemma ExactStatesIs(lg: Logs, out: seq<S.State>, at: seq<nat>, s: seq<D.Sample>, from: real, to: real, size: int, scale: Scale)
    requires var w := D.Window(s, from, to);
      var n: nat := if size < 1 then 1 else size;
      D.Sorted(s) ==>
        (|out| <= n && S.RunsOf(out, w, at) && (out != [] ==> out[|out| - 1].x1 == to)) ||
        S.Banded(lg, NewPos(from, to, n, scale), out, w)
    ensures ExactStates(lg, out, at, s, from, to, Points(size), scale)
  {
    hide D.Window;
    hide D.Sorted;
    hide S.RunsOf;
    hide S.Banded;
  }
}
