/** What a page, a chart and a summary show of records laid out field by field: each its
    own bits and blobs, at its own place, in file order. */
module Views {
  import opened Bytes
  import opened Format
  import opened Records
  import opened Stats
  import opened Indexing
  import opened Paging
  import opened Tiers
  import opened Restored
  import Categories
  import Cells
  import D = Decimate

  // --- one record -----------------------------------------------------------------------------------------

  /** The parts a frame's records are laid out in. */
  datatype Sheet = Sheet(fixed: seq<bytes>, cells: seq<seq<bytes>>)

  /** The batch a reader makes of them. */
  ghost predicate Laid(s: Schema, b: Batch, p: Sheet) { b.schema == Norm(s) && Cells.Holds(b, p.fixed, p.cells) }

  predicate RowOf(s: Schema, p: Sheet, i: nat) {
    i < |p.fixed| == |p.cells| && |p.fixed[i]| == s.RecordBytes() && |p.cells[i]| == |s.fields|
  }

  /** The number a plain field of record `i` is drawn as. */
  function Seen(m: Meter, s: Schema, p: Sheet, i: nat, f: nat): Option<real>
    requires Plain(s, f) && RowOf(s, p, i)
  {
    m.number(DrawnBy(s.fields[f]), BitsOf(p.fixed[i], s.fields[f]))
  }

  /** A record of a page shows, at that place and of that run, what was laid out for
      record `i`. */
  ghost predicate Lists(s: Schema, p: Sheet, i: nat, x: real, runID: u32, r: Rec)
    requires RowOf(s, p, i)
  {
    r.axis == x && r.runID == runID && |r.cells| == |s.fields| &&
    forall f :: 0 <= f < |s.fields| ==> CellIs(s, p, i, f, r.cells[f])
  }

  ghost predicate CellIs(s: Schema, p: Sheet, i: nat, f: nat, a: Answer)
    requires RowOf(s, p, i) && f < |s.fields|
  {
    (Plain(s, f) ==> a == Answer.Value(BitsOf(p.fixed[i], s.fields[f]))) &&
    (s.fields[f].variable && !s.fields[f].guarded ==> a == Cells.CellValue(s.fields[f], p.cells[i][f]))
  }

  lemma LaidRow(s: Schema, b: Batch, p: Sheet, i: nat)
    requires Laid(s, b, p) && i < b.count
    ensures RowOf(s, p, i) && Record(b, i) == Some(p.fixed[i]) && b.schema == Norm(s) && Model(s).fields == Norm(s).fields
    ensures |Model(s).fields| == |s.fields|
    ensures i < |p.fixed| == |p.cells| && |p.fixed[i]| == s.RecordBytes() && |p.cells[i]| == |s.fields|
  {
    Cells.RecordBack(b, p.fixed, p.cells, i);
    Shapes(s, b, p, i);
    hide Cells.Holds;
    hide Record;
  }

  lemma Shapes(s: Schema, b: Batch, p: Sheet, i: nat)
    requires Laid(s, b, p) && i < b.count
    ensures RowOf(s, p, i)
  {
    hide Cells.LaidOut;
    hide TailsOf;
    assert p.fixed[i] in p.fixed && p.cells[i] in p.cells;
  }

  lemma CellSeen(s: Schema, b: Batch, p: Sheet, i: nat, f: nat)
    requires Laid(s, b, p) && i < b.count && f < |s.fields|
    ensures RowOf(s, p, i) && CellIs(s, p, i, f, Raw(b, i, f))
  {
    hide *;
    LaidRow(s, b, p, i);
    PlainAlike(s, f);
    if Plain(s, f) {
      PlainIs(s, f);
      Cells.RawFixed(b, i, f, p.fixed[i]);
      TypedIs(p.fixed[i], s.fields[f]);
    }
    NormKeeps(s.fields[f]);
    if s.fields[f].variable && !s.fields[f].guarded {
      LaidHolds(s, b, p);
      Cells.CellBack(b, p.fixed, p.cells, i, f);
      CellAlike(s.fields[f], p.cells[i][f]);
    }
    CellMakes(s, p, i, f, Raw(b, i, f));
  }

  lemma CellMakes(s: Schema, p: Sheet, i: nat, f: nat, a: Answer)
    requires RowOf(s, p, i) && f < |s.fields|
    requires Plain(s, f) ==> 0 < s.fields[f].bitWidth && s.fields[f].bitOffset + s.fields[f].bitWidth <= 8 * |p.fixed[i]|
    requires Plain(s, f) ==> a == Answer.Value(BitsOf(p.fixed[i], s.fields[f]))
    requires s.fields[f].variable && !s.fields[f].guarded ==> a == Cells.CellValue(s.fields[f], p.cells[i][f])
    ensures CellIs(s, p, i, f, a)
  {
    hide BitsOf;
    hide Cells.CellValue;
  }

  lemma LaidHolds(s: Schema, b: Batch, p: Sheet)
    requires Laid(s, b, p)
    ensures Cells.Holds(b, p.fixed, p.cells) && b.count == |p.fixed|
  {
    hide Cells.LaidOut;
    hide TailsOf;
  }

  lemma NormKeeps(f: Field)
    ensures NormField(f).variable == f.variable && NormField(f).guarded == f.guarded && NormField(f).dataType == f.dataType
  {
  }

  lemma CellAlike(f: Field, cell: bytes)
    ensures Cells.CellValue(NormField(f), cell) == Cells.CellValue(f, cell)
  {
  }

  lemma RowListed(m: Meter, s: Schema, b: Batch, p: Sheet, i: nat, epoch: int)
    requires Laid(s, b, p) && i < b.count && At(m, b, i, epoch).Some?
    ensures RowOf(s, p, i) && RecordAt(m, b, i, Model(s), epoch).Some?
    ensures Lists(s, p, i, At(m, b, i, epoch).value, b.runID, RecordAt(m, b, i, Model(s), epoch).value)
  {
    hide At;
    hide Raw;
    hide Laid;
    hide CellIs;
    LaidRow(s, b, p, i);
    forall f | 0 <= f < |s.fields| ensures CellIs(s, p, i, f, Raw(b, i, f)) { CellSeen(s, b, p, i, f); }
  }

  lemma SampleSeen(m: Meter, s: Schema, b: Batch, p: Sheet, i: nat, f: nat, epoch: int)
    requires Laid(s, b, p) && i < b.count && Plain(s, f) && At(m, b, i, epoch).Some?
    ensures f < |s.fields| == |Model(s).fields| && RowOf(s, p, i)
    ensures Number(m, Model(s), b, i, f) == Seen(m, s, p, i, f)
    ensures SampleAt(m, Model(s), f, b, i, b.schema.axisKind == AXIS_TIME, epoch)
         == [D.Sample(At(m, b, i, epoch).value, Seen(m, s, p, i, f))]
  {
    hide Laid;
    hide Axis;
    hide Number;
    hide BitsOf;
    hide DrawnBy;
    LaidRow(s, b, p, i);
    SampleIsBits(m, s, b, i, f, p.fixed[i]);
  }

  // --- frame after frame ----------------------------------------------------------------------------------

  /** Frames of one stream, each laid out, whose records all stand somewhere. */
  ghost predicate AllLaid(m: Meter, s: Schema, bs: seq<Batch>, ps: seq<Sheet>, epoch: int) {
    |bs| == |ps| && forall k :: 0 <= k < |bs| ==> Laid(s, bs[k], ps[k]) && Categories.Decodes(m, bs[k], epoch)
  }

  /** How many records the first `k` frames hold. */
  function Before(bs: seq<Batch>, k: nat): nat
    requires k <= |bs|
  {
    if k == 0 then 0 else Before(bs, k - 1) + bs[k - 1].count
  }

  lemma {:induction false} BeforePart(bs: seq<Batch>, n: nat, k: nat)
    requires k <= n <= |bs|
    ensures Before(bs[..n], k) == Before(bs, k) <= Before(bs, n)
    decreases n, k
  {
    if k > 0 { BeforePart(bs, n, k - 1); }
    if k < n { BeforePart(bs, n - 1, k); }
  }

  lemma BeforeAt(bs: seq<Batch>, k: nat, i: nat)
    requires k < |bs| && i < bs[k].count
    ensures Before(bs, k) + i < Before(bs, |bs|)
  {
    BeforePart(bs, |bs|, k + 1);
  }

  lemma LaidAt(m: Meter, s: Schema, bs: seq<Batch>, ps: seq<Sheet>, epoch: int, k: nat, i: nat)
    requires AllLaid(m, s, bs, ps, epoch) && k < |bs| && i < bs[k].count
    ensures |ps| == |bs| && Laid(s, bs[k], ps[k]) && RowOf(s, ps[k], i) && At(m, bs[k], i, epoch).Some?
    ensures bs[k].schema == Norm(s)
  {
    assert Laid(s, bs[k], ps[k]) && Categories.Decodes(m, bs[k], epoch);
    hide Laid;
    hide At;
    LaidRow(s, bs[k], ps[k], i);
  }

  lemma {:induction false} FrameDrawn(m: Meter, s: Schema, b: Batch, p: Sheet, f: nat, epoch: int, n: nat, i: nat)
    requires Laid(s, b, p) && Categories.Decodes(m, b, epoch) && Plain(s, f) && i < n <= b.count
    ensures f < |Model(s).fields| && RowOf(s, p, i) && At(m, b, i, epoch).Some?
    ensures var q := BatchSeries(m, Model(s), f, b, n, b.schema.axisKind == AXIS_TIME, epoch);
      |q| == n && q[i] == D.Sample(At(m, b, i, epoch).value, Seen(m, s, p, i, f))
  {
    hide Laid;
    hide At;
    hide SampleAt;
    hide Plain;
    hide Seen;
    hide RowOf;
    hide Model;
    SampleSeen(m, s, b, p, n - 1, f, epoch);
    SampleSeen(m, s, b, p, i, f, epoch);
    if n > 1 { FrameDrawn(m, s, b, p, f, epoch, n - 1, if i < n - 1 then i else 0); }
  }

  lemma NoneDrawn(m: Meter, s: Schema, b: Batch, f: nat, time: bool, epoch: int)
    requires f < |Model(s).fields| && b.count == 0
    ensures BatchSeries(m, Model(s), f, b, b.count, time, epoch) == []
  {
  }

  lemma FrameLength(m: Meter, s: Schema, b: Batch, p: Sheet, f: nat, epoch: int)
    requires Laid(s, b, p) && Categories.Decodes(m, b, epoch) && Plain(s, f)
    ensures f < |Model(s).fields|
    ensures |BatchSeries(m, Model(s), f, b, b.count, b.schema.axisKind == AXIS_TIME, epoch)| == b.count
  {
    hide *;
    PlainIs(s, f);
    PlainAlike(s, f);
    if b.count > 0 {
      FrameDrawn(m, s, b, p, f, epoch, b.count, 0);
    } else {
      NoneDrawn(m, s, b, f, b.schema.axisKind == AXIS_TIME, epoch);
    }
  }

  lemma LaidKind(m: Meter, s: Schema, bs: seq<Batch>, ps: seq<Sheet>, epoch: int, k: nat)
    requires AllLaid(m, s, bs, ps, epoch) && k < |bs|
    ensures |ps| == |bs| && Laid(s, bs[k], ps[k]) && Categories.Decodes(m, bs[k], epoch)
    ensures (bs[k].schema.axisKind == AXIS_TIME) == OnTicks(bs)
  {
    hide Categories.Decodes;
    hide Laid;
    assert Laid(s, bs[0], ps[0]) && Laid(s, bs[k], ps[k]);
    LaidSchema(s, bs[0], ps[0]);
    LaidSchema(s, bs[k], ps[k]);
  }

  lemma LaidSchema(s: Schema, b: Batch, p: Sheet)
    requires Laid(s, b, p)
    ensures b.schema == Norm(s)
  {
    hide Cells.Holds;
    hide Norm;
  }

  /** The samples of a chart are one a record, frame after frame: each where its record
      stands, with the number of its record's own bits. */
  lemma {:induction false} SeriesDrawn(m: Meter, s: Schema, bs: seq<Batch>, ps: seq<Sheet>, f: nat, epoch: int, k: nat, i: nat)
    requires AllLaid(m, s, bs, ps, epoch) && Plain(s, f) && k < |bs| && i < bs[k].count
    ensures f < |Model(s).fields| && |ps| == |bs| && RowOf(s, ps[k], i) && At(m, bs[k], i, epoch).Some?
    ensures var q := Series(m, Model(s), f, bs, OnTicks(bs), epoch);
      |q| == Before(bs, |bs|) && Before(bs, k) + i < |q| &&
      q[Before(bs, k) + i] == D.Sample(At(m, bs[k], i, epoch).value, Seen(m, s, ps[k], i, f))
  {
    hide *;
    LaidAt(m, s, bs, ps, epoch, k, i);
    PlainIs(s, f);
    PlainAlike(s, f);
    SeriesSize(m, s, bs, ps, f, epoch, |bs|);
    BeforeAt(bs, k, i);
    SeriesSize(m, s, bs, ps, f, epoch, k + 1);
    SeriesSize(m, s, bs, ps, f, epoch, k);
    LaidKind(m, s, bs, ps, epoch, k);
    FrameDrawn(m, s, bs[k], ps[k], f, epoch, bs[k].count, i);
    SeriesNext(m, s, bs, f, OnTicks(bs), epoch, k);
    SeriesPrefix(m, s, bs, f, OnTicks(bs), epoch, k + 1);
  }

  lemma SeriesNext(m: Meter, s: Schema, bs: seq<Batch>, f: nat, time: bool, epoch: int, k: nat)
    requires f < |Model(s).fields| && k < |bs|
    ensures Series(m, Model(s), f, bs[..k + 1], time, epoch)
         == Series(m, Model(s), f, bs[..k], time, epoch) + BatchSeries(m, Model(s), f, bs[k], bs[k].count, time, epoch)
  {
    hide BatchSeries;
    assert bs[..k + 1][..k] == bs[..k];
  }

  lemma {:induction false} SeriesPrefix(m: Meter, s: Schema, bs: seq<Batch>, f: nat, time: bool, epoch: int, k: nat)
    requires f < |Model(s).fields| && k <= |bs|
    ensures Series(m, Model(s), f, bs[..k], time, epoch) <= Series(m, Model(s), f, bs, time, epoch)
    decreases |bs| - k
  {
    hide Series;
    hide BatchSeries;
    if k < |bs| {
      SeriesNext(m, s, bs, f, time, epoch, k);
      SeriesPrefix(m, s, bs, f, time, epoch, k + 1);
    } else {
      assert bs[..k] == bs;
    }
  }

  lemma {:induction false} SeriesSize(m: Meter, s: Schema, bs: seq<Batch>, ps: seq<Sheet>, f: nat, epoch: int, n: nat)
    requires AllLaid(m, s, bs, ps, epoch) && Plain(s, f) && n <= |bs|
    ensures f < |Model(s).fields|
    ensures |Series(m, Model(s), f, bs[..n], OnTicks(bs), epoch)| == Before(bs, n)
    ensures n == |bs| ==> bs[..n] == bs
  {
    hide AllLaid;
    hide Laid;
    hide Categories.Decodes;
    hide BatchSeries;
    hide Plain;
    hide OnTicks;
    PlainIs(s, f);
    PlainAlike(s, f);
    hide Norm;
    if n > 0 {
      SeriesSize(m, s, bs, ps, f, epoch, n - 1);
      LaidKind(m, s, bs, ps, epoch, n - 1);
      FrameLength(m, s, bs[n - 1], ps[n - 1], f, epoch);
      SeriesNext(m, s, bs, f, OnTicks(bs), epoch, n - 1);
    }
  }

  // --- pages -----------------------------------------------------------------------------------------------

  lemma {:induction false} StandingAt(m: Meter, s: Schema, b: Batch, p: Sheet, epoch: int, n: nat, i: nat)
    requires Laid(s, b, p) && Categories.Decodes(m, b, epoch) && i < n <= b.count
    ensures RowOf(s, p, i) && At(m, b, i, epoch).Some?
    ensures var q := Standing(m, b, Model(s), epoch, n);
      |q| == n && Lists(s, p, i, At(m, b, i, epoch).value, b.runID, q[i])
  {
    hide Laid;
    hide At;
    hide RecordAt;
    hide Lists;
    RowListed(m, s, b, p, n - 1, epoch);
    RowListed(m, s, b, p, i, epoch);
    if n > 1 { StandingAt(m, s, b, p, epoch, n - 1, if i < n - 1 then i else 0); }
  }

  lemma StandingSize(m: Meter, s: Schema, b: Batch, p: Sheet, epoch: int)
    requires Laid(s, b, p) && Categories.Decodes(m, b, epoch)
    ensures |Standing(m, b, Model(s), epoch, b.count)| == b.count
  {
    if b.count > 0 { StandingAt(m, s, b, p, epoch, b.count, 0); }
  }

  lemma AllNext(m: Meter, s: Schema, bs: seq<Batch>, epoch: int, k: nat)
    requires k < |bs|
    ensures AllRecords(m, bs[..k + 1], Model(s), epoch)
         == AllRecords(m, bs[..k], Model(s), epoch) + Standing(m, bs[k], Model(s), epoch, bs[k].count)
  {
    hide Standing;
    assert bs[..k + 1][..k] == bs[..k];
  }

  lemma {:induction false} AllPrefix(m: Meter, s: Schema, bs: seq<Batch>, epoch: int, k: nat)
    requires k <= |bs|
    ensures AllRecords(m, bs[..k], Model(s), epoch) <= AllRecords(m, bs, Model(s), epoch)
    decreases |bs| - k
  {
    hide AllRecords;
    hide Standing;
    if k < |bs| {
      AllNext(m, s, bs, epoch, k);
      AllPrefix(m, s, bs, epoch, k + 1);
    } else {
      assert bs[..k] == bs;
    }
  }

  lemma {:induction false} AllSize(m: Meter, s: Schema, bs: seq<Batch>, ps: seq<Sheet>, epoch: int, n: nat)
    requires AllLaid(m, s, bs, ps, epoch) && n <= |bs|
    ensures |AllRecords(m, bs[..n], Model(s), epoch)| == Before(bs, n)
    ensures n == |bs| ==> bs[..n] == bs
  {
    hide AllLaid;
    hide Standing;
    if n > 0 {
      AllSize(m, s, bs, ps, epoch, n - 1);
      LaidKind(m, s, bs, ps, epoch, n - 1);
      StandingSize(m, s, bs[n - 1], ps[n - 1], epoch);
      AllNext(m, s, bs, epoch, n - 1);
    }
  }

  /** The records a page or an export is taken from are all there are, frame after frame:
      each at its place, with its run and what was laid out for it, field by field. */
  lemma RecordsListed(m: Meter, s: Schema, bs: seq<Batch>, ps: seq<Sheet>, epoch: int, k: nat, i: nat)
    requires AllLaid(m, s, bs, ps, epoch) && k < |bs| && i < bs[k].count
    ensures |ps| == |bs| && RowOf(s, ps[k], i) && At(m, bs[k], i, epoch).Some?
    ensures var q := AllRecords(m, bs, Model(s), epoch);
      |q| == Before(bs, |bs|) && Before(bs, k) + i < |q| &&
      Lists(s, ps[k], i, At(m, bs[k], i, epoch).value, bs[k].runID, q[Before(bs, k) + i])
  {
    hide *;
    LaidAt(m, s, bs, ps, epoch, k, i);
    AllSize(m, s, bs, ps, epoch, |bs|);
    BeforeAt(bs, k, i);
    AllSize(m, s, bs, ps, epoch, k + 1);
    AllSize(m, s, bs, ps, epoch, k);
    LaidKind(m, s, bs, ps, epoch, k);
    StandingAt(m, s, bs[k], ps[k], epoch, bs[k].count, i);
    AllNext(m, s, bs, epoch, k);
    AllPrefix(m, s, bs, epoch, k + 1);
  }

  // --- summaries -------------------------------------------------------------------------------------------

  /** What a plain field's summary is made of: of each record in turn the number it is
      drawn as, when it is one. */
  lemma {:induction false} SummaryOf(m: Meter, s: Schema, b: Batch, p: Sheet, f: nat, n: nat)
    requires Laid(s, b, p) && Plain(s, f) && 0 < n <= b.count
    ensures f < |Model(s).fields| && RowOf(s, p, n - 1)
    ensures Stats.Samples(m, Model(s), b, f, n) == Stats.Samples(m, Model(s), b, f, n - 1) +
      match Seen(m, s, p, n - 1, f) case None => [] case Some(v) => [v]
  {
    hide Laid;
    hide Number;
    hide BitsOf;
    hide DrawnBy;
    LaidRow(s, b, p, n - 1);
    SampleIsBits(m, s, b, n - 1, f, p.fixed[n - 1]);
  }
}
