/** Pages of records, and the export they are pages of. */
module Paging {
  import opened Bytes
  import opened Format
  import opened Frames
  import opened Records
  import opened Reading
  import opened Stats
  import opened Indexing
  import opened Query
  import Access
  import Merging
  import Resuming

  /** A record as a table shows it: where it stands, and each field before labels and
      units. */
  datatype Rec = Rec(axis: real, runID: u32, cells: seq<Answer>)

  datatype Page = Page(records: seq<Rec>, offset: nat, more: bool, total: nat, totalExact: bool, decoded: nat)

  // --- where records and frames stand ----------------------------------------------------------------------

  /** A record's position, in ticks from the file's epoch when its axis is time. */
  function At(m: Meter, b: Batch, i: nat, epoch: int): Option<real> {
    match Axis(m, b, i)
    case None => None
    case Some(v) => Some(if b.schema.axisKind == AXIS_TIME then (Ticks(v) - epoch) as real else m.float(v))
  }

  function First(m: Meter, f: DataFrame): real { if f.time then f.firstTick as real else m.float(f.firstFloat) }

  function Final(m: Meter, f: DataFrame): real { if f.time then f.lastTick as real else m.float(f.lastFloat) }

  predicate Overlaps(m: Meter, f: DataFrame, from: real, to: real) { Final(m, f) >= from && First(m, f) <= to }

  predicate Inside(m: Meter, f: DataFrame, from: real, to: real) { First(m, f) >= from && Final(m, f) <= to }

  /** `f` is the index's entry for a frame that holds `b`. */
  ghost predicate Describes(m: Meter, f: DataFrame, b: Batch, epoch: int) {
    exists e: Event, k: nat :: Entry(m, f, e, k, epoch) && e.out.batch == b
  }

  ghost predicate Entry(m: Meter, f: DataFrame, e: Event, k: nat, epoch: int) {
    e.out.Records? && f == Moved(FrameOf(m, e, k), -epoch)
  }

  lemma {:induction false} DataEntry(m: Meter, evs: seq<Event>, q: nat) returns (i: nat, k: nat)
    requires q < |Data(m, evs)|
    ensures i < |evs| && evs[i].out.Records? && Data(m, evs)[q] == FrameOf(m, evs[i], k)
    decreases |evs|
  {
    var pre := Init(evs);
    SegmentsSome(evs);
    hide FrameOf;
    hide Segments;
    if q < |Data(m, pre)| {
      i, k := DataEntry(m, pre, q);
    } else {
      i, k := |evs| - 1, |Segments(evs)| - 1;
    }
  }

  /** Every frame of an index is described by it. */
  lemma IndexDescribes(z: Zip, m: Meter, file: bytes, f: DataFrame, b: Batch)
    requires IndexFile(z, m, file).Some? && f in IndexFile(z, m, file).value.data
    requires BatchAt(z, file, f.ref.offset, b)
    ensures Describes(m, f, b, Origin(IndexFile(z, m, file).value.epoch))
  {
    hide *;
    Access.IndexedHeader(z, m, file);
    var evs := Access.EventsOf(z, file);
    Resuming.IndexFileIs(z, m, file);
    Access.EventsAre(z, file);
    var r := Replay(z, FRESH, WholeFrames(file[16..]), 16);
    Merging.IndexParts(m, evs, r.stopped || Leftover(file[16..]) != []);
    var epoch := Origin(Epoch(m, evs));
    var data := MovedAll(Data(m, evs), -epoch);
    var q :| 0 <= q < |data| && data[q] == f;
    var i, k := DataEntry(m, evs, q);
    EntryHere(m, f, evs[i], k, epoch);
    EntryGave(z, m, file, f, evs[i], k, epoch, i);
    OneBatchAt(z, file, f.ref.offset, b, evs[i].out.batch);
    DescribesMake(m, f, evs[i], k, epoch);
  }

  lemma EntryHere(m: Meter, f: DataFrame, e: Event, k: nat, epoch: int)
    requires e.out.Records? && f == Moved(FrameOf(m, e, k), -epoch)
    ensures Entry(m, f, e, k, epoch) && f.ref == RefOf(e) && f.ref.offset == e.at
  {
  }

  lemma EntryGave(z: Zip, m: Meter, file: bytes, f: DataFrame, e: Event, k: nat, epoch: int, i: nat)
    requires |file| >= 16 && i < |Access.EventsOf(z, file)| && Access.EventsOf(z, file)[i] == e
    requires e.out.Records? && f.ref.offset == e.at
    ensures BatchAt(z, file, f.ref.offset, e.out.batch)
  {
    hide Access.EventsOf;
    assert GaveAt(Access.EventsOf(z, file)[i], f.ref.offset, e.out.batch);
  }

  lemma DescribesMake(m: Meter, f: DataFrame, e: Event, k: nat, epoch: int)
    requires Entry(m, f, e, k, epoch)
    ensures e.out.Records? && Describes(m, f, e.out.batch, epoch)
  {
  }

  /** Every record of a frame decodes, and lies within the frame's extent. */
  ghost predicate Straight(m: Meter, f: DataFrame, b: Batch, epoch: int) {
    f.count == b.count && forall i :: 0 <= i < b.count ==> Between(m, f, b, i, epoch)
  }

  predicate Between(m: Meter, f: DataFrame, b: Batch, i: nat, epoch: int) {
    At(m, b, i, epoch).Some? && First(m, f) <= At(m, b, i, epoch).value <= Final(m, f)
  }

  /** Every record decodes, and none stands before an earlier one. */
  ghost predicate InOrder(m: Meter, b: Batch, epoch: int) {
    (forall i :: 0 <= i < b.count ==> At(m, b, i, epoch).Some?) &&
    forall i, j :: 0 <= i <= j < b.count ==> Before(m, b, i, j, epoch)
  }

  predicate Before(m: Meter, b: Batch, i: nat, j: nat, epoch: int) {
    At(m, b, i, epoch).Some? && At(m, b, j, epoch).Some? && At(m, b, i, epoch).value <= At(m, b, j, epoch).value
  }

  /** An axis that never goes back makes a frame straight. */
  lemma OrderedIsStraight(m: Meter, f: DataFrame, b: Batch, epoch: int)
    requires Describes(m, f, b, epoch) && InOrder(m, b, epoch)
    ensures Straight(m, f, b, epoch)
  {
    DescribedEnds(m, f, b, epoch);
    hide At;
    hide First;
    hide Final;
    hide Describes;
    var n := b.count;
    forall i | 0 <= i < n ensures Between(m, f, b, i, epoch) {
      assert Before(m, b, 0, i, epoch) && Before(m, b, i, n - 1, epoch);
    }
  }

  lemma DescribedEnds(m: Meter, f: DataFrame, b: Batch, epoch: int)
    requires Describes(m, f, b, epoch)
    ensures f.count == b.count && f.runID == b.runID && f.time == (b.schema.axisKind == AXIS_TIME)
    ensures b.count > 0 && At(m, b, 0, epoch).Some? ==> First(m, f) == At(m, b, 0, epoch).value
    ensures b.count > 0 && At(m, b, b.count - 1, epoch).Some? ==> Final(m, f) == At(m, b, b.count - 1, epoch).value
  {
    hide Axis;
  }

  // --- what there is to page through -------------------------------------------------------------------------

  function RecordAt(m: Meter, b: Batch, i: nat, model: Schema, epoch: int): Option<Rec> {
    match At(m, b, i, epoch)
    case None => None
    case Some(x) => Some(Rec(x, b.runID, seq(|model.fields|, f requires 0 <= f < |model.fields| => Raw(b, i, f))))
  }

  /** A record that is in the window, as a list. */
  function Shown(r: Option<Rec>, from: real, to: real): seq<Rec> {
    match r
    case None => []
    case Some(x) => if x.axis < from || x.axis > to then [] else [x]
  }

  /** What the first `n` records of a frame show. */
  function Kept(m: Meter, b: Batch, model: Schema, epoch: int, from: real, to: real, n: nat): (r: seq<Rec>)
    ensures |r| <= n
  {
    if n == 0 then []
    else Kept(m, b, model, epoch, from, to, n - 1) + Shown(RecordAt(m, b, n - 1, model, epoch), from, to)
  }

  /** A window's records, frame after frame. */
  function Visible(m: Meter, bs: seq<Batch>, model: Schema, epoch: int, from: real, to: real): seq<Rec> {
    if bs == [] then []
    else
      var n := |bs| - 1;
      Visible(m, bs[..n], model, epoch, from, to) + Kept(m, bs[n], model, epoch, from, to, bs[n].count)
  }

  /** A frame wholly inside the window shows exactly the records it declares. */
  lemma StraightInside(m: Meter, f: DataFrame, b: Batch, model: Schema, epoch: int, from: real, to: real)
    requires Straight(m, f, b, epoch) && Inside(m, f, from, to)
    ensures |Kept(m, b, model, epoch, from, to, b.count)| == f.count
  {
    hide At;
    hide First;
    hide Final;
    KeptAll(m, f, b, model, epoch, from, to, b.count);
  }

  lemma {:induction false} KeptAll(m: Meter, f: DataFrame, b: Batch, model: Schema, epoch: int, from: real, to: real, n: nat)
    requires Straight(m, f, b, epoch) && First(m, f) >= from && Final(m, f) <= to && n <= b.count
    ensures |Kept(m, b, model, epoch, from, to, n)| == n
  {
    hide At;
    hide First;
    hide Final;
    if n > 0 {
      KeptAll(m, f, b, model, epoch, from, to, n - 1);
      assert Between(m, f, b, n - 1, epoch);
    }
  }

  predicate Wanted(m: Meter, f: DataFrame, run: Option<u32>, from: real, to: real) {
    (run.Some? ==> f.runID == run.value) && Overlaps(m, f, from, to)
  }

  /** The frames a window touches, in file order. */
  function Touching(m: Meter, fs: seq<DataFrame>, run: Option<u32>, from: real, to: real): seq<DataFrame> {
    if fs == [] then []
    else
      var n := |fs| - 1;
      Touching(m, fs[..n], run, from, to) + if Wanted(m, fs[n], run, from, to) then [fs[n]] else []
  }

  method RecordFrames(m: Meter, st: Stream, run: Option<u32>, from: real, to: real) returns (out: seq<DataFrame>)
    ensures out == Touching(m, st.frames, run, from, to)
  {
    hide Overlaps;
    out := [];
    for i := 0 to |st.frames|
      invariant out == Touching(m, st.frames[..i], run, from, to)
    {
      assert st.frames[..i + 1][..i] == st.frames[..i];
      var f := st.frames[i];
      if run.Some? && f.runID != run.value { continue; }
      if Overlaps(m, f, from, to) { out := out + [f]; }
    }
    assert st.frames[..|st.frames|] == st.frames;
  }

  function Declared(fs: seq<DataFrame>): nat {
    if fs == [] then 0 else Declared(fs[..|fs| - 1]) + fs[|fs| - 1].count
  }

  method CountRecords(m: Meter, st: Stream, run: Option<u32>, from: real, to: real) returns (n: nat)
    ensures n == Declared(Touching(m, st.frames, run, from, to))
    ensures forall bs, epoch :: AllStraight(m, OfRun(st.frames, run), bs, epoch) ==>
      var there := |Within(AllRecords(m, bs, st.model, epoch), from, to)|;
      there <= n && (NoneStraddles(m, OfRun(st.frames, run), from, to) ==> there == n)
  {
    hide *;
    forall bs, epoch | AllStraight(m, OfRun(st.frames, run), bs, epoch)
      ensures var there, n := |Within(AllRecords(m, bs, st.model, epoch), from, to)|, Declared(Touching(m, st.frames, run, from, to));
        there <= n && (NoneStraddles(m, OfRun(st.frames, run), from, to) ==> there == n)
    {
      CountCovers(m, st, run, bs, epoch, from, to);
    }
    var fs := RecordFrames(m, st, run, from, to);
    n := 0;
    DeclaredNone(fs);
    for i := 0 to |fs|
      invariant n == Declared(fs[..i])
    {
      DeclaredNext(fs, i);
      n := n + fs[i].count;
    }
    assert fs[..|fs|] == fs;
  }

  lemma DeclaredNone(fs: seq<DataFrame>)
    ensures Declared(fs[..0]) == 0
  {
  }

  lemma DeclaredNext(fs: seq<DataFrame>, i: nat)
    requires i < |fs|
    ensures Declared(fs[..i + 1]) == Declared(fs[..i]) + fs[i].count
  {
    assert fs[..i + 1][..i] == fs[..i];
  }

  lemma CountCovers(m: Meter, st: Stream, run: Option<u32>, bs: seq<Batch>, epoch: int, from: real, to: real)
    requires AllStraight(m, OfRun(st.frames, run), bs, epoch)
    ensures var there, n := |Within(AllRecords(m, bs, st.model, epoch), from, to)|, Declared(Touching(m, st.frames, run, from, to));
      there <= n && (NoneStraddles(m, OfRun(st.frames, run), from, to) ==> there == n)
  {
    hide *;
    var fs := OfRun(st.frames, run);
    StraightLengths(m, fs, bs, epoch);
    TouchingOfRun(m, st.frames, run, from, to);
    PickedStraight(m, fs, bs, epoch, from, to);
    PickedShow(m, fs, bs, st.model, epoch, from, to);
    VisibleIsWithin(m, bs, st.model, epoch, from, to);
    DeclaredBounds(m, Touching(m, fs, None, from, to), Picked(m, fs, bs, from, to), st.model, epoch, from, to);
    WholeWindow(m, st.frames, run, from, to);
  }

  lemma StraightLengths(m: Meter, fs: seq<DataFrame>, bs: seq<Batch>, epoch: int)
    requires AllStraight(m, fs, bs, epoch)
    ensures |bs| == |fs|
  {
  }

  /** Frames and the batches they hold, all straight. */
  ghost predicate AllStraight(m: Meter, fs: seq<DataFrame>, bs: seq<Batch>, epoch: int) {
    |bs| == |fs| && forall k :: 0 <= k < |fs| ==> Straight(m, fs[k], bs[k], epoch)
  }

  ghost predicate AllInside(m: Meter, fs: seq<DataFrame>, from: real, to: real) {
    forall k :: 0 <= k < |fs| ==> Inside(m, fs[k], from, to)
  }

  /** No frame lies over an edge of the window: each is in it or out of it. */
  ghost predicate NoneStraddles(m: Meter, fs: seq<DataFrame>, from: real, to: real) {
    forall k :: 0 <= k < |fs| ==>
      (from <= First(m, fs[k]) && Final(m, fs[k]) <= to) || Final(m, fs[k]) < from || to < First(m, fs[k])
  }

  lemma {:induction false} NoneStraddlesNext(m: Meter, fs: seq<DataFrame>, from: real, to: real)
    requires fs != []
    ensures NoneStraddles(m, fs, from, to) <==>
      NoneStraddles(m, fs[..|fs| - 1], from, to) && NoneStraddles(m, [fs[|fs| - 1]], from, to)
  {
    var n := |fs| - 1;
    assert [fs[n]][0] == fs[n];
    forall k | 0 <= k < n ensures fs[..n][k] == fs[k] {}
  }

  lemma AllInsideJoin(m: Meter, fs: seq<DataFrame>, f: DataFrame, from: real, to: real)
    ensures AllInside(m, fs + [f], from, to) <==> AllInside(m, fs, from, to) && Inside(m, f, from, to)
  {
    hide Inside;
    assert (fs + [f])[..|fs|] == fs && (fs + [f])[..|fs| + 1] == fs + [f];
    InsideNext(m, fs + [f], from, to, |fs|);
  }

  lemma {:induction false} WholeWindow(m: Meter, fs: seq<DataFrame>, run: Option<u32>, from: real, to: real)
    ensures AllInside(m, Touching(m, fs, run, from, to), from, to) <==> NoneStraddles(m, OfRun(fs, run), from, to)
  {
    hide AllInside;
    hide NoneStraddles;
    if fs == [] {
      NothingStraddles(m, from, to);
    } else {
      var n := |fs| - 1;
      WholeWindow(m, fs[..n], run, from, to);
      var was, of := Touching(m, fs[..n], run, from, to), OfRun(fs[..n], run);
      if run == None || fs[n].runID == run.value {
        assert (of + [fs[n]])[..|of|] == of;
        NoneStraddlesNext(m, of + [fs[n]], from, to);
        OneStraddles(m, fs[n], from, to);
        AllInsideJoin(m, was, fs[n], from, to);
      }
      assert was + [] == was && of + [] == of;
    }
  }

  lemma NothingStraddles(m: Meter, from: real, to: real)
    ensures AllInside(m, [], from, to) && NoneStraddles(m, [], from, to)
  {
  }

  lemma OneStraddles(m: Meter, f: DataFrame, from: real, to: real)
    ensures NoneStraddles(m, [f], from, to) <==> !Overlaps(m, f, from, to) || Inside(m, f, from, to)
  {
    assert [f][0] == f;
  }

  /** The declared count is never too small, and is right when no frame spills over
      an edge of the window. */
  lemma {:induction false} DeclaredBounds(m: Meter, fs: seq<DataFrame>, bs: seq<Batch>, model: Schema, epoch: int, from: real, to: real)
    requires AllStraight(m, fs, bs, epoch)
    ensures |Visible(m, bs, model, epoch, from, to)| <= Declared(fs)
    ensures AllInside(m, fs, from, to) ==> |Visible(m, bs, model, epoch, from, to)| == Declared(fs)
  {
    hide Straight;
    hide Inside;
    hide Kept;
    if fs != [] {
      var n := |fs| - 1;
      DeclaredBounds(m, fs[..n], bs[..n], model, epoch, from, to);
      StraightCount(m, fs[n], bs[n], epoch);
      if AllInside(m, fs, from, to) { StraightInside(m, fs[n], bs[n], model, epoch, from, to); }
    }
  }

  lemma StraightCount(m: Meter, f: DataFrame, b: Batch, epoch: int)
    requires Straight(m, f, b, epoch)
    ensures f.count == b.count
  {
  }

  /** The batches a window's frames hold, by the full scan. */
  ghost function Truth(q: Query, fs: seq<DataFrame>): seq<Batch> {
    match Access.DecodedAll(q.z, q.file, SegmentsOf(q.z, q.m, q.file), fs)
    case None => []
    case Some(bs) => bs
  }

  lemma TruthGiven(q: Query, fs: seq<DataFrame>)
    requires Servable(q.z, q.m, q.file, fs)
    ensures AllGiven(q.z, q.file, fs, Truth(q, fs)) && |Truth(q, fs)| == |fs|
  {
    hide Servable;
    hide Access.DecodedAll;
    hide BatchAt;
    hide SegmentsOf;
    Served(q.z, q.m, q.file, fs);
  }

  // --- what a window leaves out ----------------------------------------------------------------------------------

  /** The frames of a run, wherever they stand; of every run when none is asked for. */
  function OfRun(fs: seq<DataFrame>, run: Option<u32>): seq<DataFrame> {
    if fs == [] then []
    else
      var n := |fs| - 1;
      OfRun(fs[..n], run) + if run == None || fs[n].runID == run.value then [fs[n]] else []
  }

  /** The records that stand anywhere, of the first `n` of a frame. */
  function Standing(m: Meter, b: Batch, model: Schema, epoch: int, n: nat): seq<Rec> {
    if n == 0 then []
    else
      Standing(m, b, model, epoch, n - 1) +
      match RecordAt(m, b, n - 1, model, epoch)
      case None => []
      case Some(x) => [x]
  }

  /** And of frame after frame. */
  function AllRecords(m: Meter, bs: seq<Batch>, model: Schema, epoch: int): seq<Rec> {
    if bs == [] then []
    else
      var n := |bs| - 1;
      AllRecords(m, bs[..n], model, epoch) + Standing(m, bs[n], model, epoch, bs[n].count)
  }

  /** Those between two places, ends included. */
  function Within(rs: seq<Rec>, from: real, to: real): seq<Rec> {
    if rs == [] then []
    else
      var n := |rs| - 1;
      Within(rs[..n], from, to) + if from <= rs[n].axis <= to then [rs[n]] else []
  }

  lemma {:induction false} WithinJoin(x: seq<Rec>, y: seq<Rec>, from: real, to: real)
    ensures Within(x + y, from, to) == Within(x, from, to) + Within(y, from, to)
    decreases |y|
  {
    if y == [] {
      assert x + y == x;
    } else {
      var n := |y| - 1;
      WithinJoin(x, y[..n], from, to);
      assert (x + y)[..|x| + n] == x + y[..n] && (x + y)[|x| + n] == y[n];
    }
  }

  lemma WithinOne(r: Rec, from: real, to: real)
    ensures Within([r], from, to) == Shown(Some(r), from, to)
  {
    assert [r][..0] == [];
  }

  lemma {:induction false} KeptIsWithin(m: Meter, b: Batch, model: Schema, epoch: int, from: real, to: real, n: nat)
    ensures Kept(m, b, model, epoch, from, to, n) == Within(Standing(m, b, model, epoch, n), from, to)
  {
    hide RecordAt;
    hide Shown;
    if n > 0 {
      KeptIsWithin(m, b, model, epoch, from, to, n - 1);
      var was, r := Standing(m, b, model, epoch, n - 1), RecordAt(m, b, n - 1, model, epoch);
      if r.Some? {
        WithinJoin(was, [r.value], from, to);
        WithinOne(r.value, from, to);
      } else {
        assert was + [] == was;
        NothingShown(Within(was, from, to), r, from, to);
      }
    }
  }

  lemma {:induction false} VisibleIsWithin(m: Meter, bs: seq<Batch>, model: Schema, epoch: int, from: real, to: real)
    ensures Visible(m, bs, model, epoch, from, to) == Within(AllRecords(m, bs, model, epoch), from, to)
  {
    hide Kept;
    hide Standing;
    hide Within;
    if bs == [] {
      WithinNone(from, to);
    } else {
      var n := |bs| - 1;
      VisibleIsWithin(m, bs[..n], model, epoch, from, to);
      KeptIsWithin(m, bs[n], model, epoch, from, to, bs[n].count);
      WithinJoin(AllRecords(m, bs[..n], model, epoch), Standing(m, bs[n], model, epoch, bs[n].count), from, to);
    }
  }

  lemma WithinNone(from: real, to: real)
    ensures Within([], from, to) == []
  {
  }

  /** The batches of the frames a window touches. */
  function Picked(m: Meter, fs: seq<DataFrame>, bs: seq<Batch>, from: real, to: real): (r: seq<Batch>)
    requires |bs| == |fs|
    ensures |r| == |Touching(m, fs, None, from, to)|
  {
    if fs == [] then []
    else
      var n := |fs| - 1;
      Picked(m, fs[..n], bs[..n], from, to) + if Overlaps(m, fs[n], from, to) then [bs[n]] else []
  }

  /** Where a picked batch comes from. */
  lemma {:induction false} PickedAt(m: Meter, fs: seq<DataFrame>, bs: seq<Batch>, from: real, to: real, k: nat) returns (j: nat)
    requires |bs| == |fs| && k < |Picked(m, fs, bs, from, to)|
    ensures j < |fs| && Touching(m, fs, None, from, to)[k] == fs[j] && Picked(m, fs, bs, from, to)[k] == bs[j]
  {
    hide Overlaps;
    var n := |fs| - 1;
    if k < |Picked(m, fs[..n], bs[..n], from, to)| {
      j := PickedAt(m, fs[..n], bs[..n], from, to, k);
    } else {
      j := n;
    }
  }

  lemma {:induction false} TouchingOfRun(m: Meter, fs: seq<DataFrame>, run: Option<u32>, from: real, to: real)
    ensures Touching(m, fs, run, from, to) == Touching(m, OfRun(fs, run), None, from, to)
  {
    hide Overlaps;
    if fs != [] {
      var n := |fs| - 1;
      TouchingOfRun(m, fs[..n], run, from, to);
      var was := OfRun(fs[..n], run);
      if run == None || fs[n].runID == run.value {
        assert (was + [fs[n]])[..|was|] == was;
      } else {
        assert was + [] == was;
      }
    }
  }

  /** A straight frame that a window does not touch has no record in it. */
  lemma {:induction false} OutsideNothing(m: Meter, f: DataFrame, b: Batch, model: Schema, epoch: int, from: real, to: real, n: nat)
    requires Straight(m, f, b, epoch) && !Overlaps(m, f, from, to) && n <= b.count
    ensures Kept(m, b, model, epoch, from, to, n) == []
  {
    hide At;
    hide First;
    hide Final;
    if n > 0 {
      OutsideNothing(m, f, b, model, epoch, from, to, n - 1);
      assert Between(m, f, b, n - 1, epoch);
    }
  }

  lemma {:induction false} PickedStraight(m: Meter, fs: seq<DataFrame>, bs: seq<Batch>, epoch: int, from: real, to: real)
    requires AllStraight(m, fs, bs, epoch)
    ensures AllStraight(m, Touching(m, fs, None, from, to), Picked(m, fs, bs, from, to), epoch)
  {
    hide Straight;
    hide Overlaps;
    if fs != [] {
      var n := |fs| - 1;
      PickedStraight(m, fs[..n], bs[..n], epoch, from, to);
      assert Straight(m, fs[n], bs[n], epoch);
    }
  }

  lemma {:induction false} PickedGiven(z: Zip, m: Meter, file: bytes, fs: seq<DataFrame>, bs: seq<Batch>, from: real, to: real)
    requires AllGiven(z, file, fs, bs)
    ensures AllGiven(z, file, Touching(m, fs, None, from, to), Picked(m, fs, bs, from, to))
  {
    hide BatchAt;
    hide Overlaps;
    if fs != [] {
      var n := |fs| - 1;
      PickedGiven(z, m, file, fs[..n], bs[..n], from, to);
      assert BatchAt(z, file, fs[n].ref.offset, bs[n]);
    }
  }

  /** Leaving out the frames a window does not touch loses none of its records. */
  lemma {:induction false} PickedShow(m: Meter, fs: seq<DataFrame>, bs: seq<Batch>, model: Schema, epoch: int, from: real, to: real)
    requires AllStraight(m, fs, bs, epoch)
    ensures Visible(m, Picked(m, fs, bs, from, to), model, epoch, from, to) == Visible(m, bs, model, epoch, from, to)
  {
    hide Straight;
    hide Kept;
    hide Overlaps;
    if fs != [] {
      var n := |fs| - 1;
      PickedShow(m, fs[..n], bs[..n], model, epoch, from, to);
      var was := Picked(m, fs[..n], bs[..n], from, to);
      if Overlaps(m, fs[n], from, to) {
        assert (was + [bs[n]])[..|was|] == was;
      } else {
        assert Straight(m, fs[n], bs[n], epoch);
        OutsideNothing(m, fs[n], bs[n], model, epoch, from, to, bs[n].count);
        assert was + [] == was && Visible(m, bs[..n], model, epoch, from, to) + [] == Visible(m, bs[..n], model, epoch, from, to);
      }
    }
  }

  lemma TouchingServable(q: Query, st: Stream, run: Option<u32>, from: real, to: real)
    requires Servable(q.z, q.m, q.file, OfRun(st.frames, run))
    ensures Servable(q.z, q.m, q.file, Touching(q.m, st.frames, run, from, to))
  {
    hide *;
    TouchingOfRun(q.m, st.frames, run, from, to);
    TouchingAmong(q.m, OfRun(st.frames, run), from, to);
    ServableSome(q.z, q.m, q.file, OfRun(st.frames, run), Touching(q.m, st.frames, run, from, to));
  }

  /** Of a run whose frames are all straight, the frames a window touches show every
      record of the run that stands in it. */
  lemma WindowMissesNothing(q: Query, st: Stream, run: Option<u32>, from: real, to: real)
    requires var fs := OfRun(st.frames, run);
      Servable(q.z, q.m, q.file, fs) && AllStraight(q.m, fs, Truth(q, fs), Origin(q.index.epoch))
    ensures var fs, epoch := OfRun(st.frames, run), Origin(q.index.epoch);
      var ts := Touching(q.m, st.frames, run, from, to);
      Servable(q.z, q.m, q.file, ts) && Truth(q, ts) == Picked(q.m, fs, Truth(q, fs), from, to) &&
      AllStraight(q.m, ts, Truth(q, ts), epoch) &&
      Visible(q.m, Truth(q, ts), st.model, epoch, from, to) == Within(AllRecords(q.m, Truth(q, fs), st.model, epoch), from, to)
  {
    hide *;
    var fs, epoch := OfRun(st.frames, run), Origin(q.index.epoch);
    var bs, ts := Truth(q, fs), Touching(q.m, st.frames, run, from, to);
    TouchingOfRun(q.m, st.frames, run, from, to);
    TruthGiven(q, fs);
    TouchingAmong(q.m, fs, from, to);
    ServableSome(q.z, q.m, q.file, fs, ts);
    TruthGiven(q, ts);
    PickedGiven(q.z, q.m, q.file, fs, bs, from, to);
    SameGiven(q.z, q.file, ts, Truth(q, ts), Picked(q.m, fs, bs, from, to));
    PickedStraight(q.m, fs, bs, epoch, from, to);
    PickedShow(q.m, fs, bs, st.model, epoch, from, to);
    VisibleIsWithin(q.m, bs, st.model, epoch, from, to);
  }

  lemma {:induction false} TouchingAmong(m: Meter, fs: seq<DataFrame>, from: real, to: real)
    ensures forall d :: d in Touching(m, fs, None, from, to) ==> d in fs
  {
    hide Overlaps;
    if fs != [] {
      TouchingAmong(m, fs[..|fs| - 1], from, to);
      assert forall d :: d in fs[..|fs| - 1] ==> d in fs;
    }
  }

  // --- a page as it fills ----------------------------------------------------------------------------------------

  /** After `passed`: still skipping, or holding all that came after the offset. */
  predicate Paged(recs: seq<Rec>, skip: nat, passed: seq<Rec>, offset: nat, limit: nat) {
    if skip > 0 then recs == [] && |passed| + skip == offset
    else offset <= |passed| && recs == passed[offset..] && |recs| <= limit
  }

  /** The page is what it should be: the offset's slice of the export, with more to
      come exactly when there is more. */
  predicate Exact(p: Page, all: seq<Rec>, limit: nat) {
    var lo := if p.offset <= |all| then p.offset else |all|;
    var hi := if p.offset + limit <= |all| then p.offset + limit else |all|;
    lo <= hi && p.records == all[lo..hi] && (p.more <==> hi < |all|)
  }

  /** The budget ran out: as much of the slice as was decoded. */
  predicate Short(p: Page, all: seq<Rec>, limit: nat) {
    p.more && |p.records| <= limit &&
    (p.records == [] || (p.offset + |p.records| <= |all| && p.records == all[p.offset..p.offset + |p.records|]))
  }

  lemma PagedStart(offset: nat, limit: nat)
    ensures Paged([], offset, [], offset, limit)
  {
  }

  lemma PagedSkip(skip: nat, recs: seq<Rec>, passed: seq<Rec>, more: seq<Rec>, offset: nat, limit: nat)
    requires Paged(recs, skip, passed, offset, limit) && |more| <= skip
    ensures Paged(recs, skip - |more|, passed + more, offset, limit)
  {
    if skip == 0 { assert passed + more == passed; }
    if skip > 0 && |more| == skip { assert (passed + more)[offset..] == []; }
  }

  lemma PagedOne(skip: nat, recs: seq<Rec>, passed: seq<Rec>, r: Rec, offset: nat, limit: nat)
    requires Paged(recs, skip, passed, offset, limit)
    ensures skip > 0 ==> Paged(recs, skip - 1, passed + [r], offset, limit)
    ensures skip == 0 && |recs| < limit ==> Paged(recs + [r], 0, passed + [r], offset, limit)
  {
    if skip == 0 { assert (passed + [r])[offset..] == passed[offset..] + [r]; }
    if skip == 1 { assert (passed + [r])[offset..] == []; }
  }

  /** A full page, and at least one record after it. */
  predicate Full(recs: seq<Rec>, all: seq<Rec>, offset: nat, limit: nat) {
    |recs| == limit && offset + limit < |all| && recs == all[offset..offset + limit]
  }

  lemma PagedFull(recs: seq<Rec>, passed: seq<Rec>, all: seq<Rec>, offset: nat, limit: nat)
    requires Paged(recs, 0, passed, offset, limit) && |recs| == limit && passed <= all && passed != all
    ensures Full(recs, all, offset, limit)
  {
    assert passed == all[..|passed|];
    assert all[offset..offset + limit] == passed[offset..];
  }

  lemma FullExact(recs: seq<Rec>, part: seq<Rec>, all: seq<Rec>, offset: nat, limit: nat, p: Page)
    requires Full(recs, part, offset, limit) && part <= all && p.records == recs && p.offset == offset && p.more
    ensures Exact(p, all, limit)
  {
    assert part == all[..|part|];
    assert all[offset..offset + limit] == part[offset..offset + limit];
  }

  lemma PagedEnd(recs: seq<Rec>, skip: nat, all: seq<Rec>, offset: nat, limit: nat, p: Page)
    requires Paged(recs, skip, all, offset, limit) && p.records == recs && p.offset == offset && !p.more
    ensures Exact(p, all, limit)
  {
  }

  lemma PagedShort(recs: seq<Rec>, skip: nat, passed: seq<Rec>, all: seq<Rec>, offset: nat, limit: nat, p: Page)
    requires Paged(recs, skip, passed, offset, limit) && passed <= all
    requires p.records == recs && p.offset == offset && p.more
    ensures Short(p, all, limit)
  {
    assert passed == all[..|passed|];
  }

  // --- as it is done ---------------------------------------------------------------------------------------------

  lemma KeptNext(m: Meter, b: Batch, model: Schema, epoch: int, from: real, to: real, j: nat, passed: seq<Rec>)
    ensures passed + Kept(m, b, model, epoch, from, to, j + 1)
         == (passed + Kept(m, b, model, epoch, from, to, j)) + Shown(RecordAt(m, b, j, model, epoch), from, to)
  {
  }

  lemma {:induction false} KeptPrefix(m: Meter, b: Batch, model: Schema, epoch: int, from: real, to: real, i: nat, j: nat)
    requires i <= j
    ensures Kept(m, b, model, epoch, from, to, i) <= Kept(m, b, model, epoch, from, to, j)
  {
    hide Shown;
    if i < j { KeptPrefix(m, b, model, epoch, from, to, i, j - 1); }
  }

  lemma NothingShown(x: seq<Rec>, r: Option<Rec>, from: real, to: real)
    requires r == None || r.value.axis < from || r.value.axis > to
    ensures x + Shown(r, from, to) == x
  {
  }

  lemma SomethingShown(r: Option<Rec>, from: real, to: real)
    requires r.Some? && !(r.value.axis < from || r.value.axis > to)
    ensures Shown(r, from, to) == [r.value]
  {
  }

  /** Takes a decoded frame's records in the window, up to a full page. */
  method TakeRecords(m: Meter, b: Batch, model: Schema, epoch: int, from: real, to: real,
                     start: seq<Rec>, toSkip: nat, ghost passed: seq<Rec>, ghost offset: nat, limit: nat)
    returns (recs: seq<Rec>, skip: nat, full: bool)
    ensures Paged(start, toSkip, passed, offset, limit) ==>
      if full then Full(recs, passed + Kept(m, b, model, epoch, from, to, b.count), offset, limit)
      else Paged(recs, skip, passed + Kept(m, b, model, epoch, from, to, b.count), offset, limit)
  {
    hide RecordAt;
    hide Kept;
    hide Shown;
    hide Paged;
    hide Full;
    recs, skip, full := start, toSkip, false;
    ghost var good := Paged(start, toSkip, passed, offset, limit);
    KeptNone(m, b, model, epoch, from, to, passed);
    for j := 0 to b.count
      invariant good ==> Paged(recs, skip, passed + Kept(m, b, model, epoch, from, to, j), offset, limit)
    {
      var rec := RecordAt(m, b, j, model, epoch);
      ghost var now := passed + Kept(m, b, model, epoch, from, to, j);
      KeptNext(m, b, model, epoch, from, to, j, passed);
      if rec == None || rec.value.axis < from || rec.value.axis > to {
        NothingShown(now, rec, from, to);
        continue;
      }
      SomethingShown(rec, from, to);
      if good { PagedOne(skip, recs, now, rec.value, offset, limit); }
      if skip > 0 {
        skip := skip - 1;
        continue;
      }
      if |recs| == limit {
        if good {
          KeptPrefix(m, b, model, epoch, from, to, j + 1, b.count);
          FullHere(recs, now, rec.value, passed, Kept(m, b, model, epoch, from, to, j + 1),
                   Kept(m, b, model, epoch, from, to, b.count), offset, limit);
        }
        return recs, skip, true;
      }
      if good { PagedRoom(recs, now, offset, limit); }
      recs := recs + [rec.value];
    }
  }

  lemma KeptNone(m: Meter, b: Batch, model: Schema, epoch: int, from: real, to: real, passed: seq<Rec>)
    ensures passed + Kept(m, b, model, epoch, from, to, 0) == passed
  {
  }

  lemma PagedRoom(recs: seq<Rec>, passed: seq<Rec>, offset: nat, limit: nat)
    requires Paged(recs, 0, passed, offset, limit)
    ensures |recs| <= limit
  {
  }

  lemma FullHere(recs: seq<Rec>, now: seq<Rec>, r: Rec, passed: seq<Rec>, k: seq<Rec>, whole: seq<Rec>, offset: nat, limit: nat)
    requires Paged(recs, 0, now, offset, limit) && |recs| == limit && passed + k == now + [r] && k <= whole
    ensures Full(recs, passed + whole, offset, limit)
  {
    assert passed + whole == (passed + k) + whole[|k|..];
    PagedFull(recs, now, passed + whole, offset, limit);
  }

  /** One frame's batch, through the cache. */
  method FrameBatch(q: Query, ghost fs: seq<DataFrame>, f: DataFrame) returns (b: Option<Batch>)
    requires q.Valid() && f in fs
    modifies q.acc, q.cache
    ensures q.Valid()
    ensures Servable(q.z, q.m, q.file, fs) && old(Faithful(q.z, q.file, q.cache.list)) ==>
      Faithful(q.z, q.file, q.cache.list) && b.Some? && BatchAt(q.z, q.file, f.ref.offset, b.value)
  {
    hide *;
    ghost var good := Servable(q.z, q.m, q.file, fs) && Faithful(q.z, q.file, q.cache.list);
    if good { ServableSome(q.z, q.m, q.file, fs, [f]); }
    var bs := q.Batches([f]);
    if good { GivenOne(q.z, q.file, f, bs.value); }
    if bs == None || |bs.value| != 1 { return None; }
    return Some(bs.value[0]);
  }

  lemma GivenOne(z: Zip, file: bytes, f: DataFrame, bs: seq<Batch>)
    requires AllGiven(z, file, [f], bs)
    ensures |bs| == 1 && BatchAt(z, file, f.ref.offset, bs[0])
  {
    hide BatchAt;
  }

  lemma GivenAt(z: Zip, file: bytes, fs: seq<DataFrame>, bs: seq<Batch>, k: nat, b: Batch)
    requires AllGiven(z, file, fs, bs) && k < |fs| && BatchAt(z, file, fs[k].ref.offset, b)
    ensures |bs| == |fs| && bs[k] == b
  {
    hide BatchAt;
    OneBatchAt(z, file, fs[k].ref.offset, b, bs[k]);
  }

  const DEFAULT_RECORD_LIMIT: nat := 200

  /** What a page promises of the export it is a page of. */
  ghost predicate Promised(p: Page, spent: bool, all: seq<Rec>, limit: nat, budget: int) {
    (if spent then Short(p, all, limit) && p.decoded >= budget else Exact(p, all, limit)) &&
    |all| <= p.total && (p.totalExact ==> |all| == p.total)
  }

  /** The page, from the frames the window touches. Frames that lie inside the window
      are counted, not decoded, while they are being skipped. */
  method WindowPage(q: Query, st: Stream, run: Option<u32>, from: real, to: real, start: int, size: int, budget: int)
    returns (r: Option<Page>, ghost spent: bool)
    requires q.Valid()
    modifies q.acc, q.cache
    ensures q.Valid()
    ensures var fs := Touching(q.m, st.frames, run, from, to);
      Servable(q.z, q.m, q.file, fs) && old(Faithful(q.z, q.file, q.cache.list)) ==>
        Faithful(q.z, q.file, q.cache.list) && r.Some?
    ensures r.Some? ==> r.value.offset == (if start < 0 then 0 else start)
    ensures r.Some? ==> (r.value.totalExact <==> NoneStraddles(q.m, OfRun(st.frames, run), from, to))
    ensures var fs := Touching(q.m, st.frames, run, from, to);
      var epoch := Origin(q.index.epoch);
      Servable(q.z, q.m, q.file, fs) && old(Faithful(q.z, q.file, q.cache.list)) && AllStraight(q.m, fs, Truth(q, fs), epoch) ==>
        r.Some? && Promised(r.value, spent, Visible(q.m, Truth(q, fs), st.model, epoch, from, to),
                            if size <= 0 then DEFAULT_RECORD_LIMIT else size, budget)
  {
    hide *;
    spent := false;
    var limit := if size <= 0 then DEFAULT_RECORD_LIMIT else size;
    var offset := if start < 0 then 0 else start;
    var m, model, epoch := q.m, st.model, Origin(q.index.epoch);
    var fs := RecordFrames(m, st, run, from, to);
    ghost var truth := Truth(q, fs);
    ghost var good := Servable(q.z, m, q.file, fs) && Faithful(q.z, q.file, q.cache.list);
    ghost var straight := good && AllStraight(m, fs, truth, epoch);
    ghost var all := Visible(m, truth, model, epoch, from, to);
    var total, totalExact := Tally(m, fs, from, to);
    WholeWindow(m, st.frames, run, from, to);
    if good { TruthGiven(q, fs); }
    if straight { DeclaredBounds(m, fs, truth, model, epoch, from, to); }
    var recs: seq<Rec> := [];
    var skip: nat := offset;
    var decoded := 0;
    PagedStart(offset, limit);
    VisibleNone(m, truth, model, epoch, from, to);
    for k := 0 to |fs|
      invariant q.Valid()
      invariant good ==> Faithful(q.z, q.file, q.cache.list) && |truth| == |fs|
      invariant straight ==> Paged(recs, skip, Visible(m, truth[..k], model, epoch, from, to), offset, limit)
    {
      var f := fs[k];
      if skip >= f.count && Inside(m, f, from, to) {
        if straight { SkipFrame(m, fs, truth, model, epoch, from, to, k, recs, skip, offset, limit); }
        skip := skip - f.count;
        continue;
      }
      if decoded >= budget {
        spent := true;
        var p := Page(recs, offset, true, total, totalExact, decoded);
        if straight { SpentPage(m, truth, model, epoch, from, to, k, recs, skip, offset, limit, p, budget); }
        return Some(p), spent;
      }
      var b := FrameBatch(q, fs, f);
      if b == None { return None, spent; }
      decoded := decoded + 1;
      if good { GivenAt(q.z, q.file, fs, truth, k, b.value); }
      if straight { VisibleNext(m, truth, model, epoch, from, to, k); }
      ghost var passed := if straight then Visible(m, truth[..k], model, epoch, from, to) else [];
      var full;
      recs, skip, full := TakeRecords(m, b.value, model, epoch, from, to, recs, skip, passed, offset, limit);
      if full {
        var p := Page(recs, offset, true, total, totalExact, decoded);
        if straight { FullPage(m, truth, model, epoch, from, to, k, recs, offset, limit, p, budget); }
        return Some(p), spent;
      }
    }
    var p := Page(recs, offset, false, total, totalExact, decoded);
    if straight {
      WholeSeq(truth);
      PagedEnd(recs, skip, all, offset, limit, p);
      PromisedExact(p, all, limit, budget);
    }
    return Some(p), spent;
  }

  /** The page of the records of a run that stand in the window, when every frame of the
      run is straight. */
  ghost predicate PageOfRun(q: Query, st: Stream, run: Option<u32>, from: real, to: real, p: Page, spent: bool, limit: nat, budget: int) {
    var fs, epoch := OfRun(st.frames, run), Origin(q.index.epoch);
    AllStraight(q.m, fs, Truth(q, fs), epoch) ==>
      Promised(p, spent, Within(AllRecords(q.m, Truth(q, fs), st.model, epoch), from, to), limit, budget)
  }

  lemma PageIsOfRun(q: Query, st: Stream, run: Option<u32>, from: real, to: real, p: Page, spent: bool, limit: nat, budget: int)
    requires Servable(q.z, q.m, q.file, OfRun(st.frames, run))
    requires var fs, epoch := Touching(q.m, st.frames, run, from, to), Origin(q.index.epoch);
      AllStraight(q.m, fs, Truth(q, fs), epoch) ==>
        Promised(p, spent, Visible(q.m, Truth(q, fs), st.model, epoch, from, to), limit, budget)
    ensures PageOfRun(q, st, run, from, to, p, spent, limit, budget)
  {
    hide Servable;
    hide AllStraight;
    hide Truth;
    hide Promised;
    hide Visible;
    hide Within;
    hide OfRun;
    hide Touching;
    hide AllRecords;
    hide Picked;
    var fs := OfRun(st.frames, run);
    if AllStraight(q.m, fs, Truth(q, fs), Origin(q.index.epoch)) { WindowMissesNothing(q, st, run, from, to); }
  }

  /** One page of a window's records, from an offset. */
  method ReadPage(q: Query, st: Stream, run: Option<u32>, from: real, to: real, start: int, size: int, budget: int)
    returns (r: Option<Page>, ghost spent: bool)
    requires q.Valid()
    modifies q.acc, q.cache
    ensures q.Valid()
    ensures var fs := Touching(q.m, st.frames, run, from, to);
      Servable(q.z, q.m, q.file, fs) && old(Faithful(q.z, q.file, q.cache.list)) ==>
        Faithful(q.z, q.file, q.cache.list) && r.Some?
    ensures r.Some? ==> r.value.offset == (if start < 0 then 0 else start)
    ensures r.Some? ==> (r.value.totalExact <==> NoneStraddles(q.m, OfRun(st.frames, run), from, to))
    ensures var fs := Touching(q.m, st.frames, run, from, to);
      var epoch := Origin(q.index.epoch);
      Servable(q.z, q.m, q.file, fs) && old(Faithful(q.z, q.file, q.cache.list)) && AllStraight(q.m, fs, Truth(q, fs), epoch) ==>
        r.Some? && Promised(r.value, spent, Visible(q.m, Truth(q, fs), st.model, epoch, from, to),
                            if size <= 0 then DEFAULT_RECORD_LIMIT else size, budget)
    ensures Servable(q.z, q.m, q.file, OfRun(st.frames, run)) && old(Faithful(q.z, q.file, q.cache.list)) ==>
      r.Some? && PageOfRun(q, st, run, from, to, r.value, spent, if size <= 0 then DEFAULT_RECORD_LIMIT else size, budget)
  {
    hide *;
    ghost var good := Servable(q.z, q.m, q.file, OfRun(st.frames, run)) && Faithful(q.z, q.file, q.cache.list);
    r, spent := WindowPage(q, st, run, from, to, start, size, budget);
    if good {
      TouchingServable(q, st, run, from, to);
      PageIsOfRun(q, st, run, from, to, r.value, spent, if size <= 0 then DEFAULT_RECORD_LIMIT else size, budget);
    }
  }

  lemma SkipFrame(m: Meter, fs: seq<DataFrame>, bs: seq<Batch>, model: Schema, epoch: int, from: real, to: real, k: nat,
                  recs: seq<Rec>, skip: nat, offset: nat, limit: nat)
    requires AllStraight(m, fs, bs, epoch) && k < |fs| && skip >= fs[k].count && Inside(m, fs[k], from, to)
    requires |bs| == |fs| && Paged(recs, skip, Visible(m, bs[..k], model, epoch, from, to), offset, limit)
    ensures Paged(recs, skip - fs[k].count, Visible(m, bs[..k + 1], model, epoch, from, to), offset, limit)
  {
    hide *;
    VisibleNext(m, bs, model, epoch, from, to, k);
    StraightAt(m, fs, bs, epoch, k);
    StraightInside(m, fs[k], bs[k], model, epoch, from, to);
    PagedSkip(skip, recs, Visible(m, bs[..k], model, epoch, from, to), Kept(m, bs[k], model, epoch, from, to, bs[k].count),
              offset, limit);
  }

  lemma SpentPage(m: Meter, bs: seq<Batch>, model: Schema, epoch: int, from: real, to: real, k: nat,
                  recs: seq<Rec>, skip: nat, offset: nat, limit: nat, p: Page, budget: int)
    requires k <= |bs| && Paged(recs, skip, Visible(m, bs[..k], model, epoch, from, to), offset, limit)
    requires p.records == recs && p.offset == offset && p.more && p.decoded >= budget
    requires var all := Visible(m, bs, model, epoch, from, to); |all| <= p.total && (p.totalExact ==> |all| == p.total)
    ensures Promised(p, true, Visible(m, bs, model, epoch, from, to), limit, budget)
  {
    hide *;
    var all := Visible(m, bs, model, epoch, from, to);
    VisiblePrefix(m, bs, model, epoch, from, to, k);
    PagedShort(recs, skip, Visible(m, bs[..k], model, epoch, from, to), all, offset, limit, p);
    PromisedShort(p, all, limit, budget);
  }

  lemma FullPage(m: Meter, bs: seq<Batch>, model: Schema, epoch: int, from: real, to: real, k: nat,
                 recs: seq<Rec>, offset: nat, limit: nat, p: Page, budget: int)
    requires k < |bs| && Full(recs, Visible(m, bs[..k + 1], model, epoch, from, to), offset, limit)
    requires p.records == recs && p.offset == offset && p.more
    requires var all := Visible(m, bs, model, epoch, from, to); |all| <= p.total && (p.totalExact ==> |all| == p.total)
    ensures Promised(p, false, Visible(m, bs, model, epoch, from, to), limit, budget)
  {
    hide *;
    var all := Visible(m, bs, model, epoch, from, to);
    VisiblePrefix(m, bs, model, epoch, from, to, k + 1);
    FullExact(recs, Visible(m, bs[..k + 1], model, epoch, from, to), all, offset, limit, p);
    PromisedExact(p, all, limit, budget);
  }

  lemma WholeSeq<T>(s: seq<T>)
    ensures s[..|s|] == s
  {
  }

  method Tally(m: Meter, fs: seq<DataFrame>, from: real, to: real) returns (total: nat, whole: bool)
    ensures total == Declared(fs) && (whole <==> AllInside(m, fs, from, to))
  {
    hide Inside;
    total, whole := 0, true;
    for k := 0 to |fs|
      invariant total == Declared(fs[..k]) && (whole <==> AllInside(m, fs[..k], from, to))
    {
      assert fs[..k + 1][..k] == fs[..k];
      total := total + fs[k].count;
      if !Inside(m, fs[k], from, to) { whole := false; }
      InsideNext(m, fs, from, to, k);
    }
    assert fs[..|fs|] == fs;
  }

  lemma InsideNext(m: Meter, fs: seq<DataFrame>, from: real, to: real, k: nat)
    requires k < |fs|
    ensures AllInside(m, fs[..k + 1], from, to) <==> AllInside(m, fs[..k], from, to) && Inside(m, fs[k], from, to)
  {
    hide Inside;
    if AllInside(m, fs[..k + 1], from, to) {
      assert fs[..k + 1][k] == fs[k];
      forall i | 0 <= i < k ensures Inside(m, fs[..k][i], from, to) { assert fs[..k + 1][i] == fs[..k][i]; }
    }
  }

  lemma StraightAt(m: Meter, fs: seq<DataFrame>, bs: seq<Batch>, epoch: int, k: nat)
    requires AllStraight(m, fs, bs, epoch) && k < |fs|
    ensures |bs| == |fs| && Straight(m, fs[k], bs[k], epoch)
  {
  }

  lemma VisibleNone(m: Meter, bs: seq<Batch>, model: Schema, epoch: int, from: real, to: real)
    ensures Visible(m, bs[..0], model, epoch, from, to) == []
  {
  }

  lemma VisibleNext(m: Meter, bs: seq<Batch>, model: Schema, epoch: int, from: real, to: real, k: nat)
    requires k < |bs|
    ensures Visible(m, bs[..k + 1], model, epoch, from, to)
         == Visible(m, bs[..k], model, epoch, from, to) + Kept(m, bs[k], model, epoch, from, to, bs[k].count)
  {
    hide Kept;
    assert bs[..k + 1][..k] == bs[..k];
  }

  lemma {:induction false} VisiblePrefix(m: Meter, bs: seq<Batch>, model: Schema, epoch: int, from: real, to: real, k: nat)
    requires k <= |bs|
    ensures Visible(m, bs[..k], model, epoch, from, to) <= Visible(m, bs, model, epoch, from, to)
    decreases |bs| - k
  {
    hide Visible;
    hide Kept;
    if k < |bs| {
      VisibleNext(m, bs, model, epoch, from, to, k);
      VisiblePrefix(m, bs, model, epoch, from, to, k + 1);
    } else {
      assert bs[..k] == bs;
    }
  }

  lemma PromisedShort(p: Page, all: seq<Rec>, limit: nat, budget: int)
    requires Short(p, all, limit) && p.decoded >= budget && |all| <= p.total && (p.totalExact ==> |all| == p.total)
    ensures Promised(p, true, all, limit, budget)
  {
  }

  lemma PromisedExact(p: Page, all: seq<Rec>, limit: nat, budget: int)
    requires Exact(p, all, limit) && |all| <= p.total && (p.totalExact ==> |all| == p.total)
    ensures Promised(p, false, all, limit, budget)
  {
  }

  /** Every record of a window, in file order, decoded around the cache. What the
      caller is handed, one by one, is the list it ends with. */
  method EachRecord(q: Query, st: Stream, run: Option<u32>, from: real, to: real) returns (ok: bool, out: seq<Rec>)
    requires q.Valid()
    modifies q.acc
    ensures q.Valid()
    ensures var fs := Touching(q.m, st.frames, run, from, to);
      Servable(q.z, q.m, q.file, fs) ==>
        ok && out == Visible(q.m, Truth(q, fs), st.model, Origin(q.index.epoch), from, to)
    ensures var fs := OfRun(st.frames, run);
      var epoch := Origin(q.index.epoch);
      Servable(q.z, q.m, q.file, fs) && AllStraight(q.m, fs, Truth(q, fs), epoch) ==>
        ok && out == Within(AllRecords(q.m, Truth(q, fs), st.model, epoch), from, to)
  {
    hide *;
    ghost var ofRun := OfRun(st.frames, run);
    ghost var its := Truth(q, ofRun);
    if Servable(q.z, q.m, q.file, ofRun) && AllStraight(q.m, ofRun, its, Origin(q.index.epoch)) {
      WindowMissesNothing(q, st, run, from, to);
    }
    var m, model, epoch := q.m, st.model, Origin(q.index.epoch);
    var fs := RecordFrames(m, st, run, from, to);
    ghost var truth := Truth(q, fs);
    ghost var good := Servable(q.z, m, q.file, fs);
    if good { TruthGiven(q, fs); }
    out := [];
    VisibleNone(m, truth, model, epoch, from, to);
    for k := 0 to |fs|
      invariant q.Valid() && (good ==> |truth| == |fs|)
      invariant good ==> out == Visible(m, truth[..k], model, epoch, from, to)
    {
      var b := AroundCache(q, fs, fs[k]);
      if b == None { return false, out; }
      if good {
        GivenAt(q.z, q.file, fs, truth, k, b.value);
        VisibleNext(m, truth, model, epoch, from, to, k);
      }
      out := Visit(m, b.value, model, epoch, from, to, out);
    }
    if good { WholeSeq(truth); }
    return true, out;
  }

  method AroundCache(q: Query, ghost fs: seq<DataFrame>, f: DataFrame) returns (b: Option<Batch>)
    requires q.Valid() && f in fs
    modifies q.acc
    ensures q.Valid()
    ensures Servable(q.z, q.m, q.file, fs) ==> b.Some? && BatchAt(q.z, q.file, f.ref.offset, b.value)
  {
    hide IndexFile;
    hide Servable;
    hide Access.DecodedAll;
    hide AllGiven;
    hide SegmentsOf;
    hide BatchAt;
    ghost var good := Servable(q.z, q.m, q.file, fs);
    if good {
      ServableSome(q.z, q.m, q.file, fs, [f]);
      Served(q.z, q.m, q.file, [f]);
    }
    var bs := q.acc.Decode([f]);
    if good { GivenOne(q.z, q.file, f, bs.value); }
    if bs == None || |bs.value| != 1 { return None; }
    return Some(bs.value[0]);
  }

  method Visit(m: Meter, b: Batch, model: Schema, epoch: int, from: real, to: real, seen: seq<Rec>) returns (out: seq<Rec>)
    ensures out == seen + Kept(m, b, model, epoch, from, to, b.count)
  {
    hide RecordAt;
    hide Kept;
    hide Shown;
    out := seen;
    KeptNone(m, b, model, epoch, from, to, seen);
    for j := 0 to b.count
      invariant out == seen + Kept(m, b, model, epoch, from, to, j)
    {
      var rec := RecordAt(m, b, j, model, epoch);
      KeptNext(m, b, model, epoch, from, to, j, seen);
      if rec == None || rec.value.axis < from || rec.value.axis > to {
        NothingShown(out, rec, from, to);
        continue;
      }
      SomethingShown(rec, from, to);
      out := out + [rec.value];
    }
  }
}
