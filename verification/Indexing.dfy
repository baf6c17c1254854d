/** The index of a file: where every frame is and what each DATA frame holds,
    defined on the events of a scan. */
module Indexing {
  import opened Bytes
  import opened Format
  import opened Frames
  import opened Records
  import opened Reading
  import opened Stats
  import Sample

  datatype FrameRef = FrameRef(offset: nat, len: nat, typ: byte, id: u16) {
    function Size(): nat { 12 + len }
  }

  const NOWHERE := FrameRef(0, 0, 0, 0)

  datatype Segment = Segment(
    index: nat, sync: FrameRef, schemas: map<u16, FrameRef>, uuids: map<u16, bytes>, runs: seq<FrameRef>)

  /** A float bound is its bits; a tick bound is relative to the file's epoch once
      the index is finished. */
  datatype DataFrame = DataFrame(
    ref: FrameRef, segment: nat, uuid: bytes, runID: u32, count: u32,
    time: bool, firstTick: int, lastTick: int, firstFloat: u64, lastFloat: u64)

  /** A restatement. `ticks` is absolute; `axis` is in the units of the frames. */
  datatype Restated = Restated(axis: real, runID: u32, offset: nat, vals: seq<Option<real>>, ticks: int)

  datatype Stream = Stream(
    model: Schema, records: nat, frames: seq<DataFrame>, stats: seq<seq<Stat>>, holds: seq<Restated>)

  datatype File = File(
    segments: seq<Segment>, data: seq<DataFrame>, streams: map<bytes, Stream>,
    epoch: Option<int>, truncated: bool, closed: bool)

  /** What a stream's model takes from a schema: all of it but the interval, which
      segments may restate. */
  function Model(s: Schema): Schema { Norm(s).(axisStep := 0) }

  function RefOf(e: Event): FrameRef { FrameRef(e.at, |e.frame.payload|, e.frame.typ, e.frame.id) }

  // --- segments -------------------------------------------------------------------------------

  function NewSegment(index: nat, sync: FrameRef): Segment { Segment(index, sync, map[], map[], []) }

  /** A segment to put something in: a file may not begin with one. */
  function SomeSegment(segs: seq<Segment>): (r: seq<Segment>)
    ensures |r| > 0
  {
    if segs == [] then [NewSegment(0, NOWHERE)] else segs
  }

  function Init<T>(s: seq<T>): seq<T>
    requires s != []
  {
    s[..|s| - 1]
  }

  function Last<T>(s: seq<T>): T
    requires s != []
  {
    s[|s| - 1]
  }

  function WithRun(s: Segment, r: FrameRef): Segment { s.(runs := s.runs + [r]) }

  function WithSchema(s: Segment, id: u16, r: FrameRef, uuid: bytes): Segment {
    s.(schemas := s.schemas[id := r], uuids := s.uuids[id := uuid])
  }

  function NextSegments(segs: seq<Segment>, e: Event): seq<Segment> {
    var some := SomeSegment(segs);
    if e.frame.typ == FRAME_SYNC then segs + [NewSegment(|segs|, RefOf(e))]
    else if e.frame.typ == FRAME_RUN then Init(some) + [WithRun(Last(some), RefOf(e))]
    else
      match e.out
      case Bound(s, id) => Init(some) + [WithSchema(Last(some), id, RefOf(e), s.uuid)]
      case Records(_, _) => some
      case _ => segs
  }

  function Segments(evs: seq<Event>): seq<Segment> {
    if evs == [] then [] else NextSegments(Segments(Init(evs)), Last(evs))
  }

  // --- DATA frames ------------------------------------------------------------------------------

  function Ticks(v: u64): int { Sample.Signed64(v) }

  function AxisOr(m: Meter, b: Batch, i: int, otherwise: u64): u64 {
    if i < 0 then otherwise
    else
      match Axis(m, b, i)
      case None => otherwise
      case Some(v) => v
  }

  function FrameOf(m: Meter, e: Event, segment: nat): DataFrame
    requires e.out.Records?
  {
    var b := e.out.batch;
    var time := b.schema.axisKind == AXIS_TIME;
    var last := b.count as int - 1;
    var lo := AxisOr(m, b, if last >= 0 then 0 else -1, 0);
    var hi := AxisOr(m, b, last, 0);
    DataFrame(RefOf(e), segment, b.schema.uuid, b.runID, b.count, time,
      if time then Ticks(lo) else 0, if time then Ticks(hi) else 0,
      if time then 0 else lo, if time then 0 else hi)
  }

  function Data(m: Meter, evs: seq<Event>): seq<DataFrame> {
    if evs == [] then []
    else
      Data(m, Init(evs)) +
      (if Last(evs).out.Records? then SegmentsSome(evs); [FrameOf(m, Last(evs), |Segments(evs)| - 1)] else [])
  }

  lemma SegmentsSome(evs: seq<Event>)
    ensures evs != [] && Last(evs).out.Records? ==> |Segments(evs)| > 0
  {
  }

  // --- the epoch ----------------------------------------------------------------------------------

  const MAX_TICK := 0x7FFF_FFFF_FFFF_FFFF

  /** The earlier of two epochs. */
  function Earlier(a: Option<int>, b: Option<int>): Option<int> {
    match (a, b)
    case (None, _) => b
    case (_, None) => a
    case (Some(x), Some(y)) => Some(if x <= y then x else y)
  }

  /** A frame's first tick, unless it is the largest there is. */
  function EpochOf(m: Meter, e: Event): Option<int> {
    if e.out.Records? && e.out.batch.schema.axisKind == AXIS_TIME && e.out.batch.count > 0 then
      match Axis(m, e.out.batch, 0)
      case None => None
      case Some(v) => if Ticks(v) < MAX_TICK then Some(Ticks(v)) else None
    else None
  }

  function Epoch(m: Meter, evs: seq<Event>): Option<int> {
    if evs == [] then None else Earlier(Epoch(m, Init(evs)), EpochOf(m, Last(evs)))
  }

  /** What rebasing subtracts. */
  function Origin(e: Option<int>): int {
    match e
    case None => 0
    case Some(t) => t
  }

  function Moved(d: DataFrame, delta: int): DataFrame {
    if d.time then d.(firstTick := d.firstTick + delta, lastTick := d.lastTick + delta) else d
  }

  function MovedAll(ds: seq<DataFrame>, delta: int): (r: seq<DataFrame>)
    ensures |r| == |ds|
    ensures forall i :: 0 <= i < |ds| ==> r[i] == Moved(ds[i], delta)
  {
    seq(|ds|, i requires 0 <= i < |ds| => Moved(ds[i], delta))
  }

  // --- streams --------------------------------------------------------------------------------------

  /** The stream an event is about, with the schema it shows. */
  function Shows(e: Event): Option<Schema> {
    match e.out
    case Bound(s, _) => Some(s)
    case Records(b, _) => Some(b.schema)
    case _ => None
  }

  function NextModels(ms: map<bytes, Schema>, e: Event): map<bytes, Schema> {
    match Shows(e)
    case None => ms
    case Some(s) => if s.uuid in ms then ms else ms[s.uuid := Model(s)]
  }

  /** Every stream by its first sight. */
  function Models(evs: seq<Event>): map<bytes, Schema> {
    if evs == [] then map[] else NextModels(Models(Init(evs)), Last(evs))
  }

  predicate IsOf(e: Event, u: bytes) { e.out.Records? && e.out.batch.schema.uuid == u }

  lemma ModelKnown(evs: seq<Event>, u: bytes)
    ensures evs != [] && IsOf(Last(evs), u) ==> u in Models(evs)
  {
  }

  /** A summary for each frame of a stream, in order. */
  function Rows(m: Meter, evs: seq<Event>, u: bytes): seq<seq<Stat>> {
    if evs == [] then []
    else
      ModelKnown(evs, u);
      Rows(m, Init(evs), u) + (if IsOf(Last(evs), u) then [StatRow(m, Models(evs)[u], Last(evs).out.batch)] else [])
  }

  predicate HoldsSomething(model: Schema) { exists i :: 0 <= i < |model.fields| && model.fields[i].hold }

  /** The values a restatement gives a stream. */
  function Values(m: Meter, model: Schema, h: Held): seq<Option<real>> {
    seq(|model.fields|, i requires 0 <= i < |model.fields| =>
      if i < |h.present| && h.present[i] then
        Drawn(m, model.fields[i], Raw(Batch(h.schema, h.runID, h.base, 1, h.record, h.tails), 0, i))
      else None)
  }

  predicate OnTime(model: Schema) { model.axisKind == AXIS_TIME }

  function RestatedOf(m: Meter, model: Schema, h: Held, offset: nat): Restated {
    var ticks := if OnTime(model) then Ticks(h.base) else 0;
    Restated(if OnTime(model) then ticks as real else m.float(h.base), h.runID, offset, Values(m, model, h), ticks)
  }

  predicate Restates(evs: seq<Event>, u: bytes)
    requires evs != []
  {
    var e := Last(evs);
    e.out.HeldValues? && e.out.held.schema.uuid == u && u in Models(evs) && HoldsSomething(Models(evs)[u])
  }

  function Holds(m: Meter, evs: seq<Event>, u: bytes): seq<Restated> {
    if evs == [] then []
    else
      Holds(m, Init(evs), u) +
      (if Restates(evs, u) then [RestatedOf(m, Models(evs)[u], Last(evs).out.held, Last(evs).at)] else [])
  }

  /** A time axis is moved onto the epoch. */
  function Based(model: Schema, epoch: Option<int>, h: Restated): Restated {
    match epoch
    case None => h
    case Some(t) => if OnTime(model) then h.(axis := (h.ticks - t) as real) else h
  }

  function BasedAll(model: Schema, epoch: Option<int>, hs: seq<Restated>): (r: seq<Restated>)
    ensures |r| == |hs|
    ensures forall i :: 0 <= i < |hs| ==> r[i] == Based(model, epoch, hs[i])
  {
    seq(|hs|, i requires 0 <= i < |hs| => Based(model, epoch, hs[i]))
  }

  function FramesFor(ds: seq<DataFrame>, u: bytes): seq<DataFrame> {
    if ds == [] then [] else FramesFor(Init(ds), u) + (if Last(ds).uuid == u then [Last(ds)] else [])
  }

  function Total(ds: seq<DataFrame>): nat { if ds == [] then 0 else Total(Init(ds)) + Last(ds).count }

  // --- a whole file -----------------------------------------------------------------------------------

  function Closed(evs: seq<Event>): bool { exists i :: 0 <= i < |evs| && evs[i].frame.typ == FRAME_END }

  function StreamOf(m: Meter, evs: seq<Event>, u: bytes): Stream
    requires u in Models(evs)
  {
    var epoch := Epoch(m, evs);
    var frames := FramesFor(MovedAll(Data(m, evs), -Origin(epoch)), u);
    Stream(Models(evs)[u], Total(frames), frames, Rows(m, evs, u), BasedAll(Models(evs)[u], epoch, Holds(m, evs, u)))
  }

  /** The index of a scan that met these events. */
  function IndexOf(m: Meter, evs: seq<Event>, truncated: bool): File {
    var epoch := Epoch(m, evs);
    File(Segments(evs), MovedAll(Data(m, evs), -Origin(epoch)),
         map u | u in Models(evs) :: StreamOf(m, evs, u),
         epoch, truncated, Closed(evs))
  }

  /** The index of a file, if it is one. */
  function IndexFile(z: Zip, m: Meter, file: bytes): Option<File> {
    match ScanFile(z, file)
    case None => None
    case Some(s) => Some(IndexOf(m, s.events, s.truncated))
  }
}
