/** Extending a cached index over a file that has grown: the last segment is read
    again, and what the tail says from there replaces what was cached. */
module Growing {
  import opened Bytes
  import opened Format
  import opened Frames
  import opened Records
  import opened Reading
  import opened Stats
  import opened Indexing
  import opened Joining

  /** Where a scan may restart: at the last segment, if a SYNC frame opened it. */
  function ResumePoint(f: File): Option<nat> {
    if f.segments == [] || Last(f.segments).sync.typ == 0 then None else Some(Last(f.segments).sync.offset)
  }

  // --- merging ------------------------------------------------------------------------------------

  function KeptSegments(segs: seq<Segment>, r: nat): seq<Segment> {
    if segs == [] then []
    else KeptSegments(Init(segs), r) + (if Last(segs).sync.offset < r then [Last(segs)] else [])
  }

  function KeptData(ds: seq<DataFrame>, r: nat): seq<DataFrame> {
    if ds == [] then [] else KeptData(Init(ds), r) + (if Last(ds).ref.offset < r then [Last(ds)] else [])
  }

  /** The tail's axis values are moved from its own epoch onto the merged one. */
  function Delta(cached: File, tail: File): int {
    var e := Earlier(cached.epoch, tail.epoch);
    if tail.epoch.Some? && tail.epoch != e then tail.epoch.value - e.value else 0
  }

  function MovedFrom(ds: seq<DataFrame>, r: nat, delta: int): (q: seq<DataFrame>)
    ensures |q| == |ds|
    ensures forall i :: 0 <= i < |ds| ==> q[i] == if ds[i].ref.offset >= r then Moved(ds[i], delta) else ds[i]
  {
    seq(|ds|, i requires 0 <= i < |ds| => if ds[i].ref.offset >= r then Moved(ds[i], delta) else ds[i])
  }

  /** The cached side gives the restatements before `r`, the tail those from it on. */
  function MergedHolds(hs: seq<Restated>, r: nat, cachedSide: bool, delta: int): seq<Restated> {
    if hs == [] then []
    else
      var h := Last(hs);
      MergedHolds(Init(hs), r, cachedSide, delta) +
      (if cachedSide == (h.offset < r) then [if cachedSide then h else h.(axis := h.axis + delta as real)] else [])
  }

  function FindFrame(ds: seq<DataFrame>, offset: nat): Option<DataFrame> {
    if ds == [] then None
    else if ds[0].ref.offset == offset then Some(ds[0])
    else FindFrame(ds[1..], offset)
  }

  const NO_LIMIT: nat := 0x4000_0000_0000_0000

  datatype Attached = Attached(frames: seq<DataFrame>, stats: seq<seq<Stat>>)

  /** The first `k` frames of a stream that lie in [lo, hi), each as the merged list
      has it and with its own summary. */
  function Reattached(s: Stream, table: seq<DataFrame>, lo: nat, hi: nat, k: nat): Option<Attached>
    requires k <= |s.frames|
  {
    if k == 0 then Some(Attached([], []))
    else
      match Reattached(s, table, lo, hi, k - 1)
      case None => None
      case Some(a) =>
        var at := s.frames[k - 1].ref.offset;
        if at < lo || at >= hi then Some(a)
        else if k - 1 >= |s.stats| then None
        else
          match FindFrame(table, at)
          case None => Some(a)
          case Some(d) => Some(Attached(a.frames + [d], a.stats + [s.stats[k - 1]]))
  }

  /** One side's part of a stream, or nothing when the side does not know it. */
  function Side(f: File, u: bytes, table: seq<DataFrame>, lo: nat, hi: nat): Option<Attached> {
    if u in f.streams then Reattached(f.streams[u], table, lo, hi, |f.streams[u].frames|)
    else Some(Attached([], []))
  }

  function HoldsIn(f: File, u: bytes): seq<Restated> { if u in f.streams then f.streams[u].holds else [] }

  function KeptOf(cached: File, r: nat): seq<DataFrame> { KeptData(cached.data, r) }

  function MergedData(cached: File, tail: File, r: nat): seq<DataFrame> {
    MovedFrom(KeptOf(cached, r) + Placed(tail.data, |KeptSegments(cached.segments, r)|), r, Delta(cached, tail))
  }

  function MergedStream(cached: File, tail: File, r: nat, u: bytes): Option<Stream>
    requires u in cached.streams || u in tail.streams
  {
    match (Side(cached, u, KeptOf(cached, r), 0, r), Side(tail, u, MergedData(cached, tail, r), r, NO_LIMIT))
    case (Some(x), Some(y)) =>
      Some(Stream(
        if u in cached.streams then cached.streams[u].model else tail.streams[u].model,
        Total(x.frames + y.frames), x.frames + y.frames, x.stats + y.stats,
        MergedHolds(HoldsIn(cached, u), r, true, 0) + MergedHolds(HoldsIn(tail, u), r, false, Delta(cached, tail))))
    case _ => None
  }

  /** The merged index; nothing when a frame has lost its summary. */
  function Merged(cached: File, tail: File, r: nat): Option<File> {
    var us := cached.streams.Keys + tail.streams.Keys;
    if exists u :: u in us && MergedStream(cached, tail, r, u) == None then None
    else
      var kept := KeptSegments(cached.segments, r);
      Some(File(
        kept + Renumbered(tail.segments, |kept|),
        MergedData(cached, tail, r),
        map u | u in us :: MergedStream(cached, tail, r, u).value,
        Earlier(cached.epoch, tail.epoch), tail.truncated, cached.closed || tail.closed))
  }

  // --- when it is right ------------------------------------------------------------------------------

  /** Something cached and kept stands on a time axis. */
  ghost predicate KeptTimed(cached: File, r: nat) {
    (exists i :: 0 <= i < |cached.data| && cached.data[i].time && cached.data[i].ref.offset < r) ||
    (exists u, i :: u in cached.streams && OnTime(cached.streams[u].model) &&
      0 <= i < |cached.streams[u].holds| && cached.streams[u].holds[i].offset < r)
  }

  ghost predicate TailTimed(tail: File) {
    (exists i :: 0 <= i < |tail.data| && tail.data[i].time) ||
    (exists u :: u in tail.streams && OnTime(tail.streams[u].model) && tail.streams[u].holds != [])
  }

  ghost predicate TailPlain(tail: File) {
    exists u :: u in tail.streams && !OnTime(tail.streams[u].model) && tail.streams[u].holds != []
  }

  /** Nothing was based on an epoch that turned out not to be the file's, and no
      restatement off the time axis is moved with those on it. */
  ghost predicate EpochsAgree(cached: File, tail: File, r: nat) {
    var e := Earlier(cached.epoch, tail.epoch);
    (KeptTimed(cached, r) ==> Origin(cached.epoch) == Origin(e)) &&
    (TailTimed(tail) ==> tail.epoch.Some? || Origin(e) == 0) &&
    (TailPlain(tail) ==> Delta(cached, tail) == 0)
  }

  /** A stream has one schema wherever it is declared. */
  ghost predicate SameModels(cached: File, tail: File) {
    forall u :: u in cached.streams && u in tail.streams ==> cached.streams[u].model == tail.streams[u].model
  }
}
