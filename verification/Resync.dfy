/** Entering a recording whose beginning is missing. */
module Resync {
  import opened Bytes
  import opened Wire
  import opened Format
  import opened Frames
  import opened Records
  import opened Reading
  import opened Writing
  import opened Recording
  import opened Runs
  import opened Guarantees

  /** Bytes at `p` that would be taken for a SYNC frame: the pattern eight bytes
      on, the type, and a checksum that holds. */
  predicate SyncImage(data: bytes, p: nat) {
    p + 32 <= |data| && data[p + 8..p + 24] == SYNC_PATTERN &&
    ReadFrame(data[p..]).Got? && ReadFrame(data[p..]).frame.typ == FRAME_SYNC
  }

  function FirstSync(data: bytes, p: nat): Option<nat>
    requires p <= |data|
    decreases |data| - p
  {
    if SyncImage(data, p) then Some(p)
    else if p == |data| then None
    else FirstSync(data, p + 1)
  }

  /** Scan forward for the next sync pattern, back up to the frame header and
      validate it. */
  method FindSync(data: bytes) returns (start: Option<nat>)
    ensures start == FirstSync(data, 0)
  {
    hide ReadFrame;
    var i := 0;
    while i + 24 <= |data|
      invariant 0 <= i <= |data|
      invariant FirstSync(data, 0) == FirstSync(data, if i < 8 then 0 else i - 8)
      decreases |data| - i
    {
      if data[i..i + 16] == SYNC_PATTERN && i >= 8 {
        var p := i - 8;
        var ok := CheckSync(data, p);
        if ok { return Some(p); }
      }
      i := i + 1;
    }
    NoneLeft(data, if i < 8 then 0 else i - 8);
    return None;
  }

  /** The checks behind a pattern that was found. */
  method CheckSync(data: bytes, p: nat) returns (ok: bool)
    requires p + 32 <= |data| && data[p + 8..p + 24] == SYNC_PATTERN
    ensures ok <==> SyncImage(data, p)
  {
    hide Sum;
    var s := data[p..];
    var length := FromLE(data[p..p + 4]);
    assert s[..4] == data[p..p + 4];
    var end := p + 8 + length + 4;
    if end > |data| || data[p + 4] != FRAME_SYNC { return false; }
    assert s[..8] == data[p..p + 8] && s[8..8 + length] == data[p + 8..p + 8 + length];
    assert s[8 + length..12 + length] == data[p + 8 + length..end];
    ok := Sum(data[p..p + 8], data[p + 8..p + 8 + length]) == FromLE(data[p + 8 + length..end]);
  }

  lemma {:induction false} NoneLeft(data: bytes, p: nat)
    requires p <= |data| < p + 32
    ensures FirstSync(data, p) == None
    decreases |data| - p
  {
    hide ReadFrame;
    if p < |data| { NoneLeft(data, p + 1); }
  }

  lemma {:induction false} FirstIs(data: bytes, p: nat, q: nat)
    requires p <= q <= |data| && SyncImage(data, q)
    requires forall k :: p <= k < q ==> !SyncImage(data, k)
    ensures FirstSync(data, p) == Some(q)
    decreases q - p
  {
    hide SyncImage;
    if p < q { FirstIs(data, p + 1, q); }
  }

  lemma {:induction false} FirstNone(data: bytes, p: nat)
    requires p <= |data| && forall k :: p <= k <= |data| ==> !SyncImage(data, k)
    ensures FirstSync(data, p) == None
    decreases |data| - p
  {
    hide SyncImage;
    if p < |data| { FirstNone(data, p + 1); }
  }

  // --- events depend on the bindings only --------------------------------------------------

  ghost predicate SameView(a: RState, b: RState) {
    a.streams == b.streams && a.runs == b.runs && a.watch == b.watch
  }

  lemma ApplyView(z: Zip, a: RState, b: RState, f: Frame)
    requires SameView(a, b)
    ensures Apply(z, a, f).Stop? <==> Apply(z, b, f).Stop?
    ensures Apply(z, a, f).Go? ==>
      Apply(z, a, f).out == Apply(z, b, f).out && SameView(Apply(z, a, f).rs, Apply(z, b, f).rs)
  {
    hide OnData;
    hide OnHold;
    hide OnSchema;
    hide OnSync;
    hide OnRun;
    hide OnMeta;
    hide OnAttach;
    DataView(z, a, b, f.id, f.payload);
    HoldView(a, b, f.id, f.payload);
    SchemaView(a, b, f.id, f.payload);
    OtherView(a, b, f.payload);
  }

  lemma SchemaView(a: RState, b: RState, id: u16, payload: bytes)
    requires SameView(a, b)
    ensures OnSchema(a, id, payload).Stop? <==> OnSchema(b, id, payload).Stop?
    ensures OnSchema(a, id, payload).Go? ==>
      OnSchema(a, id, payload).out == OnSchema(b, id, payload).out &&
      SameView(OnSchema(a, id, payload).rs, OnSchema(b, id, payload).rs)
  {
    hide TakeSchema;
  }

  lemma OtherView(a: RState, b: RState, payload: bytes)
    requires SameView(a, b)
    ensures SameView(OnSync(a, payload), OnSync(b, payload)) && SameView(OnRun(a, payload), OnRun(b, payload))
    ensures SameView(OnMeta(a, payload), OnMeta(b, payload)) && SameView(OnAttach(a, payload), OnAttach(b, payload))
  {
    hide TakeRun;
    hide TakeMeta;
    hide TakeAttach;
    hide TakeSeqNo;
  }

  lemma DataView(z: Zip, a: RState, b: RState, id: u16, payload: bytes)
    requires SameView(a, b)
    ensures OnData(z, a, id, payload).Stop? <==> OnData(z, b, id, payload).Stop?
    ensures OnData(z, a, id, payload).Go? ==>
      OnData(z, a, id, payload).out == OnData(z, b, id, payload).out &&
      SameView(OnData(z, a, id, payload).rs, OnData(z, b, id, payload).rs)
  {
    hide DecodeData;
  }

  lemma HoldView(a: RState, b: RState, id: u16, payload: bytes)
    requires SameView(a, b)
    ensures OnHold(a, id, payload).Stop? <==> OnHold(b, id, payload).Stop?
    ensures OnHold(a, id, payload).Go? ==>
      OnHold(a, id, payload).out == OnHold(b, id, payload).out &&
      SameView(OnHold(a, id, payload).rs, OnHold(b, id, payload).rs)
  {
    hide DecodeHold;
  }

  lemma {:induction false} ReplayView(z: Zip, a: RState, b: RState, fs: seq<Frame>, at: nat)
    requires SameView(a, b)
    ensures Replay(z, a, fs, at).events == Replay(z, b, fs, at).events
    ensures Replay(z, a, fs, at).stopped == Replay(z, b, fs, at).stopped
    ensures SameView(Replay(z, a, fs, at).rs, Replay(z, b, fs, at).rs)
    decreases |fs|
  {
    hide Apply;
    if fs != [] {
      ApplyView(z, a, b, fs[0]);
      if Apply(z, a, fs[0]).Go? {
        ReplayView(z, Apply(z, a, fs[0]).rs, Apply(z, b, fs[0]).rs, fs[1..], at + fs[0].Size());
      }
    }
  }

  /** A SYNC frame makes any two readers alike. */
  lemma ReplayFromSync(z: Zip, a: RState, b: RState, fs: seq<Frame>, at: nat)
    requires a.watch == b.watch && fs != [] && fs[0].typ == FRAME_SYNC
    ensures Replay(z, a, fs, at).events == Replay(z, b, fs, at).events
    ensures Replay(z, a, fs, at).stopped == Replay(z, b, fs, at).stopped
    ensures SameView(Replay(z, a, fs, at).rs, Replay(z, b, fs, at).rs)
  {
    SyncAlike(z, a, b, fs[0]);
    hide Apply;
    ReplayView(z, Apply(z, a, fs[0]).rs, Apply(z, b, fs[0]).rs, fs[1..], at + fs[0].Size());
  }

  lemma SyncAlike(z: Zip, a: RState, b: RState, f: Frame)
    requires a.watch == b.watch && f.typ == FRAME_SYNC
    ensures Apply(z, a, f).Go? && Apply(z, b, f).Go? && Apply(z, a, f).out == Apply(z, b, f).out == Nothing
    ensures SameView(Apply(z, a, f).rs, Apply(z, b, f).rs)
  {
    hide TakeSeqNo;
  }

  // --- every SYNC frame of a log is an image of one -----------------------------------------

  predicate SyncShaped(e: Event) {
    e.frame.typ == FRAME_SYNC ==> |e.frame.payload| == 32 && e.frame.payload[..16] == SYNC_PATTERN
  }

  ghost predicate AllShaped(evs: seq<Event>) { forall e :: e in evs ==> SyncShaped(e) }

  lemma ShapedJoin(a: seq<Event>, b: seq<Event>)
    requires AllShaped(a) && AllShaped(b)
    ensures AllShaped(a + b)
  {
    hide SyncShaped;
  }

  lemma ShapedSegment(ws: WState, wall: u64)
    requires AllShaped(ws.log)
    ensures AllShaped(BeginSegment(ws, wall).log)
  {
    hide BeginSegment;
    var sync, add := SegmentAdds(ws, wall);
    assert SyncShaped(sync);
    assert AllShaped([sync]);
    assert AllShaped(add);
    ShapedJoin(ws.log, [sync]);
    ShapedJoin(ws.log + [sync], add);
  }

  lemma ShapedEmit(ws: WState, typ: byte, id: u16, payload: bytes, out: Outcome)
    requires AllShaped(ws.log) && typ != FRAME_SYNC
    ensures AllShaped(Emit(ws, typ, id, payload, out).log)
  {
    ShapedJoin(ws.log, [Event(ws.off, Frame(typ, 0, id, payload), out)]);
  }

  lemma ShapedData(z: Zip, ws: WState, k: nat, base: u64, runID: u32, count: u32, records: bytes)
    requires AllShaped(ws.log) && k < |ws.streams| && WriteData(z, ws, k, base, runID, count, records).Done?
    ensures AllShaped(WriteData(z, ws, k, base, runID, count, records).ws.log)
  {
    DataUnfold(z, ws, k, base, runID, count, records);
    ShapedSegment(ws, 0);
    var w1 := if ws.inSeg then ws else BeginSegment(ws, 0);
    hide *;
    BatchEmits(z, w1, k, base, runID, count, records);
    var s := w1.streams[k];
    DataTypes();
    ShapedEmit(BatchState(w1, s, base, runID, count), FRAME_DATA, Id(k),
      DataFrame(z, s, base, runID, count, w1.codec, w1.filter, records),
      Batched(s, base, runID, count, records, w1.segRuns));
  }

  lemma DataTypes()
    ensures FRAME_DATA != FRAME_SYNC
  {
  }

  lemma ShapedStep(z: Zip, ws: WState, op: Op)
    requires IndexSane(ws) && AllShaped(ws.log) && Step(z, ws, op).Done?
    ensures AllShaped(Step(z, ws, op).ws.log)
  {
    hide AllShaped;
    hide BeginSegment;
    hide WriteData;
    hide ValidSchema;
    hide PutSchema;
    hide PutRun;
    hide Norm;
    hide IndexPayload;
    hide MetaPayload;
    hide AttachPayload;
    hide IndexSane;
    match op {
      case OpAddStream(s) =>
        var w0 := ws.(streams := ws.streams + [s]);
        if ws.inSeg {
          ShapedEmit(w0.(segStep := w0.segStep[s.uuid := s.axisStep]), FRAME_SCHEMA, Id(|ws.streams|), PutSchema(s),
            Bound(Norm(s), Id(|ws.streams|)));
        }
      case OpAddRun(r) =>
        var w0 := ws.(runs := ws.runs + [r]);
        if ws.inSeg { ShapedEmit(w0.(segRuns := w0.segRuns[r.id := r]), FRAME_RUN, 0, PutRun(r), Nothing); }
      case OpBeginSegment(wall) => ShapedSegment(ws, wall);
      case OpWriteMeta(m) => ShapedEmit(ws, FRAME_META, 0, MetaPayload(m), Nothing);
      case OpWriteAttach(m) => ShapedEmit(ws, FRAME_ATTACH, 0, AttachPayload(m), Nothing);
      case OpWriteData(k, base, runID, count, records) => ShapedData(z, ws, k, base, runID, count, records);
      case OpClose =>
        ShapedEmit(ws, FRAME_INDEX, 0, IndexPayload(ws), Nothing);
        ShapedEmit(Emit(ws, FRAME_INDEX, 0, IndexPayload(ws), Nothing), FRAME_END, 0, [], Nothing);
      case _ =>
    }
  }

  lemma {:induction false} ShapedRun(z: Zip, ws: WState, ops: seq<Op>)
    requires IndexSane(ws) && AllShaped(ws.log) && RunFrom(z, ws, ops).Done?
    ensures AllShaped(RunFrom(z, ws, ops).ws.log)
    decreases |ops|
  {
    hide Step;
    hide AllShaped;
    hide IndexSane;
    if ops != [] {
      StepSane(z, ws, ops[0]);
      ShapedStep(z, ws, ops[0]);
      ShapedRun(z, Step(z, ws, ops[0]).ws, ops[1..]);
    }
  }

  lemma RecordedShaped(z: Zip, ops: seq<Op>, ws: WState)
    requires Recorded(z, ops, ws)
    ensures AllShaped(ws.log)
  {
    ShapedRun(z, START, ops);
    hide RunFrom;
  }

  // --- the theorem --------------------------------------------------------------------------

  /** No bytes after the cut look like a SYNC frame unless they are one. */
  ghost predicate NoFalseSync(ws: WState, cut: nat)
    requires cut <= |FileOf(ws)|
  {
    forall p :: 0 <= p <= |FileOf(ws)| - cut && SyncImage(FileOf(ws)[cut..], p) ==>
      exists i :: 0 <= i < |ws.log| && ws.log[i].frame.typ == FRAME_SYNC && ws.log[i].at == cut + p
  }

  /** Event j is the first SYNC frame starting at or after the cut. */
  ghost predicate FirstSyncEvent(ws: WState, cut: nat, j: nat) {
    j < |ws.log| && ws.log[j].frame.typ == FRAME_SYNC && ws.log[j].at >= cut &&
    forall i :: 0 <= i < |ws.log| && ws.log[i].frame.typ == FRAME_SYNC && ws.log[i].at >= cut ==> j <= i
  }

  /** The frames of a recording from its j-th on are the file's bytes from there. */
  lemma FileFrom(z: Zip, ops: seq<Op>, ws: WState, j: nat)
    requires Recorded(z, ops, ws) && j < |ws.log|
    ensures ws.log[j].at + ws.log[j].frame.Size() <= |FileOf(ws)|
    ensures FileOf(ws)[ws.log[j].at..] == FramesBytes(FramesOf(ws.log)[j..])
    ensures ws.log[j].at == 16 + FramesLen(FramesOf(ws.log)[..j])
  {
    hide *;
    FreshWatches();
    var rs' := LogReplays(z, ops, ws, FRESH);
    var fs := FramesOf(ws.log);
    ReplayPlaces(z, FRESH, fs, 16);
    FileParts(ws);
    assert fs == fs[..j] + fs[j..];
    FramesAppend(fs[..j], fs[j..]);
    FramesLenBytes(fs[..j]);
    FramesLenBytes(fs[j..]);
    FramesLenNext(fs, j);
    FramesLenMono(fs, j + 1, |fs|);
    assert fs[..|fs|] == fs;
    FramesLenBytes(fs);
    FramesOfAt(ws.log, j);
    SkipTo(FileHeader(), FramesBytes(fs[..j]), FramesBytes(fs[j..]));
  }

  lemma SkipTo(h: bytes, a: bytes, b: bytes)
    ensures (h + (a + b))[|h| + |a|..] == b
  {
  }

  /** Events of a log are in file order. */
  lemma LaterIsFurther(z: Zip, ops: seq<Op>, ws: WState, i: nat, j: nat)
    requires Recorded(z, ops, ws) && i < |ws.log| && j < |ws.log|
    ensures i < j <==> ws.log[i].at < ws.log[j].at
  {
    hide *;
    FileFrom(z, ops, ws, i);
    FileFrom(z, ops, ws, j);
    var fs := FramesOf(ws.log);
    FramesOfAt(ws.log, i);
    FramesOfAt(ws.log, j);
    if i < j {
      FramesLenNext(fs, i);
      FrameSizePositive(fs[i]);
      FramesLenMono(fs, i + 1, j);
    } else {
      FramesLenMono(fs, j, i);
    }
  }

  lemma FrameSizePositive(f: Frame)
    ensures f.Size() > 0
  {
  }

  /** A SYNC event is a SYNC image where it stands. */
  lemma EventIsImage(z: Zip, ops: seq<Op>, ws: WState, cut: nat, j: nat)
    requires Recorded(z, ops, ws) && cut <= |FileOf(ws)|
    requires j < |ws.log| && ws.log[j].frame.typ == FRAME_SYNC && ws.log[j].at >= cut
    ensures SyncImage(FileOf(ws)[cut..], ws.log[j].at - cut)
  {
    hide *;
    RecordedShaped(z, ops, ws);
    ShapedAt(ws.log, j);
    FileFrom(z, ops, ws, j);
    var f := ws.log[j].frame;
    var fs := FramesOf(ws.log);
    RecordedFits(z, ops, ws);
    FitsAt(fs, j);
    FramesOfAt(ws.log, j);
    var data, p := FileOf(ws)[cut..], ws.log[j].at - cut;
    var rest := FramesBytes(fs[j + 1..]);
    assert fs[j..] == [f] + fs[j + 1..];
    FramesOfOne(f, fs[j + 1..]);
    DropTwice(FileOf(ws), cut, ws.log[j].at);
    ImageOf(data, p, f, rest);
  }

  lemma ShapedAt(evs: seq<Event>, j: nat)
    requires AllShaped(evs) && j < |evs| && evs[j].frame.typ == FRAME_SYNC
    ensures |evs[j].frame.payload| == 32 && evs[j].frame.payload[..16] == SYNC_PATTERN
  {
    assert evs[j] in evs;
    assert SyncShaped(evs[j]);
  }

  lemma ImageOf(data: bytes, p: nat, f: Frame, rest: bytes)
    requires p <= |data| && data[p..] == FrameBytes(f) + rest && f.Fits()
    requires f.typ == FRAME_SYNC && |f.payload| == 32 && f.payload[..16] == SYNC_PATTERN
    ensures SyncImage(data, p)
  {
    hide FrameBytes;
    hide ReadFrame;
    FrameBack(f, rest);
    PatternAt(f, rest);
    assert data[p + 8..p + 24] == data[p..][8..24];
  }

  lemma PatternAt(f: Frame, rest: bytes)
    requires |f.payload| == 32
    ensures |FrameBytes(f) + rest| >= 44 && (FrameBytes(f) + rest)[8..24] == f.payload[..16]
  {
    hide Sum;
    assert (FrameBytes(f) + rest)[8..40] == f.payload;
    assert (FrameBytes(f) + rest)[8..24] == (FrameBytes(f) + rest)[8..40][..16];
  }

  /** Resync enters at the first SYNC frame at or after the cut, and from there the
      scan is the full scan's: the same events, in the same places. */
  lemma ResyncRecovers(z: Zip, ops: seq<Op>, ws: WState, cut: nat, j: nat)
    requires Recorded(z, ops, ws) && cut <= |FileOf(ws)|
    requires NoFalseSync(ws, cut) && FirstSyncEvent(ws, cut, j)
    ensures cut <= ws.log[j].at <= |FileOf(ws)|
    ensures FirstSync(FileOf(ws)[cut..], 0) == Some(ws.log[j].at - cut)
    ensures var start := ws.log[j].at - cut;
      var s := Scan(z, FRESH, FileOf(ws)[cut..][start..], start);
      Shift(s.events, cut) == ws.log[j..] && !s.truncated && BatchesOf(s.events) == BatchesOf(ws.log[j..])
  {
    hide *;
    SyncAt(ws, cut, j);
    FileFrom(z, ops, ws, j);
    EntersThere(z, ops, ws, cut, j);
    var at := ws.log[j].at;
    DropTwice(FileOf(ws), cut, at);
    FreshWatches();
    var rs' := LogReplays(z, ops, ws, FRESH);
    var fs := FramesOf(ws.log);
    RecordedFits(z, ops, ws);
    FitsAt(fs, j);
    FramesOfAt(ws.log, j);
    ReplaySuffix(z, FRESH, fs, ws.log, rs', j);
    ScanOfFrames(z, FRESH, fs[j..], at - cut);
    ReplayShift(z, FRESH, fs[j..], at - cut, cut);
    ShiftBatches(Replay(z, FRESH, fs[j..], at - cut).events, cut);
  }

  lemma SyncAt(ws: WState, cut: nat, j: nat)
    requires FirstSyncEvent(ws, cut, j)
    ensures j < |ws.log| && ws.log[j].frame.typ == FRAME_SYNC && ws.log[j].at >= cut
  {
  }

  lemma DropTwice(s: bytes, a: nat, b: nat)
    requires a <= b <= |s|
    ensures s[a..][b - a..] == s[b..]
  {
  }

  /** A fresh reader given the frames from a SYNC on sees what the full scan saw. */
  lemma ReplaySuffix(z: Zip, rs: RState, fs: seq<Frame>, log: seq<Event>, rs': RState, j: nat)
    requires Replay(z, rs, fs, 16) == Replayed(log, rs', false) && j < |fs| && fs[j].typ == FRAME_SYNC
    requires rs.watch && rs'.watch
    ensures |log| == |fs|
    ensures Replay(z, FRESH, fs[j..], 16 + FramesLen(fs[..j])).events == log[j..]
    ensures !Replay(z, FRESH, fs[j..], 16 + FramesLen(fs[..j])).stopped
  {
    hide *;
    FreshWatches();
    assert fs == fs[..j] + fs[j..];
    ReplayAppend(z, rs, fs[..j], fs[j..], 16);
    ReplayCount(z, rs, fs, 16);
    ReplayCount(z, rs, fs[..j], 16);
    NotStoppedBefore(z, rs, fs, j, 16);
    ReplayWatch(z, rs, fs[..j], 16);
    ReplayFromSync(z, Replay(z, rs, fs[..j], 16).rs, FRESH, fs[j..], 16 + FramesLen(fs[..j]));
  }

  lemma {:induction false} ReplayWatch(z: Zip, rs: RState, fs: seq<Frame>, at: nat)
    ensures Replay(z, rs, fs, at).rs.watch == rs.watch
    decreases |fs|
  {
    if fs != [] {
      ApplyWatch(z, rs, fs[0]);
      hide Apply;
      if Apply(z, rs, fs[0]).Go? { ReplayWatch(z, Apply(z, rs, fs[0]).rs, fs[1..], at + fs[0].Size()); }
    }
  }

  lemma ApplyWatch(z: Zip, rs: RState, f: Frame)
    ensures Apply(z, rs, f).Go? ==> Apply(z, rs, f).rs.watch == rs.watch
  {
    hide DecodeData;
    hide DecodeHold;
    hide TakeSchema;
    hide TakeRun;
    hide TakeMeta;
    hide TakeAttach;
    hide TakeSeqNo;
  }

  lemma EntersThere(z: Zip, ops: seq<Op>, ws: WState, cut: nat, j: nat)
    requires Recorded(z, ops, ws) && cut <= |FileOf(ws)|
    requires NoFalseSync(ws, cut) && FirstSyncEvent(ws, cut, j)
    ensures FirstSync(FileOf(ws)[cut..], 0) == Some(ws.log[j].at - cut)
  {
    hide Recorded;
    hide FileOf;
    hide SyncImage;
    var data := FileOf(ws)[cut..];
    FileFrom(z, ops, ws, j);
    EventIsImage(z, ops, ws, cut, j);
    forall k | 0 <= k < ws.log[j].at - cut ensures !SyncImage(data, k) {
      if SyncImage(data, k) {
        var i :| 0 <= i < |ws.log| && ws.log[i].frame.typ == FRAME_SYNC && ws.log[i].at == cut + k;
        LaterIsFurther(z, ops, ws, i, j);
      }
    }
    FirstIs(data, 0, ws.log[j].at - cut);
  }

  /** With no SYNC frame left after the cut there is nowhere to enter. */
  lemma ResyncFindsNothing(z: Zip, ops: seq<Op>, ws: WState, cut: nat)
    requires Recorded(z, ops, ws) && cut <= |FileOf(ws)| && NoFalseSync(ws, cut)
    requires forall i :: 0 <= i < |ws.log| && ws.log[i].frame.typ == FRAME_SYNC ==> ws.log[i].at < cut
    ensures FirstSync(FileOf(ws)[cut..], 0) == None
  {
    hide Recorded;
    hide FileOf;
    hide SyncImage;
    FirstNone(FileOf(ws)[cut..], 0);
  }

  // --- what a segment restates ------------------------------------------------------------------

  /** The hold in force for stream k after the calls: the last one set and not
      cleared since. */
  function HoldNow(ops: seq<Op>, k: nat, was: Option<HoldState>): Option<HoldState>
    decreases |ops|
  {
    if ops == [] then was else HoldNow(ops[1..], k, HoldAfter(ops[0], k, was))
  }

  function HoldAfter(op: Op, k: nat, was: Option<HoldState>): Option<HoldState> {
    match op
    case OpSetHold(i, h) => if i == k then Some(h) else was
    case OpClearHold(i) => if i == k then None else was
    case _ => was
  }

  function HoldOf(ws: WState, k: nat): Option<HoldState> {
    if k < |ws.streams| then Lookup(ws.hold, ws.streams[k].uuid) else None
  }

  lemma StepHold(z: Zip, ws: WState, op: Op, k: nat)
    requires Sound(ws) && IndexSane(ws) && OpFits(ws, op) && Step(z, ws, op).Done?
    ensures var w := Step(z, ws, op).ws;
      HoldOf(w, k) == HoldAfter(op, k, HoldOf(ws, k))
  {
    hide ValidSchema;
    hide SchemaFits;
    hide HoldFits;
    hide TailsOf;
    hide IndexSane;
    hide BeginSegment;
    hide WriteBatch;
    hide PutSchema;
    hide Norm;
    hide IndexPayload;
    hide DropRuns;
    match op {
      case OpBeginSegment(wall) => SegmentHold(ws, wall);
      case OpWriteData(i, base, runID, count, records) =>
        if i < |ws.streams| { DataHold(z, ws, i, base, runID, count, records); }
      case _ =>
    }
  }

  lemma DataHold(z: Zip, ws: WState, i: nat, base: u64, runID: u32, count: u32, records: bytes)
    requires i < |ws.streams| && WriteData(z, ws, i, base, runID, count, records).Done?
    ensures var w := WriteData(z, ws, i, base, runID, count, records).ws;
      w.streams == ws.streams && w.hold == ws.hold
  {
    hide *;
    DataUnfold(z, ws, i, base, runID, count, records);
    SegmentHold(ws, 0);
    BatchEmits(z, if ws.inSeg then ws else BeginSegment(ws, 0), i, base, runID, count, records);
  }

  lemma SegmentHold(ws: WState, wall: u64)
    ensures BeginSegment(ws, wall).streams == ws.streams && BeginSegment(ws, wall).hold == ws.hold
  {
    var w0 := OpenSegment(ws, wall);
    SchemasSettings(w0, 0);
    var w1 := WriteSchemas(w0, 0);
    RunsSettings(w1, w1.runs);
    HoldsSettings(WriteRuns(w1, w1.runs), 0);
    SegmentIs(ws, wall);
  }

  lemma {:induction false} RunHold(z: Zip, ws: WState, rs: RState, ops: seq<Op>, k: nat)
    requires Inverse(z) && Sound(ws) && Sim(ws, rs) && IndexSane(ws) && AllOpsFit(z, ws, ops) && RunFrom(z, ws, ops).Done?
    ensures var w := RunFrom(z, ws, ops).ws;
      HoldOf(w, k) == HoldNow(ops, k, HoldOf(ws, k))
    decreases |ops|
  {
    hide Step;
    hide Sound;
    hide Sim;
    hide OpFits;
    hide Inverse;
    hide IndexSane;
    hide HoldOf;
    hide HoldAfter;
    if ops != [] {
      StepSane(z, ws, ops[0]);
      StepHold(z, ws, ops[0], k);
      var r := StepFollows(z, ws, rs, ops[0]);
      var w := Step(z, ws, ops[0]).ws;
      RunHold(z, w, r, ops[1..], k);
    }
  }

  lemma {:induction false} RunSplit(z: Zip, ws: WState, a: seq<Op>, b: seq<Op>)
    requires IndexSane(ws)
    ensures RunFrom(z, ws, a + b) ==
      if RunFrom(z, ws, a).Failed? then RunFrom(z, ws, a) else RunFrom(z, RunFrom(z, ws, a).ws, b)
    ensures AllOpsFit(z, ws, a + b) ==> AllOpsFit(z, ws, a)
    ensures AllOpsFit(z, ws, a + b) && RunFrom(z, ws, a).Done? ==> AllOpsFit(z, RunFrom(z, ws, a).ws, b)
    decreases |a|
  {
    hide Step;
    hide OpFits;
    hide IndexSane;
    if a == [] {
      assert a + b == b;
    } else {
      assert (a + b)[0] == a[0] && (a + b)[1..] == a[1..] + b;
      StepSane(z, ws, a[0]);
      if Step(z, ws, a[0]).Done? { RunSplit(z, Step(z, ws, a[0]).ws, a[1..], b); }
    }
  }

  /** The holds a segment opened after `pre` restates: for each stream in order, its
      last one set and not cleared, computed from the calls alone. */
  function Restatements(pre: seq<Op>, streams: seq<Schema>, k: nat): seq<Held>
    requires k <= |streams|
    decreases |streams| - k
  {
    if k == |streams| then []
    else
      (match HoldNow(pre, k, None) case None => [] case Some(h) => [Restated(streams[k], h)])
      + Restatements(pre, streams, k + 1)
  }

  lemma {:induction false} InForceIs(ws: WState, pre: seq<Op>, k: nat)
    requires k <= |ws.streams|
    requires forall i :: 0 <= i < |ws.streams| ==> HoldOf(ws, i) == HoldNow(pre, i, None)
    ensures InForce(ws.streams, ws.hold, k) == Restatements(pre, ws.streams, k)
    decreases |ws.streams| - k
  {
    hide HoldNow;
    hide Restated;
    if k < |ws.streams| {
      assert HoldOf(ws, k) == HoldNow(pre, k, None);
      InForceIs(ws, pre, k + 1);
    }
  }

  /** The calls that open a segment: asking for one, and writing when there is none. */
  predicate Opens(ws: WState, op: Op) { op.OpBeginSegment? || (op.OpWriteData? && !ws.inSeg) }

  ghost predicate NoSync(evs: seq<Event>) { forall e :: e in evs ==> e.frame.typ != FRAME_SYNC }

  /** The events up to the next segment. */
  function Until(evs: seq<Event>): seq<Event> {
    if evs == [] || evs[0].frame.typ == FRAME_SYNC then [] else [evs[0]] + Until(evs[1..])
  }

  /** The segment that event `j` opens. */
  function SegmentAt(evs: seq<Event>, j: nat): seq<Event>
    requires j < |evs|
  {
    [evs[j]] + Until(evs[j + 1..])
  }

  lemma {:induction false} UntilJoin(a: seq<Event>, b: seq<Event>)
    requires NoSync(a)
    ensures Until(a + b) == a + Until(b)
    decreases |a|
  {
    if a == [] {
      assert a + b == b && a + Until(b) == Until(b);
    } else {
      assert a[0] in a && (a + b)[0] == a[0] && (a + b)[1..] == a[1..] + b;
      forall e | e in a[1..] ensures e.frame.typ != FRAME_SYNC { assert e in a; }
      UntilJoin(a[1..], b);
      assert [a[0]] + (a[1..] + Until(b)) == a + Until(b);
    }
  }

  /** What a call adds: a segment and what is in force, or nothing of the kind. */
  lemma StepAdds(z: Zip, ws: WState, op: Op) returns (add: seq<Event>)
    requires IndexSane(ws) && Step(z, ws, op).Done?
    ensures Step(z, ws, op).ws.log == ws.log + add
    ensures if Opens(ws, op) then
        add != [] && add[0].frame.typ == FRAME_SYNC && add[0].out == Nothing && NoSync(add[1..]) &&
        HeldOf(add[1..]) == InForce(ws.streams, ws.hold, 0)
      else NoSync(add) && HeldOf(add) == []
  {
    match op {
      case OpBeginSegment(wall) =>
        SegmentIsStep(z, ws, wall);
        add := OpeningAdds(ws, wall);
      case OpWriteData(k, base, runID, count, records) =>
        add := DataAdds(z, ws, k, base, runID, count, records);
      case _ =>
        add := OtherAdds(z, ws, op);
    }
  }

  lemma SegmentIsStep(z: Zip, w0: WState, wall: u64)
    requires IndexSane(w0)
    ensures Step(z, w0, OpBeginSegment(wall)) == Done(BeginSegment(w0, wall))
  {
    hide BeginSegment;
    hide IndexSane;
  }

  lemma OpeningAdds(ws: WState, wall: u64) returns (add: seq<Event>)
    ensures BeginSegment(ws, wall).log == ws.log + add
    ensures add != [] && add[0].frame.typ == FRAME_SYNC && add[0].out == Nothing && NoSync(add[1..])
    ensures HeldOf(add[1..]) == InForce(ws.streams, ws.hold, 0)
  {
    hide BeginSegment;
    hide InForce;
    hide HeldOf;
    hide SyncPayload;
    var sync, more := SegmentAdds(ws, wall);
    QuietSync(more);
    hide AllQuiet;
    hide NoSync;
    add := [sync] + more;
    assert add[1..] == more && (ws.log + [sync]) + more == ws.log + add;
  }

  lemma QuietSync(evs: seq<Event>)
    requires AllQuiet(evs)
    ensures NoSync(evs)
  {
    forall e | e in evs ensures e.frame.typ != FRAME_SYNC { assert Quiet(e); }
  }

  /** A batch is one event that restates nothing. */
  lemma BatchAdds(z: Zip, ws: WState, k: nat, base: u64, runID: u32, count: u32, records: bytes) returns (e: Event)
    requires k < |ws.streams| && WriteBatch(z, ws, k, base, runID, count, records).Done?
    ensures WriteBatch(z, ws, k, base, runID, count, records).ws.log == ws.log + [e]
    ensures e.frame.typ == FRAME_DATA && !e.out.HeldValues?
  {
    BatchEmits(z, ws, k, base, runID, count, records);
    hide WriteBatch;
    hide BatchState;
    hide DataFrame;
    hide TailsOf;
    hide Norm;
    e := WriteBatch(z, ws, k, base, runID, count, records).ws.log[|ws.log|];
  }

  lemma DataAdds(z: Zip, ws: WState, k: nat, base: u64, runID: u32, count: u32, records: bytes) returns (add: seq<Event>)
    requires IndexSane(ws) && Step(z, ws, OpWriteData(k, base, runID, count, records)).Done?
    ensures Step(z, ws, OpWriteData(k, base, runID, count, records)).ws.log == ws.log + add
    ensures if !ws.inSeg then
        add != [] && add[0].frame.typ == FRAME_SYNC && add[0].out == Nothing && NoSync(add[1..]) &&
        HeldOf(add[1..]) == InForce(ws.streams, ws.hold, 0)
      else NoSync(add) && HeldOf(add) == []
  {
    DataIsStep(z, ws, k, base, runID, count, records);
    DataUnfold(z, ws, k, base, runID, count, records);
    hide WriteData;
    hide WriteBatch;
    hide BeginSegment;
    hide InForce;
    hide Step;
    hide HeldOf;
    hide NoSync;
    hide IndexSane;
    var e := BatchAdds(z, if ws.inSeg then ws else BeginSegment(ws, 0), k, base, runID, count, records);
    OneHeld(e);
    if ws.inSeg {
      add := [e];
    } else {
      var more := OpeningAdds(ws, 0);
      add := more + [e];
      OpeningThen(more, e);
      assert (ws.log + more) + [e] == ws.log + add;
    }
  }

  lemma OpeningThen(more: seq<Event>, e: Event)
    requires more != [] && NoSync(more[1..]) && NoSync([e]) && HeldOf([e]) == []
    ensures (more + [e])[0] == more[0] && NoSync((more + [e])[1..])
    ensures HeldOf((more + [e])[1..]) == HeldOf(more[1..])
  {
    assert (more + [e])[1..] == more[1..] + [e];
    HeldAppend(more[1..], [e]);
    hide HeldOf;
    assert HeldOf(more[1..]) + [] == HeldOf(more[1..]);
  }

  lemma OneHeld(e: Event)
    requires e.frame.typ != FRAME_SYNC && !e.out.HeldValues?
    ensures NoSync([e]) && HeldOf([e]) == []
  {
    assert [e][1..] == [];
  }

  lemma DataIsStep(z: Zip, ws: WState, k: nat, base: u64, runID: u32, count: u32, records: bytes)
    requires IndexSane(ws)
    ensures Step(z, ws, OpWriteData(k, base, runID, count, records))
         == if k < |ws.streams| then WriteData(z, ws, k, base, runID, count, records) else Failed(NotRegistered, ws)
  {
    hide WriteData;
    hide IndexSane;
  }

  lemma OtherAdds(z: Zip, ws: WState, op: Op) returns (add: seq<Event>)
    requires IndexSane(ws) && Step(z, ws, op).Done? && !op.OpBeginSegment? && !op.OpWriteData?
    ensures Step(z, ws, op).ws.log == ws.log + add && NoSync(add) && HeldOf(add) == []
  {
    hide ValidSchema;
    hide PutSchema;
    hide PutRun;
    hide Norm;
    hide IndexPayload;
    hide MetaPayload;
    hide AttachPayload;
    hide IndexSane;
    hide DropRuns;
    var w := Step(z, ws, op).ws;
    add := w.log[|ws.log|..];
    if |add| == 1 {
      assert add == [add[0]];
      OneHeld(add[0]);
    } else if |add| == 2 {
      assert add == [add[0]] + [add[1]];
      OneHeld(add[0]);
      OneHeld(add[1]);
      HeldAppend([add[0]], [add[1]]);
    }
  }

  /** Until the next segment no call restates anything. */
  lemma {:induction false} RunUntil(z: Zip, ws: WState, ops: seq<Op>)
    requires IndexSane(ws) && RunFrom(z, ws, ops).Done?
    ensures ws.log <= RunFrom(z, ws, ops).ws.log && HeldOf(Until(RunFrom(z, ws, ops).ws.log[|ws.log|..])) == []
    decreases |ops|
  {
    hide Step;
    hide IndexSane;
    hide Opens;
    hide InForce;
    var w := RunFrom(z, ws, ops).ws;
    if ops == [] {
      assert w.log[|ws.log|..] == [];
    } else {
      StepSane(z, ws, ops[0]);
      var add := StepAdds(z, ws, ops[0]);
      var w1 := Step(z, ws, ops[0]).ws;
      RunUntil(z, w1, ops[1..]);
      var rest := w.log[|w1.log|..];
      assert w.log[|ws.log|..] == add + rest;
      if !Opens(ws, ops[0]) {
        UntilJoin(add, rest);
        HeldAppend(add, Until(rest));
      }
    }
  }

  lemma SyncFirst(add: seq<Event>, i: nat)
    requires i < |add| && add[i].frame.typ == FRAME_SYNC
    ensures !NoSync(add) && (NoSync(add[1..]) ==> i == 0)
  {
    assert add[i] in add;
    if i > 0 { assert add[1..][i - 1] in add[1..]; }
  }

  /** The call that opened a segment of a run, and what the segment restates. */
  lemma {:induction false} SegmentCall(z: Zip, ws: WState, ops: seq<Op>, j: nat) returns (q: nat)
    requires IndexSane(ws) && RunFrom(z, ws, ops).Done?
    requires |ws.log| <= j < |RunFrom(z, ws, ops).ws.log| && RunFrom(z, ws, ops).ws.log[j].frame.typ == FRAME_SYNC
    ensures q < |ops| && RunFrom(z, ws, ops[..q]).Done? && RunFrom(z, ws, ops).ws.log[j].out == Nothing
    ensures var w0 := RunFrom(z, ws, ops[..q]).ws;
      |w0.log| == j && Opens(w0, ops[q]) &&
      HeldOf(Until(RunFrom(z, ws, ops).ws.log[j + 1..])) == InForce(w0.streams, w0.hold, 0)
    decreases |ops|
  {
    hide Step;
    hide IndexSane;
    hide Opens;
    hide InForce;
    hide Until;
    hide HeldOf;
    var w := RunFrom(z, ws, ops).ws;
    StepSane(z, ws, ops[0]);
    var add := StepAdds(z, ws, ops[0]);
    var w1 := Step(z, ws, ops[0]).ws;
    RunUntil(z, w1, ops[1..]);
    var rest := w.log[|w1.log|..];
    assert w.log[|ws.log|..] == add + rest;
    if j < |w1.log| {
      q := 0;
      assert ops[..0] == [];
      assert w.log[j] == add[j - |ws.log|];
      SyncFirst(add, j - |ws.log|);
      assert w.log[j + 1..] == add[1..] + rest;
      UntilJoin(add[1..], rest);
      HeldAppend(add[1..], Until(rest));
      assert InForce(ws.streams, ws.hold, 0) + [] == InForce(ws.streams, ws.hold, 0);
    } else {
      var p := SegmentCall(z, w1, ops[1..], j);
      q := p + 1;
      assert ops[..q][0] == ops[0] && ops[..q][1..] == ops[1..][..p];
    }
  }

  /** Every segment of a recording was opened by a call, and restates for each stream,
      in order, the last hold set and not cleared before that call: these and no more. */
  lemma SegmentRestates(z: Zip, ops: seq<Op>, ws: WState, j: nat) returns (q: nat, w0: WState)
    requires Recorded(z, ops, ws) && j < |ws.log| && ws.log[j].frame.typ == FRAME_SYNC
    ensures q < |ops| && RunFrom(z, START, ops[..q]) == Done(w0) && |w0.log| == j && Opens(w0, ops[q])
    ensures HeldOf(SegmentAt(ws.log, j)) == Restatements(ops[..q], w0.streams, 0)
  {
    StartSound(FRESH);
    StartEmpty();
    hide RunFrom;
    hide AllOpsFit;
    hide Restatements;
    hide Until;
    hide InForce;
    hide IndexSane;
    q := SegmentCall(z, START, ops, j);
    w0 := RunFrom(z, START, ops[..q]).ws;
    assert ops == ops[..q] + ops[q..];
    RunSplit(z, START, ops[..q], ops[q..]);
    RestatementsAt(z, ops[..q], w0);
    assert SegmentAt(ws.log, j)[1..] == Until(ws.log[j + 1..]);
  }

  lemma StartEmpty()
    ensures START.log == []
  {
  }

  /** After a resync the reader is at the first SYNC frame past the cut, and the holds
      it hears of before the next are, stream by stream, the last set and not cleared
      before the call that opened that segment. */
  lemma ResyncHears(z: Zip, ops: seq<Op>, ws: WState, cut: nat, j: nat) returns (q: nat, w0: WState)
    requires Recorded(z, ops, ws) && cut <= |FileOf(ws)|
    requires NoFalseSync(ws, cut) && FirstSyncEvent(ws, cut, j)
    ensures cut <= ws.log[j].at <= |FileOf(ws)|
    ensures FirstSync(FileOf(ws)[cut..], 0) == Some(ws.log[j].at - cut)
    ensures q < |ops| && RunFrom(z, START, ops[..q]) == Done(w0) && |w0.log| == j && Opens(w0, ops[q])
    ensures var start := ws.log[j].at - cut;
      var s := Scan(z, FRESH, FileOf(ws)[cut..][start..], start);
      Shift(s.events, cut) == ws.log[j..] && !s.truncated && s.events != [] &&
      HeldOf(SegmentAt(s.events, 0)) == Restatements(ops[..q], w0.streams, 0)
  {
    hide *;
    SyncAt(ws, cut, j);
    ResyncRecovers(z, ops, ws, cut, j);
    q, w0 := SegmentRestates(z, ops, ws, j);
    var start := ws.log[j].at - cut;
    var s := Scan(z, FRESH, FileOf(ws)[cut..][start..], start);
    SegmentShift(s.events, cut, ws.log, j);
  }

  lemma SegmentShift(evs: seq<Event>, d: nat, log: seq<Event>, j: nat)
    requires j < |log| && Shift(evs, d) == log[j..]
    ensures evs != [] && HeldOf(SegmentAt(evs, 0)) == HeldOf(SegmentAt(log, j))
  {
    var rest := evs[1..];
    assert Shift(evs, d)[0] == log[j] && Shift(evs, d)[1..] == log[j + 1..];
    assert Shift(rest, d) == log[j + 1..];
    UntilShift(rest, d);
    hide Until;
    assert SegmentAt(evs, 0)[1..] == Until(rest) && SegmentAt(log, j)[1..] == Until(log[j + 1..]);
  }

  lemma {:induction false} UntilShift(evs: seq<Event>, d: nat)
    ensures HeldOf(Until(Shift(evs, d))) == HeldOf(Until(evs))
    decreases |evs|
  {
    if evs != [] {
      assert Shift(evs, d)[1..] == Shift(evs[1..], d);
      UntilShift(evs[1..], d);
      if evs[0].frame.typ != FRAME_SYNC {
        assert Until(evs)[1..] == Until(evs[1..]) && Until(Shift(evs, d))[1..] == Until(Shift(evs[1..], d));
      }
    }
  }

  lemma RestatementsAt(z: Zip, pre: seq<Op>, w0: WState)
    requires IndexSane(START) && Inverse(z) && AllOpsFit(z, START, pre) && RunFrom(z, START, pre) == Done(w0)
    ensures InForce(w0.streams, w0.hold, 0) == Restatements(pre, w0.streams, 0)
  {
    StartSound(FRESH);
    hide RunFrom;
    hide AllOpsFit;
    forall i | 0 <= i < |w0.streams| ensures HoldOf(w0, i) == HoldNow(pre, i, None) {
      RunHold(z, START, FRESH, pre, i);
    }
    InForceIs(w0, pre, 0);
  }
}
