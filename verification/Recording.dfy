/** A recording says what was written: scanning the bytes of any run of calls gives
    back the calls. */
module Recording {
  import opened Bytes
  import opened Wire
  import opened Format
  import opened Frames
  import opened Records
  import opened Reading
  import opened Transpose
  import opened Writing

  // --- single frames -------------------------------------------------------------------

  lemma SkipInt(n: nat, v: nat, tail: bytes)
    ensures TakeInt(n, LE(n, v) + tail).Good? && TakeInt(n, LE(n, v) + tail).rest == tail
  {
    assert (LE(n, v) + tail)[n..] == tail;
  }

  lemma DataHeaderBack(base: u64, count: u32, runID: u32, codec: byte, filter: byte, raw: nat, stored: bytes)
    ensures TakeDataHeader(DataPayload(base, count, runID, codec, filter, raw, stored))
         == Good(DataHeader(base, count, runID, codec, filter), stored)
  {
    var t6 := LE(8, raw) + stored;
    var t5 := LE(2, 0) + t6;
    var t4 := [filter] + t5;
    var t3 := [codec] + t4;
    var t2 := LE(4, runID) + t3;
    U64Back(base, LE(4, count) + t2);
    U32Back(count, t2);
    U32Back(runID, t3);
    U8Back(codec, t4);
    U8Back(filter, t5);
    U16Back(0, t6);
    SkipInt(8, raw, stored);
    assert DataPayload(base, count, runID, codec, filter, raw, stored) == LE(8, base) + (LE(4, count) + t2);
  }

  /** Filtering and compressing a batch is undone on the way back. */
  lemma DataBack(z: Zip, s: Schema, base: u64, count: u32, runID: u32, codec: byte, filter: byte, records: bytes)
    requires Inverse(z) && (codec == CODEC_NONE || Compresses(codec))
    requires filter == FILTER_NONE || filter == FILTER_TRANSPOSE
    requires filter == FILTER_TRANSPOSE ==> count * s.RecordBytes() <= |records|
    requires TailsOf(s, count, records).Some?
    ensures var payload := FilterRecords(filter, s, count, records);
      DecodeData(z, s, DataPayload(base, count, runID, codec, filter, |payload|, Packed(z, codec, payload)))
      == Decoded(Batch(s, runID, base, count, records, TailsOf(s, count, records).value))
  {
    hide TakeDataHeader;
    hide DataPayload;
    hide TailsOf;
    hide Filtered;
    hide Unfiltered;
    var payload := FilterRecords(filter, s, count, records);
    DataHeaderBack(base, count, runID, codec, filter, |payload|, Packed(z, codec, payload));
    if filter == FILTER_TRANSPOSE { FilterBack(records, count * s.RecordBytes(), s.RecordBytes()); }
    assert Unpacked(z, codec, Packed(z, codec, payload)) == Some(payload);
  }

  /** A hold decodes to the values, the presence and the place it restates. */
  lemma HoldBack(s: Schema, h: HoldState)
    requires |h.present| == |s.fields| && |h.record| >= s.RecordBytes()
    requires TailsOf(s, 1, h.record).Some?
    ensures DecodeHold(s, HoldPayload(h))
         == Some(Held(s, h.base, h.runID, h.present, h.record, TailsOf(s, 1, h.record).value))
  {
    var bits := PackBits(h.present);
    var t3 := bits + h.record;
    U64Back(h.base, LE(4, h.runID) + (LE(4, 0) + t3));
    U32Back(h.runID, LE(4, 0) + t3);
    U32Back(0, t3);
    RawBack(bits, h.record);
    forall i | 0 <= i < |h.present| ensures PresentOf(bits, |s.fields|)[i] == h.present[i] {
      PackBitsBit(h.present, i);
    }
    assert PresentOf(bits, |s.fields|) == h.present;
  }

  // --- the simulation --------------------------------------------------------------------

  /** A stream as the current segment declared it. */
  function Declared(ws: WState, k: nat): Schema
    requires k < |ws.streams| && ws.streams[k].uuid in ws.segStep
  {
    ws.streams[k].(axisStep := ws.segStep[ws.streams[k].uuid])
  }

  /** The reader binds exactly the tags of the first `n` streams, to the schemas
      this segment declared. */
  ghost predicate Binds(ws: WState, m: map<u16, Schema>, n: nat)
    requires n <= |ws.streams| <= TWO16
  {
    (forall id: u16 :: id in m <==> id < n) &&
    (forall k :: 0 <= k < n ==> ws.streams[k].uuid in ws.segStep && k in m && m[k] == Norm(Declared(ws, k)))
  }

  /** A hold describes one record of its stream. */
  predicate HoldFits(s: Schema, h: HoldState) {
    |h.present| == |s.fields| && |h.record| >= s.RecordBytes() && TailsOf(Norm(s), 1, h.record).Some?
  }

  ghost predicate Distinct(streams: seq<Schema>) {
    forall i, j :: 0 <= i < j < |streams| ==> streams[i].uuid != streams[j].uuid
  }

  /** What every run keeps true of the writer. */
  ghost predicate Sound(ws: WState) {
    |ws.streams| <= TWO16 && Distinct(ws.streams) &&
    (forall s :: s in ws.streams ==> SchemaFits(s) && s.KnownMode()) &&
    (forall s :: s in ws.streams && s.uuid in ws.hold ==> HoldFits(s, ws.hold[s.uuid])) &&
    (forall u :: u in ws.hold ==> exists s :: s in ws.streams && s.uuid == u) &&
    (forall r :: r in ws.runs ==> RunFits(r))
  }

  ghost predicate Sim(ws: WState, rs: RState)
    requires |ws.streams| <= TWO16
  {
    rs.watch && (ws.inSeg ==> rs.runs == ws.segRuns && Binds(ws, rs.streams, |ws.streams|))
  }

  function NewEvents(ws: WState, ws': WState): seq<Event>
    requires |ws.log| <= |ws'.log|
  {
    ws'.log[|ws.log|..]
  }

  /** The reader follows the writer: the frames added since, replayed, are the
      events the writer logged. */
  ghost predicate Follows(z: Zip, ws: WState, rs: RState, ws': WState, rs': RState) {
    ws.log <= ws'.log &&
    ws'.off == ws.off + FramesLen(FramesOf(NewEvents(ws, ws'))) &&
    Replay(z, rs, FramesOf(NewEvents(ws, ws')), ws.off) == Replayed(NewEvents(ws, ws'), rs', false)
  }

  lemma FollowsNothing(z: Zip, ws: WState, rs: RState, ws': WState)
    requires ws'.log == ws.log && ws'.off == ws.off
    ensures Follows(z, ws, rs, ws', rs)
  {
    assert NewEvents(ws, ws') == [];
  }

  lemma FollowsThen(z: Zip, a: WState, ra: RState, b: WState, rb: RState, c: WState, rc: RState)
    requires Follows(z, a, ra, b, rb) && Follows(z, b, rb, c, rc)
    ensures Follows(z, a, ra, c, rc)
  {
    hide Replay;
    hide FramesOf;
    hide FramesLen;
    SplitNew(a.log, b.log, c.log);
    ReplayJoin(z, ra, NewEvents(a, b), a.off, rb, NewEvents(b, c), rc);
  }

  lemma ReplayJoin(z: Zip, ra: RState, x: seq<Event>, at: nat, rb: RState, y: seq<Event>, rc: RState)
    requires Replay(z, ra, FramesOf(x), at) == Replayed(x, rb, false)
    requires Replay(z, rb, FramesOf(y), at + FramesLen(FramesOf(x))) == Replayed(y, rc, false)
    ensures Replay(z, ra, FramesOf(x + y), at) == Replayed(x + y, rc, false)
    ensures FramesLen(FramesOf(x + y)) == FramesLen(FramesOf(x)) + FramesLen(FramesOf(y))
  {
    hide *;
    FramesOfAppend(x, y);
    ReplayAppend(z, ra, FramesOf(x), FramesOf(y), at);
    FramesAppend(FramesOf(x), FramesOf(y));
  }

  lemma SplitNew(a: seq<Event>, b: seq<Event>, c: seq<Event>)
    requires a <= b <= c
    ensures a <= c && c[|a|..] == b[|a|..] + c[|b|..]
  {
  }

  lemma FramesOfAppend(x: seq<Event>, y: seq<Event>)
    ensures FramesOf(x + y) == FramesOf(x) + FramesOf(y)
  {
  }

  /** One frame: the reader follows if it takes the frame for what was logged. */
  lemma FollowsEmit(z: Zip, ws: WState, rs: RState, w0: WState, typ: byte, id: u16, payload: bytes, out: Outcome, rs': RState)
    requires w0.log == ws.log && w0.off == ws.off
    requires Apply(z, rs, Frame(typ, 0, id, payload)) == Go(rs', out)
    ensures Follows(z, ws, rs, Emit(w0, typ, id, payload, out), rs')
  {
    hide Apply;
    var f := Frame(typ, 0, id, payload);
    var ev := Event(ws.off, f, out);
    var w := Emit(w0, typ, id, payload, out);
    assert NewEvents(ws, w) == [ev];
    assert FramesOf([ev]) == [f];
    assert [f][1..] == [];
    var r := Replay(z, rs', [], ws.off + f.Size());
    assert [ev] + r.events == [ev];
    assert FramesLen([f]) == f.Size();
  }

  // --- the preamble -----------------------------------------------------------------------

  lemma SchemaFollows(z: Zip, ws: WState, rs: RState, k: nat) returns (rs': RState)
    requires Sound(ws) && k < |ws.streams| && rs.watch && rs.runs == ws.segRuns && Binds(ws, rs.streams, k)
    ensures var w := WriteSchema(ws, k);
      Follows(z, ws, rs, w, rs') && Sound(w) && w.streams == ws.streams && w.inSeg == ws.inSeg &&
      w.runs == ws.runs && w.hold == ws.hold &&
      rs'.watch && rs'.runs == w.segRuns && Binds(w, rs'.streams, k + 1)
  {
    var s := ws.streams[k];
    rs' := rs.(streams := rs.streams[Id(k) := Norm(s)]);
    BindOne(ws, WriteSchema(ws, k), rs.streams, k);
    SoundSchema(ws, k);
    hide Sound;
    SchemaApplies(z, rs, s, Id(k));
    hide Binds;
    hide Apply;
    hide Follows;
    hide PutSchema;
    hide Norm;
    var w0 := ws.(segStep := ws.segStep[s.uuid := s.axisStep]);
    FollowsEmit(z, ws, rs, w0, FRAME_SCHEMA, Id(k), PutSchema(s), Bound(Norm(s), Id(k)), rs');
  }

  lemma SoundSchema(ws: WState, k: nat)
    requires Sound(ws) && k < |ws.streams|
    ensures Sound(WriteSchema(ws, k))
    ensures SchemaFits(ws.streams[k]) && ws.streams[k].KnownMode() && Distinct(ws.streams)
  {
    assert ws.streams[k] in ws.streams;
  }

  lemma BindOne(ws: WState, w: WState, m: map<u16, Schema>, k: nat)
    requires k < |ws.streams| <= TWO16 && Distinct(ws.streams) && Binds(ws, m, k)
    requires w.streams == ws.streams
    requires w.segStep == ws.segStep[ws.streams[k].uuid := ws.streams[k].axisStep]
    ensures Binds(w, m[Id(k) := Norm(ws.streams[k])], k + 1)
  {
    hide Norm;
    var s := ws.streams[k];
    var m' := m[Id(k) := Norm(s)];
    assert Id(k) == k;
    assert s.(axisStep := s.axisStep) == s;
    forall i | 0 <= i < k + 1
      ensures w.streams[i].uuid in w.segStep && i in m' && m'[i] == Norm(Declared(w, i))
    {
      if i < k {
        assert ws.streams[i].uuid != s.uuid;
        assert Declared(w, i) == Declared(ws, i);
      } else {
        assert Declared(w, k) == s;
      }
    }
  }

  lemma SchemaApplies(z: Zip, rs: RState, s: Schema, id: u16)
    requires SchemaFits(s) && s.KnownMode()
    ensures Apply(z, rs, Frame(FRAME_SCHEMA, 0, id, PutSchema(s)))
         == Go(rs.(streams := rs.streams[id := Norm(s)]), Bound(Norm(s), id))
  {
    SchemaBack(s);
    hide TakeSchema;
    hide PutSchema;
  }

  lemma {:induction false} SchemasFollow(z: Zip, ws: WState, rs: RState, k: nat) returns (rs': RState)
    requires Sound(ws) && k <= |ws.streams| && rs.watch && rs.runs == ws.segRuns && Binds(ws, rs.streams, k)
    ensures var w := WriteSchemas(ws, k);
      Follows(z, ws, rs, w, rs') && Sound(w) && w.streams == ws.streams && w.inSeg == ws.inSeg &&
      w.runs == ws.runs && w.hold == ws.hold &&
      rs'.watch && rs'.runs == w.segRuns && Binds(w, rs'.streams, |w.streams|)
    decreases |ws.streams| - k
  {
    hide Follows;
    hide Binds;
    hide Sound;
    hide WriteSchema;
    if k == |ws.streams| {
      rs' := rs;
      FollowsNothing(z, ws, rs, ws);
    } else {
      var w1 := WriteSchema(ws, k);
      var r1 := SchemaFollows(z, ws, rs, k);
      rs' := SchemasFollow(z, w1, r1, k + 1);
      FollowsThen(z, ws, rs, w1, r1, WriteSchemas(ws, k), rs');
    }
  }

  lemma RunFollows(z: Zip, ws: WState, rs: RState, r: Run) returns (rs': RState)
    requires RunFits(r) && rs.runs == ws.segRuns
    ensures Follows(z, ws, rs, WriteRun(ws, r), rs')
    ensures rs' == rs.(runs := rs.runs[r.id := r]) && rs'.runs == WriteRun(ws, r).segRuns
  {
    RunBack(r);
    rs' := rs.(runs := rs.runs[r.id := r]);
    hide TakeRun;
    hide PutRun;
    FollowsEmit(z, ws, rs, ws.(segRuns := ws.segRuns[r.id := r]), FRAME_RUN, 0, PutRun(r), Nothing, rs');
  }

  lemma {:induction false} RunsFollow(z: Zip, ws: WState, rs: RState, runs: seq<Run>) returns (rs': RState)
    requires (forall r :: r in runs ==> RunFits(r)) && rs.runs == ws.segRuns
    ensures var w := WriteRuns(ws, runs);
      Follows(z, ws, rs, w, rs') && rs'.runs == w.segRuns && rs'.streams == rs.streams && rs'.watch == rs.watch &&
      w == ws.(log := w.log, off := w.off, segRuns := w.segRuns)
    decreases |runs|
  {
    hide Follows;
    if runs == [] {
      rs' := rs;
      FollowsNothing(z, ws, rs, ws);
    } else {
      var w1 := WriteRun(ws, runs[0]);
      var r1 := RunFollows(z, ws, rs, runs[0]);
      rs' := RunsFollow(z, w1, r1, runs[1..]);
      FollowsThen(z, ws, rs, w1, r1, WriteRuns(ws, runs), rs');
    }
  }

  lemma HoldFollows(z: Zip, ws: WState, rs: RState, k: nat)
    requires Sound(ws) && ws.inSeg && Sim(ws, rs)
    requires k < |ws.streams| && ws.streams[k].uuid in ws.hold
    requires ws.segStep[ws.streams[k].uuid] == ws.streams[k].axisStep
    ensures Follows(z, ws, rs, WriteHold(ws, k), rs)
  {
    var s := ws.streams[k];
    var h := ws.hold[s.uuid];
    BoundNow(ws, rs, k);
    hide Sound;
    hide Sim;
    hide HoldFits;
    HoldApplies(z, rs, s, Id(k), h);
    hide Apply;
    FollowsEmit(z, ws, rs, ws, FRAME_HOLD, Id(k), HoldPayload(h), HeldValues(Restated(s, h)), rs);
  }

  /** A stream whose step is the declared one is bound to its current schema. */
  lemma BoundNow(ws: WState, rs: RState, k: nat)
    requires Sound(ws) && ws.inSeg && Sim(ws, rs) && k < |ws.streams| && StepDeclared(ws, ws.streams[k])
    ensures var s := ws.streams[k];
      Id(k) in rs.streams && rs.streams[Id(k)] == Norm(s) && s.uuid in ws.segStep &&
      rs.watch && rs.runs == ws.segRuns && (s.uuid in ws.hold ==> HoldFits(s, ws.hold[s.uuid]))
  {
    hide HoldFits;
    hide SchemaFits;
    hide Norm;
    var s := ws.streams[k];
    assert s in ws.streams;
    assert Declared(ws, k) == s;
  }

  lemma HoldApplies(z: Zip, rs: RState, s: Schema, id: u16, h: HoldState)
    requires rs.watch && id in rs.streams && rs.streams[id] == Norm(s) && HoldFits(s, h)
    ensures Apply(z, rs, Frame(FRAME_HOLD, 0, id, HoldPayload(h))) == Go(rs, HeldValues(Restated(s, h)))
  {
    assert |Norm(s).fields| == |s.fields|;
    HoldBack(Norm(s), h);
    hide DecodeHold;
    hide HoldPayload;
    hide TailsOf;
  }

  /** The segment has declared every stream's current step. */
  ghost predicate Current(ws: WState) {
    forall s :: s in ws.streams ==> s.uuid in ws.segStep && ws.segStep[s.uuid] == s.axisStep
  }

  lemma {:induction false} HoldsFollow(z: Zip, ws: WState, rs: RState, k: nat)
    requires Sound(ws) && ws.inSeg && Sim(ws, rs) && Current(ws) && k <= |ws.streams|
    ensures var w := WriteHolds(ws, k);
      Follows(z, ws, rs, w, rs) && w == ws.(log := w.log, off := w.off)
    decreases |ws.streams| - k
  {
    hide Follows;
    if k == |ws.streams| {
      FollowsNothing(z, ws, rs, ws);
    } else if ws.streams[k].uuid in ws.hold {
      assert ws.streams[k] in ws.streams;
      HoldFollows(z, ws, rs, k);
      var w1 := WriteHold(ws, k);
      SameStanding(ws, w1, rs);
      hide Sound;
      hide Sim;
      hide Current;
      HoldsFollow(z, w1, rs, k + 1);
      FollowsThen(z, ws, rs, w1, rs, WriteHolds(ws, k), rs);
    } else {
      HoldsFollow(z, ws, rs, k + 1);
    }
  }

  lemma SameStanding(ws: WState, w: WState, rs: RState)
    requires Sound(ws) && Sim(ws, rs) && w == ws.(log := w.log, off := w.off)
    ensures Sound(w) && Sim(w, rs) && (Current(ws) ==> Current(w))
  {
    if ws.inSeg { forall k | 0 <= k < |ws.streams| && ws.streams[k].uuid in ws.segStep ensures Declared(w, k) == Declared(ws, k) { } }
  }

  lemma {:induction false} SchemasDeclare(ws: WState, k: nat)
    requires k <= |ws.streams| && Distinct(ws.streams)
    requires forall i :: 0 <= i < k ==> ws.streams[i].uuid in ws.segStep && ws.segStep[ws.streams[i].uuid] == ws.streams[i].axisStep
    ensures var w := WriteSchemas(ws, k);
      Current(w) && w == ws.(log := w.log, off := w.off, segStep := w.segStep)
    decreases |ws.streams| - k
  {
    hide PutSchema;
    hide Norm;
    if k < |ws.streams| {
      var w := WriteSchema(ws, k);
      forall i | 0 <= i < k ensures w.segStep[ws.streams[i].uuid] == ws.segStep[ws.streams[i].uuid] { }
      SchemasDeclare(w, k + 1);
    }
  }

  /** Opening a segment: the reader's bindings are cleared and made anew. */
  lemma SegmentFollows(z: Zip, ws: WState, rs: RState, wall: u64) returns (rs': RState)
    requires Sound(ws) && Sim(ws, rs)
    ensures var w := BeginSegment(ws, wall);
      Follows(z, ws, rs, w, rs') && Sound(w) && Sim(w, rs') && w.inSeg && Current(w) && w.streams == ws.streams
  {
    hide Follows;
    var w0 := OpenSegment(ws, wall);
    var r0 := OnSync(rs, SyncPayload(ws.seqNo, wall));
    SyncFollows(z, ws, rs, wall);
    OpenStanding(ws, rs, wall);
    SchemasDeclare(w0, 0);
    hide Sound;
    hide Binds;
    hide OnSync;
    hide Current;
    hide Emit;
    var r1 := SchemasFollow(z, w0, r0, 0);
    var w1 := WriteSchemas(w0, 0);
    FollowsThen(z, ws, rs, w0, r0, w1, r1);
    rs' := RestFollows(z, w1, r1);
    FollowsThen(z, ws, rs, w1, r1, BeginSegment(ws, wall), rs');
  }

  lemma OpenStanding(ws: WState, rs: RState, wall: u64)
    requires Sound(ws) && rs.watch
    ensures var w := OpenSegment(ws, wall);
      var r := OnSync(rs, SyncPayload(ws.seqNo, wall));
      Sound(w) && w.inSeg && Distinct(w.streams) && w.streams == ws.streams &&
      r.watch && r.runs == w.segRuns && Binds(w, r.streams, 0)
  {
  }

  /** The runs and the holds, once the schemas are out. */
  lemma RestFollows(z: Zip, w1: WState, r1: RState) returns (rs': RState)
    requires Sound(w1) && Sim(w1, r1) && w1.inSeg && Current(w1)
    ensures var w := WriteHolds(WriteRuns(w1, w1.runs), 0);
      Follows(z, w1, r1, w, rs') && Sound(w) && Sim(w, rs') && w.inSeg && Current(w) && w.streams == w1.streams
  {
    hide Follows;
    rs' := RunsFollow(z, w1, r1, w1.runs);
    var w2 := WriteRuns(w1, w1.runs);
    StandingWithRuns(w1, w2, r1, rs');
    hide Sound;
    hide Sim;
    hide Current;
    HoldsFollow(z, w2, rs', 0);
    var w3 := WriteHolds(w2, 0);
    FollowsThen(z, w1, r1, w2, rs', w3, rs');
    SameStanding(w2, w3, rs');
  }

  lemma StandingWithRuns(ws: WState, w: WState, rs: RState, rs': RState)
    requires Sound(ws) && Sim(ws, rs) && ws.inSeg && Current(ws)
    requires w == ws.(log := w.log, off := w.off, segRuns := w.segRuns)
    requires rs'.runs == w.segRuns && rs'.streams == rs.streams && rs'.watch == rs.watch
    ensures Sound(w) && Sim(w, rs') && Current(w)
  {
    forall k | 0 <= k < |ws.streams| && ws.streams[k].uuid in ws.segStep ensures Declared(w, k) == Declared(ws, k) { }
  }

  lemma SyncFollows(z: Zip, ws: WState, rs: RState, wall: u64)
    ensures Follows(z, ws, rs, OpenSegment(ws, wall), OnSync(rs, SyncPayload(ws.seqNo, wall)))
  {
    hide OnSync;
    var payload := SyncPayload(ws.seqNo, wall);
    FollowsEmit(z, ws, rs, ws, FRAME_SYNC, 0, payload, Nothing, OnSync(rs, payload));
    FollowsSame(z, ws, rs, Emit(ws, FRAME_SYNC, 0, payload, Nothing), OpenSegment(ws, wall), OnSync(rs, payload));
  }

  lemma FollowsSame(z: Zip, ws: WState, rs: RState, w: WState, w': WState, rs': RState)
    requires Follows(z, ws, rs, w, rs') && w'.log == w.log && w'.off == w.off
    ensures Follows(z, ws, rs, w', rs')
  {
  }

  // --- every call ---------------------------------------------------------------------------

  /** What the theorem asks of a call: a new stream is new and its schema has room
      in its counts, records carry their tails, and the filter is one a reader
      knows. */
  ghost predicate OpFits(ws: WState, op: Op) {
    match op
    case OpAddStream(s) =>
      SchemaFits(s) && |ws.streams| < TWO16 && forall t :: t in ws.streams ==> t.uuid != s.uuid
    case OpAddRun(r) => RunFits(r)
    case OpSetHold(k, h) => k < |ws.streams| ==> TailsOf(Norm(ws.streams[k]), 1, h.record).Some?
    case OpWriteData(k, _, _, count, records) =>
      (ws.filter == FILTER_NONE || ws.filter == FILTER_TRANSPOSE) &&
      (k < |ws.streams| ==> TailsOf(Norm(ws.streams[k]), count, records).Some?)
    case _ => true
  }

  /** Nothing the reader cares about: the frame is taken and changes no binding. */
  lemma PlainFollows(z: Zip, ws: WState, rs: RState, typ: byte, payload: bytes) returns (rs': RState)
    requires typ == FRAME_META || typ == FRAME_ATTACH || typ == FRAME_INDEX || typ == FRAME_END
    requires Sound(ws) && Sim(ws, rs)
    ensures var w := Emit(ws, typ, 0, payload, Nothing);
      Follows(z, ws, rs, w, rs') && Sound(w) && Sim(w, rs')
  {
    var a := Apply(z, rs, Frame(typ, 0, 0, payload));
    PlainApplies(z, rs, typ, payload);
    rs' := a.rs;
    var w := Emit(ws, typ, 0, payload, Nothing);
    hide Apply;
    FollowsEmit(z, ws, rs, ws, typ, 0, payload, Nothing, rs');
    hide Follows;
    SameStanding(ws, w, rs);
    SimView(w, rs, rs');
  }

  lemma PlainApplies(z: Zip, rs: RState, typ: byte, payload: bytes)
    requires typ == FRAME_META || typ == FRAME_ATTACH || typ == FRAME_INDEX || typ == FRAME_END
    ensures var a := Apply(z, rs, Frame(typ, 0, 0, payload));
      a.Go? && a.out == Nothing &&
      a.rs.streams == rs.streams && a.rs.runs == rs.runs && a.rs.watch == rs.watch
  {
  }

  lemma SimView(ws: WState, rs: RState, rs': RState)
    requires |ws.streams| <= TWO16 && Sim(ws, rs)
    requires rs'.streams == rs.streams && rs'.runs == rs.runs && rs'.watch == rs.watch
    ensures Sim(ws, rs')
  {
  }

  lemma AddStreamFollows(z: Zip, ws: WState, rs: RState, s: Schema) returns (rs': RState)
    requires Sound(ws) && Sim(ws, rs) && OpFits(ws, OpAddStream(s)) && AddStream(ws, s).Done?
    ensures var w := AddStream(ws, s).ws;
      Follows(z, ws, rs, w, rs') && Sound(w) && Sim(w, rs')
  {
    hide *;
    var w0 := ws.(streams := ws.streams + [s]);
    AddUnfold(ws, s);
    SoundAdd(ws, s);
    FollowsNothing(z, ws, rs, w0);
    if ws.inSeg {
      SimParts(ws, rs);
      BindsAdd(ws, s, rs.streams);
      rs' := SchemaFollows(z, w0, rs, |ws.streams|);
      var w := WriteSchema(w0, |ws.streams|);
      FollowsThen(z, ws, rs, w0, rs, w, rs');
      SimMake(w, rs');
    } else {
      rs' := rs;
      SimIdle(ws, w0, rs);
    }
  }

  lemma AddUnfold(ws: WState, s: Schema)
    requires AddStream(ws, s).Done? && OpFits(ws, OpAddStream(s))
    ensures ValidSchema(s) && |ws.streams| < TWO16
    ensures var w0 := ws.(streams := ws.streams + [s]);
      AddStream(ws, s).ws == if ws.inSeg then WriteSchema(w0, |ws.streams|) else w0
  {
    hide ValidSchema;
    hide WriteSchema;
    hide SchemaFits;
  }

  lemma SimParts(ws: WState, rs: RState)
    requires |ws.streams| <= TWO16 && Sim(ws, rs) && ws.inSeg
    ensures rs.watch && rs.runs == ws.segRuns && Binds(ws, rs.streams, |ws.streams|)
  {
  }

  lemma SimMake(ws: WState, rs: RState)
    requires |ws.streams| <= TWO16
    requires rs.watch && rs.runs == ws.segRuns && Binds(ws, rs.streams, |ws.streams|)
    ensures Sim(ws, rs)
  {
  }

  lemma SimIdle(ws: WState, w: WState, rs: RState)
    requires |ws.streams| <= TWO16 && |w.streams| <= TWO16 && Sim(ws, rs) && !ws.inSeg && !w.inSeg
    ensures Sim(w, rs)
  {
  }

  lemma SoundAdd(ws: WState, s: Schema)
    requires Sound(ws) && OpFits(ws, OpAddStream(s)) && ValidSchema(s)
    ensures Sound(ws.(streams := ws.streams + [s]))
  {
    hide SchemaFits;
    hide HoldFits;
    var w := ws.(streams := ws.streams + [s]);
    forall t | t in w.streams && t.uuid in w.hold ensures HoldFits(t, w.hold[t.uuid]) {
      assert t in ws.streams || t == s;
    }
    forall u | u in w.hold ensures exists t :: t in w.streams && t.uuid == u {
      var t :| t in ws.streams && t.uuid == u;
      assert t in w.streams;
    }
    forall i, j | 0 <= i < j < |w.streams| ensures w.streams[i].uuid != w.streams[j].uuid {
      assert w.streams[i] in ws.streams;
    }
  }

  lemma BindsAdd(ws: WState, s: Schema, m: map<u16, Schema>)
    requires |ws.streams| < TWO16 && Binds(ws, m, |ws.streams|)
    ensures Binds(ws.(streams := ws.streams + [s]), m, |ws.streams|)
  {
    hide Norm;
    var w := ws.(streams := ws.streams + [s]);
    forall k | 0 <= k < |ws.streams| ensures w.streams[k].uuid in w.segStep && k in m && m[k] == Norm(Declared(w, k)) {
      assert Declared(w, k) == Declared(ws, k);
    }
  }

  /** Changing a step under a declared schema changes no binding: the reader keeps
      what the segment declared. */
  lemma SetStepStanding(ws: WState, rs: RState, k: nat, step: u64)
    requires Sound(ws) && Sim(ws, rs) && k < |ws.streams|
    ensures var w := ws.(streams := ws.streams[k := ws.streams[k].(axisStep := step)]);
      Sound(w) && Sim(w, rs)
  {
    var s := ws.streams[k];
    var s' := s.(axisStep := step);
    var w := ws.(streams := ws.streams[k := s']);
    RestepBinds(ws, rs, k, step);
    SoundRestep(ws, k, s');
  }

  lemma SoundRestep(ws: WState, k: nat, s': Schema)
    requires Sound(ws) && k < |ws.streams| && s' == ws.streams[k].(axisStep := s'.axisStep)
    ensures Sound(ws.(streams := ws.streams[k := s']))
  {
    var s := ws.streams[k];
    var w := ws.(streams := ws.streams[k := s']);
    assert s in ws.streams;
    RestepHold(s, s'.axisStep);
    assert SchemaFits(s') && s'.KnownMode();
    hide SchemaFits;
    hide HoldFits;
    RestepHeld(ws, k, s');
    forall t | t in w.streams ensures SchemaFits(t) && t.KnownMode() && (t.uuid in w.hold ==> HoldFits(t, w.hold[t.uuid])) {
      assert t == s' || t in ws.streams;
    }
  }

  lemma RestepHeld(ws: WState, k: nat, s': Schema)
    requires k < |ws.streams| && s'.uuid == ws.streams[k].uuid
    requires forall u :: u in ws.hold ==> exists t :: t in ws.streams && t.uuid == u
    ensures forall u :: u in ws.hold ==> exists t :: t in ws.streams[k := s'] && t.uuid == u
  {
    var ts := ws.streams[k := s'];
    forall u | u in ws.hold ensures exists t :: t in ts && t.uuid == u {
      var t :| t in ws.streams && t.uuid == u;
      var i :| 0 <= i < |ws.streams| && ws.streams[i] == t;
      assert ts[i] in ts && ts[i].uuid == u;
    }
  }

  lemma RestepBinds(ws: WState, rs: RState, k: nat, step: u64)
    requires |ws.streams| <= TWO16 && Sim(ws, rs) && k < |ws.streams|
    ensures Sim(ws.(streams := ws.streams[k := ws.streams[k].(axisStep := step)]), rs)
  {
    hide Norm;
    var w := ws.(streams := ws.streams[k := ws.streams[k].(axisStep := step)]);
    if ws.inSeg {
      forall i | 0 <= i < |ws.streams| && ws.streams[i].uuid in ws.segStep ensures Declared(w, i) == Declared(ws, i) { }
    }
  }

  lemma RestepHold(s: Schema, step: u64)
    ensures forall h: HoldState :: HoldFits(s.(axisStep := step), h) == HoldFits(s, h)
  {
    var s' := s.(axisStep := step);
    assert Norm(s').fields == Norm(s).fields;
    forall h: HoldState ensures HoldFits(s', h) == HoldFits(s, h) {
      assert TailsOf(Norm(s'), 1, h.record) == TailsOf(Norm(s), 1, h.record);
    }
  }

  lemma SetHoldStanding(ws: WState, rs: RState, k: nat, h: HoldState)
    requires Sound(ws) && Sim(ws, rs) && k < |ws.streams| && SetHold(ws, k, h).Done?
    requires OpFits(ws, OpSetHold(k, h))
    ensures var w := SetHold(ws, k, h).ws;
      Sound(w) && Sim(w, rs)
  {
    var s := ws.streams[k];
    var w := SetHold(ws, k, h).ws;
    forall t | t in w.streams && t.uuid in w.hold ensures HoldFits(t, w.hold[t.uuid]) {
      if t.uuid == s.uuid {
        var i :| 0 <= i < |ws.streams| && ws.streams[i] == t;
        assert i == k;
      }
    }
    assert s in w.streams;
    if ws.inSeg {
      forall i | 0 <= i < |ws.streams| && ws.streams[i].uuid in ws.segStep ensures Declared(w, i) == Declared(ws, i) { }
    }
  }

  lemma {:induction false} DropRunsSubset(rs: seq<Run>, id: u32)
    ensures forall r :: r in DropRuns(rs, id) ==> r in rs
    decreases |rs|
  {
    if rs != [] { DropRunsSubset(rs[1..], id); }
  }

  lemma BatchFollows(z: Zip, ws: WState, rs: RState, k: nat, base: u64, runID: u32, count: u32, records: bytes)
    requires Inverse(z) && Sound(ws) && Sim(ws, rs) && ws.inSeg && k < |ws.streams|
    requires OpFits(ws, OpWriteData(k, base, runID, count, records))
    requires WriteBatch(z, ws, k, base, runID, count, records).Done?
    ensures var w := WriteBatch(z, ws, k, base, runID, count, records).ws;
      Follows(z, ws, rs, w, rs) && Sound(w) && Sim(w, rs)
  {
    hide *;
    var s := ws.streams[k];
    var w := WriteBatch(z, ws, k, base, runID, count, records).ws;
    BatchEmits(z, ws, k, base, runID, count, records);
    BoundNow(ws, rs, k);
    BatchFits(ws, k, base, runID, count, records);
    SameBindings(ws, w, rs);
    BatchApplies(z, rs, s, Id(k), base, runID, count, ws.codec, ws.filter, records);
    FollowsEmit(z, ws, rs, BatchState(ws, s, base, runID, count), FRAME_DATA, Id(k),
      DataFrame(z, s, base, runID, count, ws.codec, ws.filter, records),
      Batched(s, base, runID, count, records, ws.segRuns), rs);
  }

  lemma BatchFits(ws: WState, k: nat, base: u64, runID: u32, count: u32, records: bytes)
    requires k < |ws.streams| && OpFits(ws, OpWriteData(k, base, runID, count, records))
    ensures ws.filter == FILTER_NONE || ws.filter == FILTER_TRANSPOSE
    ensures TailsOf(Norm(ws.streams[k]), count, records).Some?
  {
  }

  /** The bookkeeping of a batch. */
  function BatchState(ws: WState, s: Schema, base: u64, runID: u32, count: u32): WState {
    NoteEntry(NoteRun(ws, s.uuid, runID), s.uuid, Entry(ws.off, base, count, runID))
  }

  /** The payload of a batch. */
  ghost function DataFrame(z: Zip, s: Schema, base: u64, runID: u32, count: u32, codec: byte, filter: byte, records: bytes): bytes
    requires filter == FILTER_TRANSPOSE ==> count * s.RecordBytes() <= |records|
  {
    var payload := FilterRecords(filter, s, count, records);
    DataPayload(base, count, runID, codec, filter, |payload|, Packed(z, codec, payload))
  }

  /** What a batch says. */
  function Batched(s: Schema, base: u64, runID: u32, count: u32, records: bytes, runs: map<u32, Run>): Outcome {
    var tails := match TailsOf(Norm(s), count, records) case None => [] case Some(t) => t;
    Reading.Records(Batch(Norm(s), runID, base, count, records, tails), Lookup(runs, runID))
  }

  lemma BatchEmits(z: Zip, ws: WState, k: nat, base: u64, runID: u32, count: u32, records: bytes)
    requires k < |ws.streams| && WriteBatch(z, ws, k, base, runID, count, records).Done?
    ensures var s := ws.streams[k];
      StepDeclared(ws, s) && (ws.codec == CODEC_NONE || Compresses(ws.codec)) && RunAllowed(ws, s.uuid, runID) &&
      (ws.filter == FILTER_TRANSPOSE ==> count * s.RecordBytes() <= |records|) &&
      WriteBatch(z, ws, k, base, runID, count, records).ws ==
        Emit(BatchState(ws, s, base, runID, count), FRAME_DATA, Id(k),
             DataFrame(z, s, base, runID, count, ws.codec, ws.filter, records),
             Batched(s, base, runID, count, records, ws.segRuns))
    ensures var w0 := BatchState(ws, ws.streams[k], base, runID, count);
      w0 == ws.(index := w0.index, order := w0.order, curRun := w0.curRun, pastRun := w0.pastRun)
    ensures var w := WriteBatch(z, ws, k, base, runID, count, records).ws;
      w.streams == ws.streams && w.hold == ws.hold && w.runs == ws.runs && w.segStep == ws.segStep &&
      w.segRuns == ws.segRuns && w.inSeg == ws.inSeg
  {
    BatchStateKeeps(ws, ws.streams[k], base, runID, count);
    hide TailsOf;
    hide FilterRecords;
    hide DataPayload;
    hide Norm;
    hide NoteRun;
    hide NoteEntry;
    hide RunAllowed;
    hide StepDeclared;
    hide Emit;
    EmitKeeps(BatchState(ws, ws.streams[k], base, runID, count), FRAME_DATA, Id(k),
              DataFrame(z, ws.streams[k], base, runID, count, ws.codec, ws.filter, records),
              Batched(ws.streams[k], base, runID, count, records, ws.segRuns));
  }

  lemma BatchStateKeeps(ws: WState, s: Schema, base: u64, runID: u32, count: u32)
    ensures var w0 := BatchState(ws, s, base, runID, count);
      w0 == ws.(index := w0.index, order := w0.order, curRun := w0.curRun, pastRun := w0.pastRun)
  {
    var w := NoteRun(ws, s.uuid, runID);
    assert w == ws.(curRun := w.curRun, pastRun := w.pastRun);
    hide NoteRun;
  }

  lemma EmitKeeps(ws: WState, typ: byte, id: u16, payload: bytes, out: Outcome)
    ensures var w := Emit(ws, typ, id, payload, out);
      w.streams == ws.streams && w.hold == ws.hold && w.runs == ws.runs && w.segStep == ws.segStep &&
      w.segRuns == ws.segRuns && w.inSeg == ws.inSeg
  {
  }

  lemma SameBindings(ws: WState, w: WState, rs: RState)
    requires Sound(ws) && Sim(ws, rs) && w.streams == ws.streams && w.hold == ws.hold && w.runs == ws.runs
    requires w.segStep == ws.segStep && w.segRuns == ws.segRuns && w.inSeg == ws.inSeg
    ensures Sound(w) && Sim(w, rs)
  {
    if ws.inSeg {
      forall i | 0 <= i < |ws.streams| && ws.streams[i].uuid in ws.segStep ensures Declared(w, i) == Declared(ws, i) { }
    }
  }

  lemma BatchApplies(z: Zip, rs: RState, s: Schema, id: u16, base: u64, runID: u32, count: u32,
                     codec: byte, filter: byte, records: bytes)
    requires Inverse(z) && id in rs.streams && rs.streams[id] == Norm(s)
    requires codec == CODEC_NONE || Compresses(codec)
    requires filter == FILTER_NONE || filter == FILTER_TRANSPOSE
    requires filter == FILTER_TRANSPOSE ==> count * s.RecordBytes() <= |records|
    requires TailsOf(Norm(s), count, records).Some?
    ensures Apply(z, rs, Frame(FRAME_DATA, 0, id, DataFrame(z, s, base, runID, count, codec, filter, records)))
         == Go(rs, Batched(s, base, runID, count, records, rs.runs))
  {
    hide Norm;
    hide TailsOf;
    hide DataPayload;
    hide FilterRecords;
    hide Inverse;
    hide DecodeData;
    NormLayout(s, filter, count, records);
    DataBack(z, Norm(s), base, count, runID, codec, filter, records);
  }

  lemma NormLayout(s: Schema, filter: byte, count: u32, records: bytes)
    requires filter == FILTER_TRANSPOSE ==> count * s.RecordBytes() <= |records|
    ensures Norm(s).RecordBytes() == s.RecordBytes()
    ensures FilterRecords(filter, s, count, records) == FilterRecords(filter, Norm(s), count, records)
  {
    hide Filtered;
  }

  /** Every successful call keeps the reader in step with the writer. */
  lemma StepFollows(z: Zip, ws: WState, rs: RState, op: Op) returns (rs': RState)
    requires Inverse(z) && Sound(ws) && Sim(ws, rs) && IndexSane(ws) && OpFits(ws, op)
    requires Step(z, ws, op).Done?
    ensures var w := Step(z, ws, op).ws;
      Follows(z, ws, rs, w, rs') && Sound(w) && Sim(w, rs')
  {
    hide Follows;
    hide HoldFits;
    hide SchemaFits;
    hide Inverse;
    hide WriteData;
    hide BeginSegment;
    hide AddStream;
    hide Binds;
    hide TailsOf;
    var w := Step(z, ws, op).ws;
    rs' := rs;
    match op {
      case OpAddStream(s) => rs' := AddStreamFollows(z, ws, rs, s);
      case OpSetStep(k, step) =>
        SetStepStanding(ws, rs, k, step);
        FollowsNothing(z, ws, rs, w);
      case OpAddRun(r) =>
        var w0 := ws.(runs := ws.runs + [r]);
        SoundRun(ws, r, rs);
        FollowsNothing(z, ws, rs, w0);
        if ws.inSeg {
          rs' := RunFollows(z, w0, rs, r);
          FollowsThen(z, ws, rs, w0, rs, w, rs');
          RunStanding(w0, w, rs, rs');
        }
      case OpEndRun(id) =>
        DropRunsSubset(ws.runs, id);
        SoundFewer(ws, w, rs);
        FollowsNothing(z, ws, rs, w);
      case OpBeginSegment(wall) => rs' := SegmentFollows(z, ws, rs, wall);
      case OpSetHold(k, h) =>
        SetHoldStanding(ws, rs, k, h);
        FollowsNothing(z, ws, rs, w);
      case OpClearHold(k) =>
        SoundFewer(ws, w, rs);
        FollowsNothing(z, ws, rs, w);
      case OpWriteMeta(m) => rs' := PlainFollows(z, ws, rs, FRAME_META, MetaPayload(m));
      case OpWriteAttach(m) => rs' := PlainFollows(z, ws, rs, FRAME_ATTACH, AttachPayload(m));
      case OpWriteData(k, base, runID, count, records) =>
        rs' := DataFollows(z, ws, rs, k, base, runID, count, records);
      case OpSetCodec(c) =>
        SameBindings(ws, w, rs);
        FollowsNothing(z, ws, rs, w);
      case OpSetFilter(f) =>
        SameBindings(ws, w, rs);
        FollowsNothing(z, ws, rs, w);
      case OpClose =>
        var r1 := PlainFollows(z, ws, rs, FRAME_INDEX, IndexPayload(ws));
        var w1 := Emit(ws, FRAME_INDEX, 0, IndexPayload(ws), Nothing);
        rs' := PlainFollows(z, w1, r1, FRAME_END, []);
        FollowsThen(z, ws, rs, w1, r1, w, rs');
    }
  }

  lemma SoundRun(ws: WState, r: Run, rs: RState)
    requires Sound(ws) && Sim(ws, rs) && RunFits(r)
    ensures var w := ws.(runs := ws.runs + [r]);
      Sound(w) && Sim(w, rs)
  {
    var w := ws.(runs := ws.runs + [r]);
    if ws.inSeg {
      forall i | 0 <= i < |ws.streams| && ws.streams[i].uuid in ws.segStep ensures Declared(w, i) == Declared(ws, i) { }
    }
  }

  lemma RunStanding(ws: WState, w: WState, rs: RState, rs': RState)
    requires Sound(ws) && Sim(ws, rs) && w == ws.(log := w.log, off := w.off, segRuns := w.segRuns)
    requires rs'.streams == rs.streams && rs'.watch == rs.watch && rs'.runs == w.segRuns
    ensures Sound(w) && Sim(w, rs')
  {
    if ws.inSeg {
      forall i | 0 <= i < |ws.streams| && ws.streams[i].uuid in ws.segStep ensures Declared(w, i) == Declared(ws, i) { }
    }
  }

  lemma SoundFewer(ws: WState, w: WState, rs: RState)
    requires Sound(ws) && Sim(ws, rs) && w == ws.(runs := w.runs, hold := w.hold)
    requires forall r :: r in w.runs ==> r in ws.runs
    requires forall u :: u in w.hold ==> u in ws.hold && w.hold[u] == ws.hold[u]
    ensures Sound(w) && Sim(w, rs)
  {
    if ws.inSeg {
      forall i | 0 <= i < |ws.streams| && ws.streams[i].uuid in ws.segStep ensures Declared(w, i) == Declared(ws, i) { }
    }
  }

  lemma DataFollows(z: Zip, ws: WState, rs: RState, k: nat, base: u64, runID: u32, count: u32, records: bytes)
    returns (rs': RState)
    requires Inverse(z) && Sound(ws) && Sim(ws, rs) && k < |ws.streams|
    requires OpFits(ws, OpWriteData(k, base, runID, count, records))
    requires WriteData(z, ws, k, base, runID, count, records).Done?
    ensures var w := WriteData(z, ws, k, base, runID, count, records).ws;
      Follows(z, ws, rs, w, rs') && Sound(w) && Sim(w, rs')
  {
    hide *;
    DataUnfold(z, ws, k, base, runID, count, records);
    if ws.inSeg {
      rs' := rs;
      BatchFollows(z, ws, rs, k, base, runID, count, records);
    } else {
      rs' := SegmentFollows(z, ws, rs, 0);
      var w1 := BeginSegment(ws, 0);
      SegmentSettings(ws, 0);
      FitsStill(ws, w1, OpWriteData(k, base, runID, count, records));
      BatchFollows(z, w1, rs', k, base, runID, count, records);
      FollowsThen(z, ws, rs, w1, rs', WriteBatch(z, w1, k, base, runID, count, records).ws, rs');
    }
  }

  lemma DataUnfold(z: Zip, ws: WState, k: nat, base: u64, runID: u32, count: u32, records: bytes)
    requires k < |ws.streams|
    ensures BeginSegment(ws, 0).streams == ws.streams
    ensures WriteData(z, ws, k, base, runID, count, records) ==
      WriteBatch(z, if ws.inSeg then ws else BeginSegment(ws, 0), k, base, runID, count, records)
  {
    SegmentKeeps(ws, 0);
    hide BeginSegment;
    hide WriteBatch;
  }

  lemma FitsStill(ws: WState, w: WState, op: Op)
    requires op.OpWriteData? && OpFits(ws, op) && w.filter == ws.filter && w.streams == ws.streams
    ensures OpFits(w, op)
  {
    hide TailsOf;
  }

  /** Opening a segment leaves the settings and the index alone. */
  lemma SegmentSettings(ws: WState, wall: u64)
    ensures var w := BeginSegment(ws, wall);
      w.filter == ws.filter && w.codec == ws.codec && w.index == ws.index && w.order == ws.order &&
      w.streams == ws.streams && w.off >= ws.off
  {
    var w0 := OpenSegment(ws, wall);
    SchemasSettings(w0, 0);
    var w1 := WriteSchemas(w0, 0);
    RunsSettings(w1, w1.runs);
    HoldsSettings(WriteRuns(w1, w1.runs), 0);
  }

  lemma {:induction false} SchemasSettings(ws: WState, k: nat)
    requires k <= |ws.streams|
    ensures var w := WriteSchemas(ws, k);
      w == ws.(log := w.log, off := w.off, segStep := w.segStep) && w.off >= ws.off
    decreases |ws.streams| - k
  {
    if k < |ws.streams| { SchemasSettings(WriteSchema(ws, k), k + 1); }
  }

  lemma {:induction false} RunsSettings(ws: WState, rs: seq<Run>)
    ensures var w := WriteRuns(ws, rs);
      w == ws.(log := w.log, off := w.off, segRuns := w.segRuns) && w.off >= ws.off
    decreases |rs|
  {
    if rs != [] { RunsSettings(WriteRun(ws, rs[0]), rs[1..]); }
  }

  lemma {:induction false} HoldsSettings(ws: WState, k: nat)
    requires k <= |ws.streams|
    ensures var w := WriteHolds(ws, k);
      w == ws.(log := w.log, off := w.off) && w.off >= ws.off
    decreases |ws.streams| - k
  {
    hide HoldPayload;
    hide Restated;
    if k < |ws.streams| {
      HoldsSettings(if ws.streams[k].uuid in ws.hold then WriteHold(ws, k) else ws, k + 1);
    }
  }
}
