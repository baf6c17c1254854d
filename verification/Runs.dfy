/** Whole runs of calls, and what every run keeps true of the log. */
module Runs {
  import opened Bytes
  import opened Wire
  import opened Format
  import opened Frames
  import opened Records
  import opened Reading
  import opened Writing
  import opened Recording

  lemma SaneGrown(ws: WState, w: WState)
    requires IndexSane(ws) && w.index == ws.index && w.order == ws.order && w.off >= ws.off
    ensures IndexSane(w)
  {
    forall u, e | u in w.index && e in w.index[u] ensures e.offset <= w.off { }
  }

  lemma SaneEntry(ws: WState, u: bytes, e: Entry)
    requires IndexSane(ws) && e.offset <= ws.off
    ensures IndexSane(NoteEntry(ws, u, e))
  {
    var w := NoteEntry(ws, u, e);
    var was := if u in ws.index then ws.index[u] else [];
    assert [] + [e] == [e];
    assert w.index == ws.index[u := was + [e]];
    forall v, x | v in w.index && x in w.index[v] ensures x.offset <= w.off {
      if v == u {
        assert x in was || x == e;
      }
    }
    assert forall v :: v in w.order <==> v in ws.order || v == u;
  }

  lemma SaneBatch(z: Zip, ws: WState, k: nat, base: u64, runID: u32, count: u32, records: bytes)
    requires IndexSane(ws) && k < |ws.streams|
    ensures IndexSane(WriteBatch(z, ws, k, base, runID, count, records).ws)
  {
    hide IndexSane;
    hide TailsOf;
    hide DataPayload;
    hide FilterRecords;
    hide Norm;
    hide NoteEntry;
    var u, e := ws.streams[k].uuid, Entry(ws.off, base, count, runID);
    var w0 := NoteRun(ws, u, runID);
    SaneGrown(ws, w0);
    SaneEntry(w0, u, e);
    var w1 := NoteEntry(w0, u, e);
    var r := WriteBatch(z, ws, k, base, runID, count, records);
    if r.Done? { SaneGrown(w1, r.ws); }
  }

  lemma StepSane(z: Zip, ws: WState, op: Op)
    requires IndexSane(ws)
    ensures IndexSane(Step(z, ws, op).ws)
  {
    hide IndexSane;
    hide ValidSchema;
    hide BeginSegment;
    hide WriteBatch;
    hide PutSchema;
    hide PutRun;
    hide Norm;
    hide IndexPayload;
    hide MetaPayload;
    hide AttachPayload;
    hide DropRuns;
    var w := Step(z, ws, op).ws;
    match op {
      case OpBeginSegment(wall) =>
        SegmentSettings(ws, wall);
        SaneGrown(ws, w);
      case OpWriteData(k, base, runID, count, records) =>
        if k < |ws.streams| {
          SegmentSettings(ws, 0);
          DataUnfold(z, ws, k, base, runID, count, records);
          var w0 := if ws.inSeg then ws else BeginSegment(ws, 0);
          SaneGrown(ws, w0);
          SaneBatch(z, w0, k, base, runID, count, records);
        }
      case _ => SaneGrown(ws, w);
    }
  }

  /** The calls in order, until one fails. */
  ghost function RunFrom(z: Zip, ws: WState, ops: seq<Op>): (r: WResult)
    requires IndexSane(ws)
    ensures IndexSane(r.ws)
    decreases |ops|
  {
    if ops == [] then Done(ws)
    else
      StepSane(z, ws, ops[0]);
      var r := Step(z, ws, ops[0]);
      if r.Failed? then r else RunFrom(z, r.ws, ops[1..])
  }

  ghost predicate AllOpsFit(z: Zip, ws: WState, ops: seq<Op>)
    requires IndexSane(ws)
    decreases |ops|
  {
    ops == [] ||
    (OpFits(ws, ops[0]) &&
     (StepSane(z, ws, ops[0]);
      var r := Step(z, ws, ops[0]);
      r.Done? ==> AllOpsFit(z, r.ws, ops[1..])))
  }

  /** A program with a fresh writer whose every call succeeded, ending in `ws`. */
  ghost predicate Recorded(z: Zip, ops: seq<Op>, ws: WState) {
    Inverse(z) && AllOpsFit(z, START, ops) && RunFrom(z, START, ops) == Done(ws) && AllFit(FramesOf(ws.log))
  }

  /** The file a writer has produced. */
  function FileOf(ws: WState): bytes { FileHeader() + FramesBytes(FramesOf(ws.log)) }

  // --- the events a step adds ------------------------------------------------------------

  /** An event that opens no segment and carries no records. */
  predicate Quiet(e: Event) {
    e.frame.typ != FRAME_SYNC && e.frame.typ != FRAME_INDEX && e.frame.flags == 0 && !e.out.Records?
  }

  ghost predicate AllQuiet(evs: seq<Event>) { forall e :: e in evs ==> Quiet(e) }

  function HeldOf(evs: seq<Event>): seq<Held> {
    if evs == [] then []
    else if evs[0].out.HeldValues? then [evs[0].out.held] + HeldOf(evs[1..])
    else HeldOf(evs[1..])
  }

  lemma {:induction false} HeldAppend(a: seq<Event>, b: seq<Event>)
    ensures HeldOf(a + b) == HeldOf(a) + HeldOf(b)
    decreases |a|
  {
    if a == [] {
      assert a + b == b;
    } else {
      assert (a + b)[1..] == a[1..] + b;
      HeldAppend(a[1..], b);
    }
  }

  /** What is in force for the streams from k on, in stream order. */
  function InForce(streams: seq<Schema>, hold: map<bytes, HoldState>, k: nat): seq<Held>
    requires k <= |streams|
    decreases |streams| - k
  {
    if k == |streams| then []
    else
      (if streams[k].uuid in hold then [Restated(streams[k], hold[streams[k].uuid])] else [])
      + InForce(streams, hold, k + 1)
  }

  lemma {:induction false} SchemasAdd(ws: WState, k: nat) returns (add: seq<Event>)
    requires k <= |ws.streams|
    ensures WriteSchemas(ws, k).log == ws.log + add && AllQuiet(add) && HeldOf(add) == []
    decreases |ws.streams| - k
  {
    hide Norm;
    hide PutSchema;
    if k == |ws.streams| {
      add := [];
    } else {
      var w := WriteSchema(ws, k);
      var e := w.log[|ws.log|];
      var rest := SchemasAdd(w, k + 1);
      add := [e] + rest;
      AddOne(ws.log, e, rest);
    }
  }

  lemma AddOne(log: seq<Event>, e: Event, rest: seq<Event>)
    requires Quiet(e) && AllQuiet(rest)
    ensures (log + [e]) + rest == log + ([e] + rest)
    ensures AllQuiet([e] + rest)
    ensures HeldOf([e] + rest) == (if e.out.HeldValues? then [e.out.held] else []) + HeldOf(rest)
  {
    hide Quiet;
    assert ([e] + rest)[1..] == rest;
  }

  lemma {:induction false} RunsAdd(ws: WState, rs: seq<Run>) returns (add: seq<Event>)
    ensures WriteRuns(ws, rs).log == ws.log + add && AllQuiet(add) && HeldOf(add) == []
    decreases |rs|
  {
    hide PutRun;
    hide AllQuiet;
    hide HeldOf;
    if rs == [] {
      add := [];
      NoneAdded();
    } else {
      var w := WriteRun(ws, rs[0]);
      var e := w.log[|ws.log|];
      var rest := RunsAdd(w, rs[1..]);
      add := [e] + rest;
      AddOne(ws.log, e, rest);
    }
  }

  lemma NoneAdded()
    ensures AllQuiet([]) && HeldOf([]) == []
  {
  }

  lemma {:induction false} HoldsAdd(ws: WState, k: nat) returns (add: seq<Event>)
    requires k <= |ws.streams|
    ensures WriteHolds(ws, k).log == ws.log + add && AllQuiet(add)
    ensures HeldOf(add) == InForce(ws.streams, ws.hold, k)
    decreases |ws.streams| - k
  {
    hide Restated;
    hide HoldPayload;
    hide AllQuiet;
    hide HeldOf;
    if k == |ws.streams| {
      add := [];
      NoneAdded();
    } else if ws.streams[k].uuid in ws.hold {
      var w := WriteHold(ws, k);
      var e := w.log[|ws.log|];
      var rest := HoldsAdd(w, k + 1);
      add := [e] + rest;
      AddOne(ws.log, e, rest);
    } else {
      add := HoldsAdd(ws, k + 1);
    }
  }

  /** A segment opens with a SYNC frame and restates what is in force, carrying no
      records. */
  lemma SegmentAdds(ws: WState, wall: u64) returns (sync: Event, add: seq<Event>)
    ensures BeginSegment(ws, wall).log == ws.log + [sync] + add
    ensures sync == Event(ws.off, Frame(FRAME_SYNC, 0, 0, SyncPayload(ws.seqNo, wall)), Nothing)
    ensures AllQuiet(add) && HeldOf(add) == InForce(ws.streams, ws.hold, 0)
  {
    sync := Event(ws.off, Frame(FRAME_SYNC, 0, 0, SyncPayload(ws.seqNo, wall)), Nothing);
    var w0 := OpenSegment(ws, wall);
    assert w0.log == ws.log + [sync] && w0.streams == ws.streams && w0.hold == ws.hold;
    hide *;
    SchemasSettings(w0, 0);
    var w1 := WriteSchemas(w0, 0);
    RunsSettings(w1, w1.runs);
    var w2 := WriteRuns(w1, w1.runs);
    var a := SchemasAdd(w0, 0);
    var b := RunsAdd(w1, w1.runs);
    var c := HoldsAdd(w2, 0);
    add := a + b + c;
    SegmentIs(ws, wall);
    QuietJoin(a, b);
    QuietJoin(a + b, c);
    JoinThree(ws.log + [sync], a, b, c);
  }

  lemma JoinThree(x: seq<Event>, a: seq<Event>, b: seq<Event>, c: seq<Event>)
    ensures ((x + a) + b) + c == x + ((a + b) + c)
  {
  }

  lemma SegmentIs(ws: WState, wall: u64)
    ensures var w0 := OpenSegment(ws, wall);
      var w1 := WriteSchemas(w0, 0);
      w1.streams == w0.streams && WriteRuns(w1, w1.runs).streams == w0.streams &&
      BeginSegment(ws, wall) == WriteHolds(WriteRuns(w1, w1.runs), 0)
  {
    hide OpenSegment;
    var w0 := OpenSegment(ws, wall);
    SchemasSettings(w0, 0);
    var w1 := WriteSchemas(w0, 0);
    RunsSettings(w1, w1.runs);
  }

  lemma QuietJoin(a: seq<Event>, b: seq<Event>)
    requires AllQuiet(a) && AllQuiet(b)
    ensures AllQuiet(a + b) && HeldOf(a + b) == HeldOf(a) + HeldOf(b)
  {
    hide Quiet;
    HeldAppend(a, b);
  }

  // --- the batches of a run ---------------------------------------------------------------

  /** The batches the calls hand over, in call order, under the schema each stream
      has at the time. Computed from the calls alone. */
  function Written(streams: seq<Schema>, ops: seq<Op>): seq<Batch>
    decreases |ops|
  {
    if ops == [] then [] else Handed(streams, ops[0]) + Written(StreamsAfter(streams, ops[0]), ops[1..])
  }

  function Handed(streams: seq<Schema>, op: Op): seq<Batch> {
    match op
    case OpWriteData(k, base, runID, count, records) =>
      if k < |streams| then [HandedOver(streams[k], base, runID, count, records)] else []
    case _ => []
  }

  function StreamsAfter(streams: seq<Schema>, op: Op): seq<Schema> {
    match op
    case OpAddStream(s) => streams + [s]
    case OpSetStep(k, step) => if k < |streams| then streams[k := streams[k].(axisStep := step)] else streams
    case _ => streams
  }

  function HandedOver(s: Schema, base: u64, runID: u32, count: u32, records: bytes): Batch {
    Batch(Norm(s), runID, base, count, records,
          match TailsOf(Norm(s), count, records) case None => [] case Some(t) => t)
  }

  lemma {:induction false} QuietBatches(evs: seq<Event>)
    requires AllQuiet(evs)
    ensures BatchesOf(evs) == []
  {
    if evs != [] {
      assert evs[0] in evs;
      QuietBatches(evs[1..]);
    }
  }

  lemma SegmentBatches(ws: WState, wall: u64)
    ensures BatchesOf(BeginSegment(ws, wall).log) == BatchesOf(ws.log)
  {
    hide BeginSegment;
    var sync, add := SegmentAdds(ws, wall);
    QuietBatches(add);
    BatchesAppend(ws.log + [sync], add);
    BatchesAppend(ws.log, [sync]);
    assert BatchesOf([sync]) == BatchesOf([sync][1..]);
  }

  lemma EmitBatches(ws: WState, typ: byte, id: u16, payload: bytes, out: Outcome)
    ensures BatchesOf(Emit(ws, typ, id, payload, out).log)
         == BatchesOf(ws.log) + (if out.Records? then [out.batch] else [])
  {
    var e := Event(ws.off, Frame(typ, 0, id, payload), out);
    BatchesAppend(ws.log, [e]);
    assert [e][1..] == [];
  }

  lemma BatchBatches(z: Zip, ws: WState, k: nat, base: u64, runID: u32, count: u32, records: bytes)
    requires k < |ws.streams| && WriteBatch(z, ws, k, base, runID, count, records).Done?
    ensures BatchesOf(WriteBatch(z, ws, k, base, runID, count, records).ws.log)
         == BatchesOf(ws.log) + [HandedOver(ws.streams[k], base, runID, count, records)]
  {
    BatchEmits(z, ws, k, base, runID, count, records);
    hide WriteBatch;
    hide DataFrame;
    hide BatchState;
    hide TailsOf;
    hide Norm;
    var s := ws.streams[k];
    EmitBatches(BatchState(ws, s, base, runID, count), FRAME_DATA, Id(k),
      DataFrame(z, s, base, runID, count, ws.codec, ws.filter, records),
      Batched(s, base, runID, count, records, ws.segRuns));
  }

  /** A frame that carries no records adds no batch. */
  lemma PlainBatches(ws: WState, typ: byte, id: u16, payload: bytes, out: Outcome)
    requires !out.Records?
    ensures BatchesOf(Emit(ws, typ, id, payload, out).log) == BatchesOf(ws.log)
  {
    EmitBatches(ws, typ, id, payload, out);
  }

  lemma AddStreamBatches(ws: WState, s: Schema)
    requires AddStream(ws, s).Done?
    ensures BatchesOf(AddStream(ws, s).ws.log) == BatchesOf(ws.log)
    ensures AddStream(ws, s).ws.streams == ws.streams + [s]
  {
    hide BatchesOf;
    hide ValidSchema;
    hide PutSchema;
    hide Norm;
    var w0 := ws.(streams := ws.streams + [s]);
    var k := |ws.streams|;
    PlainBatches(w0.(segStep := w0.segStep[s.uuid := s.axisStep]), FRAME_SCHEMA, Id(k), PutSchema(s), Bound(Norm(s), Id(k)));
  }

  lemma AddRunBatches(ws: WState, r: Run)
    ensures BatchesOf(AddRun(ws, r).log) == BatchesOf(ws.log)
    ensures AddRun(ws, r).streams == ws.streams
  {
    hide BatchesOf;
    hide PutRun;
    var w0 := ws.(runs := ws.runs + [r]);
    PlainBatches(w0.(segRuns := w0.segRuns[r.id := r]), FRAME_RUN, 0, PutRun(r), Nothing);
  }

  lemma CloseBatches(ws: WState)
    requires IndexSane(ws)
    ensures BatchesOf(Close(ws).log) == BatchesOf(ws.log)
    ensures Close(ws).streams == ws.streams
  {
    hide BatchesOf;
    hide IndexPayload;
    PlainBatches(ws, FRAME_INDEX, 0, IndexPayload(ws), Nothing);
    PlainBatches(Emit(ws, FRAME_INDEX, 0, IndexPayload(ws), Nothing), FRAME_END, 0, [], Nothing);
  }

  lemma StepBatches(z: Zip, ws: WState, op: Op)
    requires IndexSane(ws) && Step(z, ws, op).Done?
    ensures var w := Step(z, ws, op).ws;
      BatchesOf(w.log) == BatchesOf(ws.log) + Handed(ws.streams, op) && w.streams == StreamsAfter(ws.streams, op)
  {
    hide BeginSegment;
    hide WriteData;
    hide AddStream;
    hide AddRun;
    hide Close;
    hide SetHold;
    hide BatchesOf;
    hide HandedOver;
    hide MetaPayload;
    hide AttachPayload;
    hide IndexSane;
    match op {
      case OpAddStream(s) => AddStreamBatches(ws, s);
      case OpAddRun(r) => AddRunBatches(ws, r);
      case OpBeginSegment(wall) =>
        SegmentBatches(ws, wall);
        SegmentSettings(ws, wall);
      case OpSetHold(k, h) => if k < |ws.streams| { SetHoldBatches(ws, k, h); }
      case OpWriteMeta(m) => PlainBatches(ws, FRAME_META, 0, MetaPayload(m), Nothing);
      case OpWriteAttach(m) => PlainBatches(ws, FRAME_ATTACH, 0, AttachPayload(m), Nothing);
      case OpWriteData(k, base, runID, count, records) =>
        DataBatches(z, ws, k, base, runID, count, records);
      case OpClose => CloseBatches(ws);
      case _ =>
    }
  }

  lemma SetHoldBatches(ws: WState, k: nat, h: HoldState)
    requires k < |ws.streams|
    ensures var r := SetHold(ws, k, h); r.ws.log == ws.log && r.ws.streams == ws.streams
  {
  }

  lemma DataBatches(z: Zip, ws: WState, k: nat, base: u64, runID: u32, count: u32, records: bytes)
    requires k < |ws.streams| && WriteData(z, ws, k, base, runID, count, records).Done?
    ensures var w := WriteData(z, ws, k, base, runID, count, records).ws;
      BatchesOf(w.log) == BatchesOf(ws.log) + [HandedOver(ws.streams[k], base, runID, count, records)] &&
      w.streams == ws.streams
  {
    hide *;
    DataUnfold(z, ws, k, base, runID, count, records);
    SegmentBatches(ws, 0);
    var w1 := if ws.inSeg then ws else BeginSegment(ws, 0);
    BatchBatches(z, w1, k, base, runID, count, records);
    BatchEmits(z, w1, k, base, runID, count, records);
  }

  /** The log carries exactly the batches handed over, in call order. */
  lemma {:induction false} RunBatches(z: Zip, ws: WState, ops: seq<Op>)
    requires IndexSane(ws) && RunFrom(z, ws, ops).Done?
    ensures BatchesOf(RunFrom(z, ws, ops).ws.log) == BatchesOf(ws.log) + Written(ws.streams, ops)
    decreases |ops|
  {
    hide Step;
    hide BatchesOf;
    hide Handed;
    hide StreamsAfter;
    if ops != [] {
      StepSane(z, ws, ops[0]);
      StepBatches(z, ws, ops[0]);
      RunBatches(z, Step(z, ws, ops[0]).ws, ops[1..]);
    }
  }

  // --- the reader along a whole run ------------------------------------------------------------

  /** After any run of successful calls the reader that saw the frames is in step. */
  lemma {:induction false} RunFollowed(z: Zip, ws: WState, rs: RState, ops: seq<Op>) returns (rs': RState)
    requires Inverse(z) && Sound(ws) && Sim(ws, rs) && IndexSane(ws)
    requires AllOpsFit(z, ws, ops) && RunFrom(z, ws, ops).Done?
    ensures var w := RunFrom(z, ws, ops).ws;
      Follows(z, ws, rs, w, rs') && Sound(w) && Sim(w, rs')
    decreases |ops|
  {
    hide Step;
    hide Follows;
    hide Sound;
    hide Sim;
    hide OpFits;
    hide Inverse;
    hide IndexSane;
    if ops == [] {
      FollowsNothing(z, ws, rs, ws);
      rs' := rs;
    } else {
      StepSane(z, ws, ops[0]);
      var w := Step(z, ws, ops[0]).ws;
      var r := StepFollows(z, ws, rs, ops[0]);
      rs' := RunFollowed(z, w, r, ops[1..]);
      FollowsThen(z, ws, rs, w, r, RunFrom(z, ws, ops).ws, rs');
    }
  }

  lemma StartSound(rs: RState)
    requires rs.watch
    ensures Sound(START) && Sim(START, rs) && IndexSane(START)
  {
  }

  /** Replaying a whole recording's frames, from any reader, gives its log. */
  lemma LogReplays(z: Zip, ops: seq<Op>, ws: WState, rs: RState) returns (rs': RState)
    requires Recorded(z, ops, ws) && rs.watch
    ensures Replay(z, rs, FramesOf(ws.log), 16) == Replayed(ws.log, rs', false)
    ensures ws.off == 16 + FramesLen(FramesOf(ws.log))
    ensures rs'.watch && Sound(ws) && Sim(ws, rs')
  {
    StartSound(rs);
    rs' := RunFollowed(z, START, rs, ops);
    FollowsFromStart(z, rs, ws, rs');
  }

  lemma FollowsFromStart(z: Zip, rs: RState, ws: WState, rs': RState)
    requires Follows(z, START, rs, ws, rs')
    ensures Replay(z, rs, FramesOf(ws.log), 16) == Replayed(ws.log, rs', false)
    ensures ws.off == 16 + FramesLen(FramesOf(ws.log))
  {
    hide Replay;
    assert NewEvents(START, ws) == ws.log;
  }
}
