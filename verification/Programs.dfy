/** Three short programs, and the recordings they make: a clock and a dial, one record
    at tick 10, and a second segment. */
module Programs {
  import opened Bytes
  import opened Wire
  import opened Format
  import opened Frames
  import opened Records
  import opened Reading
  import opened Writing
  import opened Recording
  import opened Runs

  // --- the streams -------------------------------------------------------------------------------------

  const HELD_FIELD := Field([], 0, 8, TYPE_UINT, false, false, false, true, [], [], NoConversion, 0, 0, map[])

  const CLOCK_UUID: bytes := [1, 0, 0, 0, 0, 0, 0, 0, 0, 0, 0, 0, 0, 0, 0, 0]
  const DIAL_UUID: bytes := [2, 0, 0, 0, 0, 0, 0, 0, 0, 0, 0, 0, 0, 0, 0, 0]

  /** A stream on time. */
  const CLOCK := Schema(CLOCK_UUID, [], 8, AXIS_TIME, AXIS_IMPLICIT, 0, [], 1, 1, 0, [HELD_FIELD], map[])

  /** One that is not. */
  const DIAL := Schema(DIAL_UUID, [], 8, 1, AXIS_IMPLICIT, 0, [], 1, 1, 0, [HELD_FIELD], map[])

  const STREAMS: seq<Schema> := [CLOCK, DIAL]

  const HELD := HoldState(0, 0, [true], [7])

  function Tick(t: u64): Op { OpWriteData(0, t, 0, 1, [7]) }

  const OPENING: seq<Op> := [OpAddStream(CLOCK), OpAddStream(DIAL), Tick(10)]

  // --- the events ----------------------------------------------------------------------------------------

  predicate Small(e: Event) { |e.frame.payload| <= 1000 }

  predicate IsSync(e: Event) { Small(e) && e.frame.typ == FRAME_SYNC && e.out == Nothing }

  predicate IsBound(e: Event, s: Schema) {
    Small(e) && e.frame.typ == FRAME_SCHEMA && e.out.Bound? && e.out.schema == Norm(s)
  }

  predicate IsTick(e: Event, t: u64) {
    Small(e) && e.frame.typ == FRAME_DATA && e.out == Outcome.Records(Batch(Norm(CLOCK), 0, t, 1, [7], []), None)
  }

  predicate IsHold(e: Event, s: Schema) {
    Small(e) && e.frame.typ == FRAME_HOLD && e.out == HeldValues(Restated(s, HELD))
  }

  // --- what fits -------------------------------------------------------------------------------------------

  lemma EmptyKv(tail: bytes)
    ensures |PutKv(map[], tail)| == 4 + |tail| && KvFits(map[])
  {
    var m: kvmap := map[];
    assert m.Keys == {};
    assert SortedKeys(m.Keys) == [];
  }

  lemma SchemaSmall(s: Schema)
    requires s == CLOCK || s == DIAL
    ensures |PutSchema(s)| <= 200 && SchemaFits(s) && ValidSchema(s) && s.uuid != ZERO_UUID && s.RecordBytes() == 1
  {
    SchemaSize(s);
    SchemaHasRoom(s);
    SchemaIsValid(s);
    hide *;
  }

  lemma SchemaHasRoom(s: Schema)
    requires s == CLOCK || s == DIAL
    ensures SchemaFits(s)
  {
    EmptyKv([]);
    FieldSmall([]);
    hide FieldFits;
    hide KvFits;
    forall f | f in s.fields ensures FieldFits(f) { assert f == HELD_FIELD; }
  }

  lemma SchemaIsValid(s: Schema)
    requires s == CLOCK || s == DIAL
    ensures ValidSchema(s) && s.uuid != ZERO_UUID && s.RecordBytes() == 1
  {
    UuidsDiffer();
  }

  lemma SchemaSize(s: Schema)
    requires s == CLOCK || s == DIAL
    ensures |PutSchema(s)| <= 200
  {
    EmptyKv([]);
    var meta := PutKv(map[], []);
    FieldSmall(meta);
    hide PutKv;
    hide PutField;
    hide LE;
    assert s.fields[1..] == [];
    assert PutFields(s.fields, meta) == PutField(HELD_FIELD, meta);
  }

  lemma FieldSmall(tail: bytes)
    ensures |PutField(HELD_FIELD, tail)| <= 60 + |tail| && FieldFits(HELD_FIELD)
  {
    EmptyKv(tail);
    hide PutKv;
  }

  lemma UuidsDiffer()
    ensures CLOCK_UUID != DIAL_UUID && CLOCK_UUID != ZERO_UUID && DIAL_UUID != ZERO_UUID
  {
    assert CLOCK_UUID[0] == 1 && DIAL_UUID[0] == 2 && ZERO_UUID[0] == 0;
  }

  lemma NoTails(s: Schema)
    requires s == CLOCK || s == DIAL
    ensures TailsOf(Norm(s), 1, [7]) == Some([]) && Norm(s).uuid == s.uuid && |s.fields| == 1
  {
    NormVariables(s.fields);
    assert s.fields[1..] == [];
  }

  // --- what each call does -------------------------------------------------------------------------------------

  /** Both streams registered, nothing compressed, filtered or run. */
  predicate Ready(ws: WState) {
    ws.streams == STREAMS && ws.runs == [] && ws.codec == CODEC_NONE && ws.filter == FILTER_NONE
  }

  /** A segment has just been opened. */
  predicate Fresh(ws: WState) {
    Ready(ws) && ws.inSeg && ws.curRun == map[] && ws.pastRun == map[] && ws.segRuns == map[] &&
    ws.segStep == map[CLOCK_UUID := 1, DIAL_UUID := 1]
  }

  lemma SyncSmall(seqNo: u64, wall: u64)
    ensures |SyncPayload(seqNo, wall)| == 32
  {
  }

  lemma HoldSmall()
    ensures |HoldPayload(HELD)| <= 100
  {
    hide LE;
  }

  lemma SyncGoes(ws: WState) returns (s: Event)
    requires Ready(ws)
    ensures var w := OpenSegment(ws, 0);
      Ready(w) && w.inSeg && w.curRun == map[] && w.pastRun == map[] && w.segRuns == map[] && w.segStep == map[] &&
      w.hold == ws.hold && w.log == ws.log + [s]
    ensures IsSync(s)
  {
    SyncSmall(ws.seqNo, 0);
    hide SyncPayload;
    s := OpenSegment(ws, 0).log[|ws.log|];
  }

  lemma SchemaGoes(ws: WState, k: nat) returns (b: Event)
    requires k < |ws.streams| && (ws.streams[k] == CLOCK || ws.streams[k] == DIAL)
    ensures var w := WriteSchema(ws, k);
      w == ws.(log := ws.log + [b], off := w.off, segStep := ws.segStep[ws.streams[k].uuid := ws.streams[k].axisStep])
    ensures IsBound(b, ws.streams[k])
  {
    SchemaSize(ws.streams[k]);
    hide PutSchema;
    hide Norm;
    b := WriteSchema(ws, k).log[|ws.log|];
  }

  lemma SchemasAre(ws: WState)
    requires |ws.streams| == 2
    ensures WriteSchemas(ws, 0) == WriteSchema(WriteSchema(ws, 0), 1)
  {
    hide WriteSchema;
    PreambleKeepsOne(ws, 0);
    var w1 := WriteSchema(ws, 0);
    PreambleKeepsOne(w1, 1);
    var w2 := WriteSchema(w1, 1);
    assert WriteSchemas(w2, 2) == w2;
    assert WriteSchemas(w1, 1) == w2;
  }

  lemma PreambleKeepsOne(ws: WState, k: nat)
    requires k < |ws.streams|
    ensures WriteSchema(ws, k).streams == ws.streams
  {
    hide PutSchema;
    hide Norm;
  }

  /** The SYNC frame and both schemas. */
  lemma SchemasGo(ws: WState) returns (s: Event, b0: Event, b1: Event)
    requires Ready(ws)
    ensures var w := WriteSchemas(OpenSegment(ws, 0), 0);
      Fresh(w) && w.hold == ws.hold && w.log == ws.log + [s, b0, b1]
    ensures IsSync(s) && IsBound(b0, CLOCK) && IsBound(b1, DIAL)
  {
    s := SyncGoes(ws);
    var w0 := OpenSegment(ws, 0);
    hide OpenSegment;
    hide WriteSchema;
    hide WriteSchemas;
    hide IsSync;
    hide IsBound;
    b0 := SchemaGoes(w0, 0);
    b1 := SchemaGoes(WriteSchema(w0, 0), 1);
    SchemasAre(w0);
    BothSteps();
  }

  lemma BothSteps()
    ensures map[][CLOCK_UUID := CLOCK.axisStep][DIAL_UUID := DIAL.axisStep] == map[CLOCK_UUID := 1, DIAL_UUID := 1]
    ensures CLOCK.uuid == CLOCK_UUID && DIAL.uuid == DIAL_UUID
  {
  }

  /** Which stream, if any, restates a value. */
  predicate Restating(hold: map<bytes, HoldState>, hs: seq<Event>) {
    (hold == map[] && hs == []) ||
    (hold == map[CLOCK_UUID := HELD] && |hs| == 1 && IsHold(hs[0], CLOCK)) ||
    (hold == map[DIAL_UUID := HELD] && |hs| == 1 && IsHold(hs[0], DIAL))
  }

  lemma HoldsGo(ws: WState) returns (hs: seq<Event>)
    requires Fresh(ws)
    requires ws.hold == map[] || ws.hold == map[CLOCK_UUID := HELD] || ws.hold == map[DIAL_UUID := HELD]
    ensures Fresh(WriteHolds(ws, 0)) && WriteHolds(ws, 0).hold == ws.hold
    ensures WriteHolds(ws, 0).log == ws.log + hs && Restating(ws.hold, hs)
  {
    HoldSmall();
    UuidsDiffer();
    hide HoldPayload;
    hide Writing.Restated;
    var w1 := if CLOCK_UUID in ws.hold then WriteHold(ws, 0) else ws;
    var w2 := if DIAL_UUID in ws.hold then WriteHold(w1, 1) else w1;
    assert WriteHolds(w2, 2) == w2;
    assert WriteHolds(w1, 1) == w2;
    assert WriteHolds(ws, 0) == w2;
    hs := w2.log[|ws.log|..];
  }

  lemma SegmentGoes(ws: WState) returns (s: Event, b0: Event, b1: Event, hs: seq<Event>)
    requires Ready(ws)
    requires ws.hold == map[] || ws.hold == map[CLOCK_UUID := HELD] || ws.hold == map[DIAL_UUID := HELD]
    ensures var w := BeginSegment(ws, 0);
      Fresh(w) && w.hold == ws.hold && w.log == ws.log + [s, b0, b1] + hs
    ensures IsSync(s) && IsBound(b0, CLOCK) && IsBound(b1, DIAL) && Restating(ws.hold, hs)
  {
    s, b0, b1 := SchemasGo(ws);
    var w := WriteSchemas(OpenSegment(ws, 0), 0);
    hide Restating;
    hs := HoldsGo(w);
    SegmentIs(ws, 0);
    hide OpenSegment;
    hide WriteSchemas;
    hide WriteHolds;
    hide BeginSegment;
    RunsNone(w);
  }

  lemma RunsNone(w: WState)
    ensures WriteRuns(w, []) == w
  {
  }

  /** One record on the clock. */
  lemma TickGoes(z: Zip, ws: WState, t: u64) returns (e: Event)
    requires Fresh(ws)
    ensures WriteBatch(z, ws, 0, t, 0, 1, [7]).Done?
    ensures var w := WriteBatch(z, ws, 0, t, 0, 1, [7]).ws;
      w.log == ws.log + [e] && Ready(w) && w.hold == ws.hold
    ensures IsTick(e, t)
  {
    NoTails(CLOCK);
    hide TailsOf;
    hide Norm;
    TickSmall(t);
    hide DataPayload;
    BatchStateKeeps(ws, CLOCK, t, 0, 1);
    assert StepDeclared(ws, CLOCK) && RunAllowed(ws, CLOCK_UUID, 0);
    e := WriteBatch(z, ws, 0, t, 0, 1, [7]).ws.log[|ws.log|];
  }

  lemma TickSmall(t: u64)
    ensures |DataPayload(t, 1, 0, CODEC_NONE, FILTER_NONE, 1, [7])| <= 100
  {
  }

  // --- programs -------------------------------------------------------------------------------------------------------

  /** A program that has run to `ws`, with every frame small. */
  ghost predicate Reached(z: Zip, ops: seq<Op>, ws: WState) {
    IndexSane(START) && AllOpsFit(z, START, ops) && RunFrom(z, START, ops) == Done(ws) && AllSmall(ws.log)
  }

  predicate AllSmall(evs: seq<Event>) { forall i :: 0 <= i < |evs| ==> Small(evs[i]) }

  lemma ReachedNone(z: Zip)
    ensures Reached(z, [], START)
  {
    StartSound(FRESH);
  }

  lemma {:induction false} RunOn(z: Zip, ws: WState, ops: seq<Op>, op: Op)
    requires IndexSane(ws) && AllOpsFit(z, ws, ops) && RunFrom(z, ws, ops).Done?
    ensures var w := RunFrom(z, ws, ops).ws;
      RunFrom(z, ws, ops + [op]) == Step(z, w, op) && (OpFits(w, op) ==> AllOpsFit(z, ws, ops + [op]))
    decreases |ops|
  {
    hide Step;
    hide OpFits;
    hide IndexSane;
    if ops == [] {
      StepSane(z, ws, op);
      assert [] + [op] == [op] && [op][1..] == [];
    } else {
      StepSane(z, ws, ops[0]);
      assert (ops + [op])[1..] == ops[1..] + [op];
      RunOn(z, Step(z, ws, ops[0]).ws, ops[1..], op);
    }
  }

  /** One call more. */
  lemma ReachedMore(z: Zip, ops: seq<Op>, ws: WState, op: Op, w: WState)
    requires Reached(z, ops, ws) && IndexSane(ws) && OpFits(ws, op) && Step(z, ws, op) == Done(w) && AllSmall(w.log)
    ensures Reached(z, ops + [op], w)
  {
    hide Step;
    hide OpFits;
    hide AllSmall;
    hide IndexSane;
    RunOn(z, START, ops, op);
  }

  lemma ReachedSane(z: Zip, ops: seq<Op>, ws: WState)
    requires Reached(z, ops, ws)
    ensures IndexSane(ws)
  {
    hide IndexSane;
    hide AllSmall;
  }

  lemma StartIs()
    ensures START.streams == [] && START.log == [] && START.runs == [] && !START.inSeg && START.hold == map[]
    ensures START.codec == CODEC_NONE && START.filter == FILTER_NONE && START.index == map[] && START.order == []
  {
  }

  lemma AddGoes(z: Zip, ws: WState, s: Schema)
    requires IndexSane(ws) && !ws.inSeg && (s == CLOCK || s == DIAL)
    requires |ws.streams| < 2 && forall t :: t in ws.streams ==> t.uuid != s.uuid
    ensures Step(z, ws, OpAddStream(s)) == Done(ws.(streams := ws.streams + [s])) && OpFits(ws, OpAddStream(s))
  {
    SchemaSmall(s);
    hide ValidSchema;
    hide SchemaFits;
    hide IndexSane;
  }

  lemma TickStep(z: Zip, ws: WState, t: u64)
    requires IndexSane(ws) && Ready(ws)
    ensures BeginSegment(ws, 0).streams == ws.streams
    ensures Step(z, ws, Tick(t)) == WriteBatch(z, if ws.inSeg then ws else BeginSegment(ws, 0), 0, t, 0, 1, [7])
    ensures OpFits(ws, Tick(t))
  {
    hide WriteBatch;
    hide BeginSegment;
    hide IndexSane;
    hide WriteData;
    hide OpFits;
    hide Ready;
    TickFits(ws, t);
    DataUnfold(z, ws, 0, t, 0, 1, [7]);
  }

  lemma TickFits(ws: WState, t: u64)
    requires Ready(ws)
    ensures |ws.streams| == 2 && OpFits(ws, Tick(t))
  {
    NoTails(CLOCK);
    hide TailsOf;
    hide Norm;
  }

  lemma HoldStep(z: Zip, ws: WState, k: nat)
    requires IndexSane(ws) && Ready(ws) && k < 2 && ws.hold == map[]
    ensures Step(z, ws, OpSetHold(k, HELD)) == Done(ws.(hold := map[STREAMS[k].uuid := HELD])) && OpFits(ws, OpSetHold(k, HELD))
  {
    NoTails(STREAMS[k]);
    SchemaIsValid(STREAMS[k]);
    hide TailsOf;
    hide IndexSane;
    assert map[][STREAMS[k].uuid := HELD] == map[STREAMS[k].uuid := HELD];
  }

  lemma SegmentStep(z: Zip, ws: WState)
    requires IndexSane(ws)
    ensures Step(z, ws, OpBeginSegment(0)) == Done(BeginSegment(ws, 0)) && OpFits(ws, OpBeginSegment(0))
  {
    hide BeginSegment;
    hide IndexSane;
  }

  lemma TwoStreams()
    ensures [] + [CLOCK] == [CLOCK] && [CLOCK] + [DIAL] == STREAMS
    ensures [] + [OpAddStream(CLOCK)] == [OpAddStream(CLOCK)]
    ensures [OpAddStream(CLOCK)] + [OpAddStream(DIAL)] == [OpAddStream(CLOCK), OpAddStream(DIAL)]
    ensures [OpAddStream(CLOCK), OpAddStream(DIAL)] + [Tick(10)] == OPENING
    ensures CLOCK.uuid != DIAL.uuid
  {
    UuidsDiffer();
  }

  /** Both streams added. */
  lemma Added(z: Zip) returns (ws: WState)
    ensures Reached(z, [OpAddStream(CLOCK), OpAddStream(DIAL)], ws)
    ensures Ready(ws) && !ws.inSeg && ws.hold == map[] && ws.log == [] && ws.index == map[] && ws.order == []
  {
    StartIs();
    TwoStreams();
    ReachedNone(z);
    ReachedSane(z, [], START);
    hide Reached;
    hide START;
    hide CLOCK;
    hide DIAL;
    hide STREAMS;
    hide IndexSane;
    AddGoes(z, START, CLOCK);
    var w := START.(streams := START.streams + [CLOCK]);
    ReachedMore(z, [], START, OpAddStream(CLOCK), w);
    ReachedSane(z, [OpAddStream(CLOCK)], w);
    AddGoes(z, w, DIAL);
    ws := w.(streams := w.streams + [DIAL]);
    ReachedMore(z, [OpAddStream(CLOCK)], w, OpAddStream(DIAL), ws);
  }

  lemma SmallTick(evs: seq<Event>, e: Event, t: u64)
    requires AllSmall(evs) && IsTick(e, t)
    ensures AllSmall(evs + [e])
  {
  }

  lemma SmallSegment(evs: seq<Event>, s: Event, b0: Event, b1: Event, hold: map<bytes, HoldState>, hs: seq<Event>)
    requires AllSmall(evs) && IsSync(s) && IsBound(b0, CLOCK) && IsBound(b1, DIAL) && Restating(hold, hs)
    ensures AllSmall(evs + [s, b0, b1] + hs)
  {
    var all := evs + [s, b0, b1] + hs;
    forall i | 0 <= i < |all| ensures Small(all[i]) {
      if i >= |evs| + 3 { assert all[i] == hs[i - |evs| - 3]; }
    }
  }

  lemma ReachedSmall(z: Zip, ops: seq<Op>, ws: WState)
    requires Reached(z, ops, ws)
    ensures AllSmall(ws.log)
  {
  }

  /** One more record. */
  lemma TickReached(z: Zip, ops: seq<Op>, ws: WState, t: u64) returns (w: WState, e: Event)
    requires Reached(z, ops, ws) && Fresh(ws)
    ensures Reached(z, ops + [Tick(t)], w) && Ready(w) && w.hold == ws.hold && w.log == ws.log + [e] && IsTick(e, t)
  {
    hide *;
    ReachedSane(z, ops, ws);
    ReachedSmall(z, ops, ws);
    FreshReady(ws);
    TickStep(z, ws, t);
    e := TickGoes(z, ws, t);
    w := WriteBatch(z, ws, 0, t, 0, 1, [7]).ws;
    SmallTick(ws.log, e, t);
    ReachedMore(z, ops, ws, Tick(t), w);
  }

  lemma FreshReady(ws: WState)
    requires Fresh(ws)
    ensures Ready(ws) && ws.inSeg && |ws.streams| == 2
  {
  }

  /** One more segment. */
  lemma SegmentReached(z: Zip, ops: seq<Op>, ws: WState) returns (w: WState, s: Event, b0: Event, b1: Event, hs: seq<Event>)
    requires Reached(z, ops, ws) && Ready(ws)
    requires ws.hold == map[] || ws.hold == map[CLOCK_UUID := HELD] || ws.hold == map[DIAL_UUID := HELD]
    ensures Reached(z, ops + [OpBeginSegment(0)], w) && Fresh(w) && w.log == ws.log + [s, b0, b1] + hs
    ensures w == BeginSegment(ws, 0)
    ensures IsSync(s) && IsBound(b0, CLOCK) && IsBound(b1, DIAL) && Restating(ws.hold, hs)
  {
    hide *;
    ReachedSane(z, ops, ws);
    ReachedSmall(z, ops, ws);
    SegmentStep(z, ws);
    s, b0, b1, hs := SegmentGoes(ws);
    w := BeginSegment(ws, 0);
    SmallSegment(ws.log, s, b0, b1, ws.hold, hs);
    ReachedMore(z, ops, ws, OpBeginSegment(0), w);
  }

  /** The first segment: both schemas and a record at tick 10. */
  lemma Opened(z: Zip) returns (ws: WState, s: Event, b0: Event, b1: Event, r: Event)
    ensures Reached(z, OPENING, ws) && Ready(ws) && ws.hold == map[] && ws.log == [s, b0, b1, r]
    ensures IsSync(s) && IsBound(b0, CLOCK) && IsBound(b1, DIAL) && IsTick(r, 10)
  {
    hide *;
    var pre := [OpAddStream(CLOCK), OpAddStream(DIAL)];
    var w0 := Added(z);
    ReachedSane(z, pre, w0);
    ReachedSmall(z, pre, w0);
    TickStep(z, w0, 10);
    var hs;
    s, b0, b1, hs := SegmentGoes(w0);
    NothingRestated(hs);
    var w1 := BeginSegment(w0, 0);
    FreshReady(w1);
    r := TickGoes(z, w1, 10);
    ws := WriteBatch(z, w1, 0, 10, 0, 1, [7]).ws;
    SmallSegment(w0.log, s, b0, b1, map[], hs);
    SmallTick(w1.log, r, 10);
    ReachedMore(z, pre, w0, Tick(10), ws);
    TwoStreams();
    assert [] + [s, b0, b1] + [] + [r] == [s, b0, b1, r];
  }

  lemma NothingRestated(hs: seq<Event>)
    requires Restating(map[], hs)
    ensures hs == []
  {
    var none: map<bytes, HoldState> := map[];
    assert CLOCK_UUID in map[CLOCK_UUID := HELD] && DIAL_UUID in map[DIAL_UUID := HELD];
    assert CLOCK_UUID !in none && DIAL_UUID !in none;
  }

  /** The second segment's record stands before the first's. */
  const EARLIER: seq<Op> := OPENING + [OpBeginSegment(0)] + [Tick(5)]

  /** The second segment restates the dial, and its clock begins later. */
  const LATER: seq<Op> := OPENING + [OpSetHold(1, HELD)] + [OpBeginSegment(0)] + [Tick(12)]

  /** The second segment restates the clock's value and has no record. */
  const SILENT: seq<Op> := OPENING + [OpSetHold(0, HELD)] + [OpBeginSegment(0)]

  lemma ReachedRecorded(z: Zip, ops: seq<Op>, ws: WState)
    requires Reached(z, ops, ws) && Inverse(z)
    ensures Recorded(z, ops, ws) && FramesLen(FramesOf(ws.log)) <= 1012 * |ws.log|
  {
    hide RunFrom;
    hide AllOpsFit;
    hide IndexSane;
    hide Inverse;
    SmallFits(ws.log);
  }

  lemma {:induction false} SmallFits(evs: seq<Event>)
    requires AllSmall(evs)
    ensures AllFit(FramesOf(evs)) && FramesLen(FramesOf(evs)) <= 1012 * |evs|
    decreases |evs|
  {
    if evs != [] {
      SmallFits(evs[1..]);
      assert Small(evs[0]);
      assert FramesOf(evs) == [evs[0].frame] + FramesOf(evs[1..]);
      assert FramesOf(evs)[1..] == FramesOf(evs[1..]);
    }
  }

  lemma SetReached(z: Zip, ops: seq<Op>, ws: WState, k: nat) returns (w: WState)
    requires Reached(z, ops, ws) && Ready(ws) && ws.hold == map[] && k < 2
    ensures Reached(z, ops + [OpSetHold(k, HELD)], w) && Ready(w) && w.hold == map[STREAMS[k].uuid := HELD] && w.log == ws.log
  {
    hide *;
    StreamCount();
    ReachedSane(z, ops, ws);
    ReachedSmall(z, ops, ws);
    HoldStep(z, ws, k);
    w := ws.(hold := map[STREAMS[k].uuid := HELD]);
    ReadyStill(ws, w);
    ReachedMore(z, ops, ws, OpSetHold(k, HELD), w);
  }

  lemma StreamCount()
    ensures |STREAMS| == 2 && STREAMS[0].uuid == CLOCK_UUID && STREAMS[1].uuid == DIAL_UUID
  {
  }

  lemma ReadyStill(ws: WState, w: WState)
    requires Ready(ws) && w == ws.(hold := w.hold)
    ensures Ready(w)
  {
  }

  /** The event of the first segment, and the second's opening. */
  ghost predicate Common(log: seq<Event>) {
    |log| >= 7 && IsSync(log[0]) && IsBound(log[1], CLOCK) && IsBound(log[2], DIAL) && IsTick(log[3], 10) &&
    IsSync(log[4]) && IsBound(log[5], CLOCK) && IsBound(log[6], DIAL)
  }

  lemma RecordsEarlier(z: Zip) returns (ws: WState)
    requires Inverse(z)
    ensures Recorded(z, EARLIER, ws) && |ws.log| == 8 && Common(ws.log) && IsTick(ws.log[7], 5)
    ensures FramesLen(FramesOf(ws.log)) <= 10000
  {
    hide *;
    var w0, s, b0, b1, r := Opened(z);
    var w1, s1, c0, c1, hs := SegmentReached(z, OPENING, w0);
    NothingRestated(hs);
    var e;
    ws, e := TickReached(z, OPENING + [OpBeginSegment(0)], w1, 5);
    ReachedRecorded(z, OPENING + [OpBeginSegment(0)] + [Tick(5)], ws);
    EarlierIs();
    assert ws.log == [s, b0, b1, r, s1, c0, c1, e];
    CommonIs(ws.log);
  }

  lemma EarlierIs()
    ensures EARLIER == OPENING + [OpBeginSegment(0)] + [Tick(5)]
    ensures LATER == OPENING + [OpSetHold(1, HELD)] + [OpBeginSegment(0)] + [Tick(12)]
    ensures SILENT == OPENING + [OpSetHold(0, HELD)] + [OpBeginSegment(0)]
  {
  }

  lemma CommonIs(log: seq<Event>)
    requires |log| >= 7 && IsSync(log[0]) && IsBound(log[1], CLOCK) && IsBound(log[2], DIAL) && IsTick(log[3], 10)
    requires IsSync(log[4]) && IsBound(log[5], CLOCK) && IsBound(log[6], DIAL)
    ensures Common(log)
  {
  }

  lemma OneRestated(k: nat, hs: seq<Event>)
    requires k < 2 && Restating(map[STREAMS[k].uuid := HELD], hs)
    ensures |hs| == 1 && IsHold(hs[0], STREAMS[k])
  {
    hide IsHold;
    UuidsDiffer();
    var one := map[STREAMS[k].uuid := HELD];
    var none: map<bytes, HoldState> := map[];
    assert STREAMS[k].uuid in one && STREAMS[k].uuid !in none;
    assert STREAMS[1 - k].uuid !in one;
    assert CLOCK_UUID in map[CLOCK_UUID := HELD] && DIAL_UUID in map[DIAL_UUID := HELD];
  }

  lemma RecordsLater(z: Zip) returns (ws: WState)
    requires Inverse(z)
    ensures Recorded(z, LATER, ws) && |ws.log| == 9 && Common(ws.log) && IsHold(ws.log[7], DIAL) && IsTick(ws.log[8], 12)
    ensures FramesLen(FramesOf(ws.log)) <= 10000
  {
    hide *;
    var w0, s, b0, b1, r := Opened(z);
    var w1 := SetReached(z, OPENING, w0, 1);
    StreamCount();
    StreamsAre();
    var w2, s1, c0, c1, hs := SegmentReached(z, OPENING + [OpSetHold(1, HELD)], w1);
    OneRestated(1, hs);
    var e;
    ws, e := TickReached(z, OPENING + [OpSetHold(1, HELD)] + [OpBeginSegment(0)], w2, 12);
    ReachedRecorded(z, OPENING + [OpSetHold(1, HELD)] + [OpBeginSegment(0)] + [Tick(12)], ws);
    EarlierIs();
    assert ws.log == [s, b0, b1, r, s1, c0, c1, hs[0], e];
    CommonIs(ws.log);
  }

  lemma StreamsAre()
    ensures |STREAMS| == 2 && STREAMS[0] == CLOCK && STREAMS[1] == DIAL
  {
  }

  lemma RecordsSilent(z: Zip) returns (ws: WState)
    requires Inverse(z)
    ensures Recorded(z, SILENT, ws) && |ws.log| == 8 && Common(ws.log) && IsHold(ws.log[7], CLOCK)
    ensures FramesLen(FramesOf(ws.log)) <= 10000
  {
    hide *;
    var w0, s, b0, b1, r := Opened(z);
    var w1 := SetReached(z, OPENING, w0, 0);
    StreamCount();
    StreamsAre();
    var s1, c0, c1, hs;
    ws, s1, c0, c1, hs := SegmentReached(z, OPENING + [OpSetHold(0, HELD)], w1);
    OneRestated(0, hs);
    ReachedRecorded(z, OPENING + [OpSetHold(0, HELD)] + [OpBeginSegment(0)], ws);
    EarlierIs();
    assert ws.log == [s, b0, b1, r, s1, c0, c1, hs[0]];
    CommonIs(ws.log);
  }
}
