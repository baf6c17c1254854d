/** The writer as a state machine: what each call appends and remembers. */
module Writing {
  import opened Bytes
  import opened Wire
  import opened Format
  import opened Frames
  import opened Records
  import opened Reading
  import opened Transpose
  import opened BitOps

  datatype Error =
    ZeroUuid | BadSchema | BadHold | StepChanged | RunInterleaved | TooShort | UnknownCodec | NotRegistered |
    Undecodable

  datatype Entry = Entry(offset: nat, first: u64, records: u32, runID: u32)

  datatype HoldState = HoldState(base: u64, runID: u32, present: seq<bool>, record: bytes)

  /** `log` is every frame emitted, with what a watcher of the writer is told it
      is. `segRuns` is the runs declared so far in this segment. Stream k carries
      the tag k, in sixteen bits. */
  datatype WState = WState(
    log: seq<Event>, off: nat, streams: seq<Schema>, runs: seq<Run>, seqNo: u64, inSeg: bool,
    codec: byte, filter: byte, index: map<bytes, seq<Entry>>, order: seq<bytes>,
    curRun: map<bytes, u32>, pastRun: map<bytes, set<u32>>, segStep: map<bytes, u64>,
    hold: map<bytes, HoldState>, segRuns: map<u32, Run>)

  const START := WState([], 16, [], [], 0, false, CODEC_NONE, FILTER_NONE, map[], [], map[], map[], map[], map[], map[])

  datatype WResult = Done(ws: WState) | Failed(e: Error, ws: WState)

  function Id(k: nat): u16 { k % TWO16 }

  // --- which schemas are written -----------------------------------------------------------

  const ZERO_UUID: bytes := [0, 0, 0, 0, 0, 0, 0, 0, 0, 0, 0, 0, 0, 0, 0, 0]

  /** A float64 that is finite, positive and not one. */
  predicate UsableRatio(bits: u64) {
    0 < bits < 0x7FF0_0000_0000_0000 && bits != 0x3FF0_0000_0000_0000
  }

  predicate IsBlob(f: Field) { f.dataType == TYPE_BYTES || f.dataType == TYPE_STRING }

  predicate ValidField(fs: seq<Field>, i: nat)
    requires i < |fs|
  {
    var f := fs[i];
    (f.variable ==> IsBlob(f) && f.bitWidth == 0) &&
    (!f.variable && IsBlob(f) ==> f.bitOffset % 8 == 0 && f.bitWidth % 8 == 0) &&
    (IsBlob(f) ==> f.conv == NoConversion || f.conv == Identity) &&
    GuardResolves(fs, i)
  }

  predicate ValidSchema(s: Schema) {
    s.KnownMode() &&
    (s.axisMode == AXIS_LOG ==> s.axisKind != AXIS_TIME && UsableRatio(s.axisStep)) &&
    forall i :: 0 <= i < |s.fields| ==> ValidField(s.fields, i)
  }

  // --- payloads -----------------------------------------------------------------------

  ghost function SyncPayload(seqNo: u64, wall: u64): bytes { SYNC_PATTERN + (LE(8, seqNo) + (LE(8, wall) + [])) }

  function PackByte(p: seq<bool>): nat {
    if p == [] then 0 else (if p[0] then 1 else 0) + 2 * PackByte(p[1..])
  }

  lemma {:induction false} PackByteBound(p: seq<bool>)
    ensures PackByte(p) < Pow2(|p|)
  {
    if p != [] { PackByteBound(p[1..]); }
  }

  lemma {:induction false} PackByteBit(p: seq<bool>, i: nat)
    requires i < |p|
    ensures Bit(PackByte(p), i) == p[i]
  {
    var v := PackByte(p);
    assert v / 2 == PackByte(p[1..]) && (v % 2 == 1 <==> p[0]);
    if i > 0 { PackByteBit(p[1..], i - 1); }
  }

  /** The presence bitmap: eight flags a byte. */
  function PackBits(p: seq<bool>): (s: bytes)
    ensures |s| == (|p| + 7) / 8
    decreases |p|
  {
    if p == [] then []
    else
      var n := if |p| < 8 then |p| else 8;
      PackByteBound(p[..n]);
      Pow2Mono(n, 8);
      Pow2Sixty4();
      [PackByte(p[..n])] + PackBits(p[n..])
  }

  lemma {:induction false} PackBitsBit(p: seq<bool>, i: nat)
    requires i < |p|
    ensures BitAt(PackBits(p), i) == p[i]
    decreases |p|
  {
    var n := if |p| < 8 then |p| else 8;
    var s := PackBits(p);
    assert s[1..] == PackBits(p[n..]);
    if i < 8 {
      PackByteBit(p[..n], i);
    } else {
      PackBitsBit(p[n..], i - 8);
      assert s[i / 8] == s[1..][(i - 8) / 8];
    }
  }

  ghost function HoldPayload(h: HoldState): bytes {
    LE(8, h.base) + (LE(4, h.runID) + (LE(4, 0) + (PackBits(h.present) + h.record)))
  }

  ghost function DataPayload(base: u64, count: u32, runID: u32, codec: byte, filter: byte, raw: nat, stored: bytes): bytes {
    LE(8, base) + (LE(4, count) + (LE(4, runID) + ([codec] + ([filter] + (LE(2, 0) + (LE(8, raw) + stored))))))
  }

  /** The records with the filter applied. */
  function FilterRecords(filter: byte, s: Schema, count: u32, records: bytes): bytes
    requires filter == FILTER_TRANSPOSE ==> count * s.RecordBytes() <= |records|
  {
    if filter == FILTER_TRANSPOSE then Filtered(records, count * s.RecordBytes(), s.RecordBytes()) else records
  }

  function Packed(z: Zip, codec: byte, data: bytes): bytes {
    if codec == CODEC_NONE then data else z.pack(codec, data)
  }

  ghost function PutEntry(e: Entry, base: nat, tail: bytes): bytes
    requires e.offset <= base
  {
    LE(8, base - e.offset) + (LE(8, e.first) + (LE(4, e.records) + (LE(4, e.runID) + tail)))
  }

  ghost function PutEntries(es: seq<Entry>, base: nat, tail: bytes): bytes
    requires forall e :: e in es ==> e.offset <= base
  {
    if es == [] then tail else PutEntry(es[0], base, PutEntries(es[1..], base, tail))
  }

  /** One group per stream, in first-seen order; offsets count back from `base`. */
  ghost function PutGroups(order: seq<bytes>, index: map<bytes, seq<Entry>>, base: nat): bytes
    requires forall u :: u in order ==> u in index
    requires forall u, e :: u in index && e in index[u] ==> e.offset <= base
  {
    if order == [] then []
    else
      order[0] + (LE(4, |index[order[0]]|) + PutEntries(index[order[0]], base, PutGroups(order[1..], index, base)))
  }

  // --- steps --------------------------------------------------------------------------

  ghost function Emit(ws: WState, typ: byte, id: u16, payload: bytes, out: Outcome): WState {
    var f := Frame(typ, 0, id, payload);
    ws.(log := ws.log + [Event(ws.off, f, out)], off := ws.off + f.Size())
  }

  ghost function WriteSchema(ws: WState, k: nat): WState
    requires k < |ws.streams|
  {
    var s := ws.streams[k];
    Emit(ws.(segStep := ws.segStep[s.uuid := s.axisStep]), FRAME_SCHEMA, Id(k), PutSchema(s), Bound(Norm(s), Id(k)))
  }

  ghost function WriteRun(ws: WState, r: Run): WState {
    Emit(ws.(segRuns := ws.segRuns[r.id := r]), FRAME_RUN, 0, PutRun(r), Nothing)
  }

  /** What a hold says to a reader. */
  function Restated(s: Schema, h: HoldState): Held {
    Held(Norm(s), h.base, h.runID, h.present, h.record,
         match TailsOf(Norm(s), 1, h.record) case None => [] case Some(t) => t)
  }

  ghost function WriteHold(ws: WState, k: nat): WState
    requires k < |ws.streams| && ws.streams[k].uuid in ws.hold
  {
    var s := ws.streams[k];
    var h := ws.hold[s.uuid];
    Emit(ws, FRAME_HOLD, Id(k), HoldPayload(h), HeldValues(Restated(s, h)))
  }

  ghost function WriteSchemas(ws: WState, k: nat): WState
    requires k <= |ws.streams|
    decreases |ws.streams| - k
  {
    if k == |ws.streams| then ws else WriteSchemas(WriteSchema(ws, k), k + 1)
  }

  ghost function WriteRuns(ws: WState, rs: seq<Run>): WState
    decreases |rs|
  {
    if rs == [] then ws else WriteRuns(WriteRun(ws, rs[0]), rs[1..])
  }

  ghost function WriteHolds(ws: WState, k: nat): WState
    requires k <= |ws.streams|
    decreases |ws.streams| - k
  {
    if k == |ws.streams| then ws
    else WriteHolds(if ws.streams[k].uuid in ws.hold then WriteHold(ws, k) else ws, k + 1)
  }

  /** A SYNC frame, and the bookkeeping of the segment it opens. */
  ghost function OpenSegment(ws: WState, wall: u64): WState {
    Emit(ws, FRAME_SYNC, 0, SyncPayload(ws.seqNo, wall), Nothing).(
      seqNo := (ws.seqNo + 1) % Bytes.TWO64, inSeg := true,
      curRun := map[], pastRun := map[], segStep := map[], segRuns := map[])
  }

  ghost function Preamble(ws: WState): WState {
    var w := WriteSchemas(ws, 0);
    PreambleKeeps(ws, 0);
    var w := WriteRuns(w, ws.runs);
    WriteHolds(w, 0)
  }

  lemma {:induction false} PreambleKeeps(ws: WState, k: nat)
    requires k <= |ws.streams|
    ensures WriteSchemas(ws, k).streams == ws.streams
    decreases |ws.streams| - k
  {
    if k < |ws.streams| { PreambleKeeps(WriteSchema(ws, k), k + 1); }
  }

  ghost function BeginSegment(ws: WState, wall: u64): WState { Preamble(OpenSegment(ws, wall)) }

  ghost function AddStream(ws: WState, s: Schema): WResult {
    if s.uuid == ZERO_UUID then Failed(ZeroUuid, ws)
    else if !ValidSchema(s) then Failed(BadSchema, ws)
    else
      var w := ws.(streams := ws.streams + [s]);
      Done(if ws.inSeg then WriteSchema(w, |ws.streams|) else w)
  }

  ghost function AddRun(ws: WState, r: Run): WState {
    var w := ws.(runs := ws.runs + [r]);
    if ws.inSeg then WriteRun(w, r) else w
  }

  function DropRuns(rs: seq<Run>, id: u32): seq<Run> {
    if rs == [] then [] else (if rs[0].id == id then [] else [rs[0]]) + DropRuns(rs[1..], id)
  }

  ghost function SetHold(ws: WState, k: nat, h: HoldState): WResult
    requires k < |ws.streams|
  {
    var s := ws.streams[k];
    if |h.present| != |s.fields| || |h.record| < s.RecordBytes() then Failed(BadHold, ws)
    else Done(ws.(hold := ws.hold[s.uuid := h]))
  }

  /** Whether a batch of run `runID` may follow in this segment. */
  predicate RunAllowed(ws: WState, u: bytes, runID: u32) {
    (u in ws.curRun && ws.curRun[u] == runID) || u !in ws.pastRun || runID !in ws.pastRun[u]
  }

  predicate StepDeclared(ws: WState, s: Schema) {
    s.uuid !in ws.segStep || ws.segStep[s.uuid] == s.axisStep
  }

  /** The run bookkeeping after a batch of run `runID`. */
  function NoteRun(ws: WState, u: bytes, runID: u32): WState {
    if u in ws.curRun && ws.curRun[u] == runID then ws
    else
      var past := if u in ws.pastRun then ws.pastRun[u] else {};
      ws.(curRun := ws.curRun[u := runID],
          pastRun := if u in ws.curRun then ws.pastRun[u := past + {ws.curRun[u]}] else ws.pastRun)
  }

  /** The index grows before the batch is known to be writable. */
  function NoteEntry(ws: WState, u: bytes, e: Entry): WState {
    if u in ws.index then ws.(index := ws.index[u := ws.index[u] + [e]])
    else ws.(index := ws.index[u := [e]], order := ws.order + [u])
  }

  ghost function WriteBatch(z: Zip, ws: WState, k: nat, base: u64, runID: u32, count: u32, records: bytes): WResult
    requires k < |ws.streams|
  {
    var s := ws.streams[k];
    if !StepDeclared(ws, s) then Failed(StepChanged, ws)
    else if !RunAllowed(ws, s.uuid, runID) then Failed(RunInterleaved, ws)
    else
      var w := NoteEntry(NoteRun(ws, s.uuid, runID), s.uuid, Entry(ws.off, base, count, runID));
      if ws.filter == FILTER_TRANSPOSE && count * s.RecordBytes() > |records| then Failed(TooShort, w)
      else if ws.codec != CODEC_NONE && !Compresses(ws.codec) then Failed(UnknownCodec, w)
      else
        var payload := FilterRecords(ws.filter, s, count, records);
        var stored := Packed(z, ws.codec, payload);
        var tails := match TailsOf(Norm(s), count, records) case None => [] case Some(t) => t;
        Done(Emit(w, FRAME_DATA, Id(k),
          DataPayload(base, count, runID, ws.codec, ws.filter, |payload|, stored),
          Reading.Records(Batch(Norm(s), runID, base, count, records, tails), Lookup(ws.segRuns, runID))))
  }

  /** WriteData opens a segment when there is none. */
  ghost function WriteData(z: Zip, ws: WState, k: nat, base: u64, runID: u32, count: u32, records: bytes): WResult
    requires k < |ws.streams|
  {
    if ws.inSeg then WriteBatch(z, ws, k, base, runID, count, records)
    else
      var w := BeginSegment(ws, 0);
      SegmentKeeps(ws, 0);
      WriteBatch(z, w, k, base, runID, count, records)
  }

  lemma SegmentKeeps(ws: WState, wall: u64)
    ensures BeginSegment(ws, wall).streams == ws.streams
  {
    var w := OpenSegment(ws, wall);
    PreambleKeeps(w, 0);
    RunsKeep(WriteSchemas(w, 0), w.runs);
    HoldsKeep(WriteRuns(WriteSchemas(w, 0), w.runs), 0);
  }

  lemma {:induction false} RunsKeep(ws: WState, rs: seq<Run>)
    ensures WriteRuns(ws, rs).streams == ws.streams
    decreases |rs|
  {
    if rs != [] { RunsKeep(WriteRun(ws, rs[0]), rs[1..]); }
  }

  lemma {:induction false} HoldsKeep(ws: WState, k: nat)
    requires k <= |ws.streams|
    ensures WriteHolds(ws, k).streams == ws.streams
    decreases |ws.streams| - k
  {
    if k < |ws.streams| {
      HoldsKeep(if ws.streams[k].uuid in ws.hold then WriteHold(ws, k) else ws, k + 1);
    }
  }

  ghost predicate IndexSane(ws: WState) {
    (forall u :: u in ws.order <==> u in ws.index) &&
    (forall u, e :: u in ws.index && e in ws.index[u] ==> e.offset <= ws.off)
  }

  ghost function IndexPayload(ws: WState): bytes
    requires IndexSane(ws)
  {
    LE(4, |ws.order|) + PutGroups(ws.order, ws.index, ws.off)
  }

  ghost function Close(ws: WState): WState
    requires IndexSane(ws)
  {
    Emit(Emit(ws, FRAME_INDEX, 0, IndexPayload(ws), Nothing), FRAME_END, 0, [], Nothing)
  }

  // --- runs of calls ---------------------------------------------------------------------

  /** What a program does with a writer: its calls, and the changes it makes to the
      writer's settings and to the axis step of a schema it has handed over. */
  datatype Op =
    | OpAddStream(s: Schema)
    | OpSetStep(k: nat, step: u64)
    | OpAddRun(r: Run)
    | OpEndRun(id: u32)
    | OpBeginSegment(wall: u64)
    | OpSetHold(k: nat, h: HoldState)
    | OpClearHold(k: nat)
    | OpWriteMeta(m: Meta)
    | OpWriteAttach(m: Meta)
    | OpWriteData(k: nat, base: u64, runID: u32, count: u32, records: bytes)
    | OpSetCodec(c: byte)
    | OpSetFilter(f: byte)
    | OpClose

  ghost function MetaPayload(m: Meta): bytes { PutStr(m.key, PutStr(m.value, [])) }

  ghost function AttachPayload(m: Meta): bytes { PutStr(m.key, LE(4, |m.value|) + (m.value + [])) }

  ghost function Step(z: Zip, ws: WState, op: Op): WResult
    requires IndexSane(ws)
  {
    match op
    case OpAddStream(s) => AddStream(ws, s)
    case OpSetStep(k, step) =>
      if k < |ws.streams| then Done(ws.(streams := ws.streams[k := ws.streams[k].(axisStep := step)]))
      else Failed(NotRegistered, ws)
    case OpAddRun(r) => Done(AddRun(ws, r))
    case OpEndRun(id) => Done(ws.(runs := DropRuns(ws.runs, id)))
    case OpBeginSegment(wall) => Done(BeginSegment(ws, wall))
    case OpSetHold(k, h) => if k < |ws.streams| then SetHold(ws, k, h) else Failed(NotRegistered, ws)
    case OpClearHold(k) =>
      if k < |ws.streams| then Done(ws.(hold := ws.hold - {ws.streams[k].uuid})) else Failed(NotRegistered, ws)
    case OpWriteMeta(m) => Done(Emit(ws, FRAME_META, 0, MetaPayload(m), Nothing))
    case OpWriteAttach(m) => Done(Emit(ws, FRAME_ATTACH, 0, AttachPayload(m), Nothing))
    case OpWriteData(k, base, runID, count, records) =>
      if k < |ws.streams| then WriteData(z, ws, k, base, runID, count, records) else Failed(NotRegistered, ws)
    case OpSetCodec(c) => Done(ws.(codec := c))
    case OpSetFilter(f) => Done(ws.(filter := f))
    case OpClose => Done(Close(ws))
  }
}
