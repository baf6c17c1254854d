/** What the writer's guards admit, told from the frames it has emitted: a batch is
    taken exactly when its stream's step is the one this segment declared and its
    run does not come back after being left. */
module Guards {
  import opened Bytes
  import opened Wire
  import opened Format
  import opened Frames
  import opened Records
  import opened Reading
  import opened Writing
  import opened Recording
  import opened Runs

  /** The events of the segment that is open: those after the last SYNC frame. */
  function SegmentTail(evs: seq<Event>): seq<Event> {
    if evs == [] then []
    else
      var n := |evs| - 1;
      if evs[n].frame.typ == FRAME_SYNC then [] else SegmentTail(evs[..n]) + [evs[n]]
  }

  /** The runs a stream's batches belong to, in order. */
  function RunsIn(evs: seq<Event>, u: bytes): seq<u32> {
    if evs == [] then []
    else
      var n := |evs| - 1;
      RunsIn(evs[..n], u)
      + (if evs[n].out.Records? && evs[n].out.batch.schema.uuid == u then [evs[n].out.batch.runID] else [])
  }

  /** The axis step the last SCHEMA frame for a stream declared. */
  function DeclaredStep(evs: seq<Event>, u: bytes): Option<u64> {
    if evs == [] then None
    else
      var n := |evs| - 1;
      if evs[n].out.Bound? && evs[n].out.schema.uuid == u then Some(evs[n].out.schema.axisStep)
      else DeclaredStep(evs[..n], u)
  }

  /** A run, once left, does not return. */
  ghost predicate Contiguous(h: seq<u32>) {
    forall i, j, k :: 0 <= i < j < k < |h| && h[i] == h[k] ==> h[j] == h[i]
  }

  // --- one event at a time ------------------------------------------------------------------

  lemma TailSnoc(evs: seq<Event>, e: Event)
    ensures SegmentTail(evs + [e]) == if e.frame.typ == FRAME_SYNC then [] else SegmentTail(evs) + [e]
  {
    assert (evs + [e])[..|evs|] == evs;
  }

  lemma RunsSnoc(evs: seq<Event>, e: Event, u: bytes)
    ensures RunsIn(evs + [e], u)
         == RunsIn(evs, u) + (if e.out.Records? && e.out.batch.schema.uuid == u then [e.out.batch.runID] else [])
  {
    assert (evs + [e])[..|evs|] == evs;
  }

  lemma StepSnoc(evs: seq<Event>, e: Event, u: bytes)
    ensures DeclaredStep(evs + [e], u)
         == if e.out.Bound? && e.out.schema.uuid == u then Some(e.out.schema.axisStep) else DeclaredStep(evs, u)
  {
    assert (evs + [e])[..|evs|] == evs;
  }

  /** The runs of stream u in the open segment. */
  function Seen(log: seq<Event>, u: bytes): seq<u32> { RunsIn(SegmentTail(log), u) }

  function StepSeen(log: seq<Event>, u: bytes): Option<u64> { DeclaredStep(SegmentTail(log), u) }

  /** What one more event does to both. */
  lemma SeenSnoc(log: seq<Event>, e: Event, u: bytes)
    ensures e.frame.typ == FRAME_SYNC ==> Seen(log + [e], u) == [] && StepSeen(log + [e], u) == None
    ensures e.frame.typ != FRAME_SYNC ==>
      Seen(log + [e], u)
      == Seen(log, u) + (if e.out.Records? && e.out.batch.schema.uuid == u then [e.out.batch.runID] else [])
    ensures e.frame.typ != FRAME_SYNC ==>
      StepSeen(log + [e], u)
      == if e.out.Bound? && e.out.schema.uuid == u then Some(e.out.schema.axisStep) else StepSeen(log, u)
  {
    TailSnoc(log, e);
    hide SegmentTail;
    RunsSnoc(SegmentTail(log), e, u);
    StepSnoc(SegmentTail(log), e, u);
  }

  // --- the writer's memory --------------------------------------------------------------------

  function PastRuns(ws: WState, u: bytes): set<u32> { if u in ws.pastRun then ws.pastRun[u] else {} }

  /** The current and the past runs say which runs were seen and which was last. */
  ghost predicate Remembers(h: seq<u32>, cur: Option<u32>, past: set<u32>) {
    Contiguous(h) &&
    (h == [] ==> cur == None && past == {}) &&
    (h != [] ==> cur == Some(h[|h| - 1]) && past == (set r | r in h) - {h[|h| - 1]})
  }

  ghost predicate Remembered(ws: WState, u: bytes) {
    ws.inSeg ==>
      Remembers(Seen(ws.log, u), Lookup(ws.curRun, u), PastRuns(ws, u)) && StepSeen(ws.log, u) == Lookup(ws.segStep, u)
  }

  /** The guard's test is contiguity of what was seen with the new run after it. */
  lemma GuardIsContiguity(h: seq<u32>, cur: Option<u32>, past: set<u32>, r: u32)
    requires Remembers(h, cur, past)
    ensures (cur == Some(r) || r !in past) <==> Contiguous(h + [r])
  {
    var n := |h|;
    var g := h + [r];
    if cur == Some(r) || r !in past {
      forall i, j, k | 0 <= i < j < k < |g| && g[i] == g[k] ensures g[j] == g[i] {
        if k == n {
          assert h[i] in h && h[i] == r;
          if j < n - 1 { assert h[i] == h[n - 1] ==> h[j] == h[i]; }
        }
      }
    } else {
      var i :| 0 <= i < n && h[i] == r;
      assert h[n - 1] != r;
      assert g[i] == g[n] && g[n - 1] != g[i];
    }
  }

  lemma RemembersNext(h: seq<u32>, cur: Option<u32>, past: set<u32>, r: u32)
    requires Remembers(h, cur, past) && Contiguous(h + [r])
    ensures Remembers(h + [r], Some(r), if cur == Some(r) then past else if cur == None then past else past + {cur.value})
  {
    var g := h + [r];
    var rest := if cur == Some(r) then past else if cur == None then past else past + {cur.value};
    GuardIsContiguity(h, cur, past, r);
    assert (set x | x in g) == (set x | x in h) + {r};
    if h != [] {
      assert h[|h| - 1] in h;
    }
    assert rest == (set x | x in g) - {r};
  }

  // --- every call keeps the memory --------------------------------------------------------------

  /** An event that is neither a segment's start, nor records, nor a schema. */
  lemma RememberPlain(ws: WState, w: WState, e: Event, u: bytes)
    requires Remembered(ws, u) && w.log == ws.log + [e] && e.frame.typ != FRAME_SYNC && !e.out.Records? && !e.out.Bound?
    requires w.inSeg == ws.inSeg && w.curRun == ws.curRun && w.pastRun == ws.pastRun && w.segStep == ws.segStep
    ensures Remembered(w, u)
  {
    SeenSnoc(ws.log, e, u);
    hide Seen;
    hide StepSeen;
    hide Remembers;
    assert Seen(ws.log, u) + [] == Seen(ws.log, u);
  }

  lemma RememberSame(ws: WState, w: WState, u: bytes)
    requires Remembered(ws, u) && w.log == ws.log
    requires w.inSeg == ws.inSeg && w.curRun == ws.curRun && w.pastRun == ws.pastRun && w.segStep == ws.segStep
    ensures Remembered(w, u)
  {
  }

  lemma RememberSchema(ws: WState, k: nat, u: bytes)
    requires Remembered(ws, u) && k < |ws.streams| && ws.inSeg
    ensures Remembered(WriteSchema(ws, k), u)
  {
    hide PutSchema;
    hide Seen;
    hide StepSeen;
    hide Remembers;
    var s := ws.streams[k];
    var e := Event(ws.off, Frame(FRAME_SCHEMA, 0, Id(k), PutSchema(s)), Bound(Norm(s), Id(k)));
    SeenSnoc(ws.log, e, u);
    assert Seen(ws.log, u) + [] == Seen(ws.log, u);
    NormNames(s);
    hide Norm;
    assert WriteSchema(ws, k).log == ws.log + [e];
  }

  lemma NormNames(s: Schema)
    ensures Norm(s).uuid == s.uuid && Norm(s).axisStep == s.axisStep
  {
  }

  lemma {:induction false} RememberSchemas(ws: WState, k: nat, u: bytes)
    requires Remembered(ws, u) && k <= |ws.streams| && ws.inSeg
    ensures Remembered(WriteSchemas(ws, k), u)
    decreases |ws.streams| - k
  {
    hide Remembered;
    if k < |ws.streams| {
      RememberSchema(ws, k, u);
      RememberSchemas(WriteSchema(ws, k), k + 1, u);
    }
  }

  lemma {:induction false} RememberRuns(ws: WState, rs: seq<Run>, u: bytes)
    requires Remembered(ws, u)
    ensures Remembered(WriteRuns(ws, rs), u)
    decreases |rs|
  {
    hide Remembered;
    hide PutRun;
    if rs != [] {
      var e := Event(ws.off, Frame(FRAME_RUN, 0, 0, PutRun(rs[0])), Nothing);
      RememberPlain(ws, WriteRun(ws, rs[0]), e, u);
      RememberRuns(WriteRun(ws, rs[0]), rs[1..], u);
    }
  }

  lemma {:induction false} RememberHolds(ws: WState, k: nat, u: bytes)
    requires Remembered(ws, u) && k <= |ws.streams|
    ensures Remembered(WriteHolds(ws, k), u)
    decreases |ws.streams| - k
  {
    hide Remembered;
    hide HoldPayload;
    hide Restated;
    if k < |ws.streams| {
      if ws.streams[k].uuid in ws.hold {
        var h := ws.hold[ws.streams[k].uuid];
        var e := Event(ws.off, Frame(FRAME_HOLD, 0, Id(k), HoldPayload(h)), HeldValues(Restated(ws.streams[k], h)));
        RememberPlain(ws, WriteHold(ws, k), e, u);
        RememberHolds(WriteHold(ws, k), k + 1, u);
      } else {
        RememberHolds(ws, k + 1, u);
      }
    }
  }

  lemma RememberSegment(ws: WState, wall: u64, u: bytes)
    ensures Remembered(BeginSegment(ws, wall), u)
  {
    RememberOpen(ws, wall, u);
    SegmentIs(ws, wall);
    hide *;
    var w0 := OpenSegment(ws, wall);
    SchemasSettings(w0, 0);
    OpenIsOpen(ws, wall);
    RememberSchemas(w0, 0, u);
    var w1 := WriteSchemas(w0, 0);
    RememberRuns(w1, w1.runs, u);
    RememberHolds(WriteRuns(w1, w1.runs), 0, u);
  }

  lemma OpenIsOpen(ws: WState, wall: u64)
    ensures OpenSegment(ws, wall).inSeg
  {
  }

  lemma RememberOpen(ws: WState, wall: u64, u: bytes)
    ensures Remembered(OpenSegment(ws, wall), u)
  {
    var e := Event(ws.off, Frame(FRAME_SYNC, 0, 0, SyncPayload(ws.seqNo, wall)), Nothing);
    assert OpenSegment(ws, wall).log == ws.log + [e];
    SeenSnoc(ws.log, e, u);
    hide Seen;
    hide StepSeen;
    hide SyncPayload;
  }

  lemma RunAllowedIs(ws: WState, u: bytes, r: u32)
    ensures RunAllowed(ws, u, r) <==> Lookup(ws.curRun, u) == Some(r) || r !in PastRuns(ws, u)
  {
  }

  lemma RememberBatch(z: Zip, ws: WState, k: nat, base: u64, runID: u32, count: u32, records: bytes, u: bytes)
    requires Remembered(ws, u) && k < |ws.streams| && ws.inSeg
    requires WriteBatch(z, ws, k, base, runID, count, records).Done?
    ensures Remembered(WriteBatch(z, ws, k, base, runID, count, records).ws, u)
  {
    BatchEmits(z, ws, k, base, runID, count, records);
    hide WriteBatch;
    hide DataFrame;
    hide TailsOf;
    var s := ws.streams[k];
    var w0 := BatchState(ws, s, base, runID, count);
    var out := Batched(s, base, runID, count, records, ws.segRuns);
    var e := Event(ws.off, Frame(FRAME_DATA, 0, Id(k), DataFrame(z, s, base, runID, count, ws.codec, ws.filter, records)), out);
    var w := WriteBatch(z, ws, k, base, runID, count, records).ws;
    assert w.log == ws.log + [e];
    SeenSnoc(ws.log, e, u);
    hide Seen;
    hide StepSeen;
    RememberRun(ws, s.uuid, runID, u, base, count);
    hide BatchState;
    hide Remembers;
  }

  lemma RememberRun(ws: WState, v: bytes, runID: u32, u: bytes, base: u64, count: u32)
    requires Remembers(Seen(ws.log, u), Lookup(ws.curRun, u), PastRuns(ws, u)) && RunAllowed(ws, v, runID)
    ensures var w := NoteEntry(NoteRun(ws, v, runID), v, Entry(ws.off, base, count, runID));
      Remembers(Seen(ws.log, u) + (if u == v then [runID] else []), Lookup(w.curRun, u), PastRuns(w, u))
  {
    hide Seen;
    hide Remembers;
    var h := Seen(ws.log, u);
    var w := NoteEntry(NoteRun(ws, v, runID), v, Entry(ws.off, base, count, runID));
    NoteRunIs(ws, v, runID, u, base, count);
    hide NoteRun;
    hide NoteEntry;
    if u == v {
      RunAllowedIs(ws, u, runID);
      RemembersContiguous(h, Lookup(ws.curRun, u), PastRuns(ws, u), runID);
      RemembersNext(h, Lookup(ws.curRun, u), PastRuns(ws, u), runID);
    } else {
      assert h + [] == h;
    }
  }

  lemma RemembersContiguous(h: seq<u32>, cur: Option<u32>, past: set<u32>, r: u32)
    requires Remembers(h, cur, past) && (cur == Some(r) || r !in past)
    ensures Contiguous(h + [r])
  {
    GuardIsContiguity(h, cur, past, r);
  }

  lemma NoteRunIs(ws: WState, v: bytes, runID: u32, u: bytes, base: u64, count: u32)
    ensures var w := NoteEntry(NoteRun(ws, v, runID), v, Entry(ws.off, base, count, runID));
      var cur := Lookup(ws.curRun, u);
      Lookup(w.curRun, u) == (if u == v then Some(runID) else cur) &&
      PastRuns(w, u) ==
        if u != v || cur == Some(runID) || cur == None then PastRuns(ws, u) else PastRuns(ws, u) + {cur.value}
  {
    EntryKeepsRuns(NoteRun(ws, v, runID), v, Entry(ws.off, base, count, runID));
    hide NoteEntry;
    if v in ws.curRun && ws.curRun[v] == runID {
      assert NoteRun(ws, v, runID) == ws;
    } else if v in ws.curRun {
      var past := PastRuns(ws, v) + {ws.curRun[v]};
      var w := ws.(curRun := ws.curRun[v := runID], pastRun := ws.pastRun[v := past]);
      assert NoteRun(ws, v, runID) == w;
    } else {
      assert NoteRun(ws, v, runID) == ws.(curRun := ws.curRun[v := runID]);
    }
  }

  lemma EntryKeepsRuns(ws: WState, u: bytes, e: Entry)
    ensures NoteEntry(ws, u, e).curRun == ws.curRun && NoteEntry(ws, u, e).pastRun == ws.pastRun
  {
    if u in ws.index {
      assert NoteEntry(ws, u, e) == ws.(index := ws.index[u := ws.index[u] + [e]]);
    } else {
      assert NoteEntry(ws, u, e) == ws.(index := ws.index[u := [e]], order := ws.order + [u]);
    }
  }

  lemma RememberStep(z: Zip, ws: WState, op: Op, u: bytes)
    requires Remembered(ws, u) && IndexSane(ws) && Step(z, ws, op).Done?
    ensures Remembered(Step(z, ws, op).ws, u)
  {
    hide Remembered;
    hide BeginSegment;
    hide WriteBatch;
    hide WriteSchema;
    hide PutRun;
    hide IndexPayload;
    hide MetaPayload;
    hide AttachPayload;
    hide IndexSane;
    hide ValidSchema;
    var w := Step(z, ws, op).ws;
    match op {
      case OpAddStream(s) =>
        var w0 := ws.(streams := ws.streams + [s]);
        RememberSame(ws, w0, u);
        if ws.inSeg { RememberSchema(w0, |ws.streams|, u); }
      case OpAddRun(r) =>
        var w0 := ws.(runs := ws.runs + [r]);
        RememberSame(ws, w0, u);
        if ws.inSeg { RememberPlain(w0, w, Event(ws.off, Frame(FRAME_RUN, 0, 0, PutRun(r)), Nothing), u); }
      case OpBeginSegment(wall) => RememberSegment(ws, wall, u);
      case OpWriteMeta(m) =>
        RememberPlain(ws, w, Event(ws.off, Frame(FRAME_META, 0, 0, MetaPayload(m)), Nothing), u);
      case OpWriteAttach(m) =>
        RememberPlain(ws, w, Event(ws.off, Frame(FRAME_ATTACH, 0, 0, AttachPayload(m)), Nothing), u);
      case OpWriteData(k, base, runID, count, records) =>
        RememberData(z, ws, k, base, runID, count, records, u);
      case OpClose =>
        var w1 := Emit(ws, FRAME_INDEX, 0, IndexPayload(ws), Nothing);
        RememberPlain(ws, w1, Event(ws.off, Frame(FRAME_INDEX, 0, 0, IndexPayload(ws)), Nothing), u);
        RememberPlain(w1, w, Event(w1.off, Frame(FRAME_END, 0, 0, []), Nothing), u);
      case _ => RememberSame(ws, w, u);
    }
  }

  lemma RememberData(z: Zip, ws: WState, k: nat, base: u64, runID: u32, count: u32, records: bytes, u: bytes)
    requires Remembered(ws, u) && k < |ws.streams| && WriteData(z, ws, k, base, runID, count, records).Done?
    ensures Remembered(WriteData(z, ws, k, base, runID, count, records).ws, u)
  {
    hide *;
    DataUnfold(z, ws, k, base, runID, count, records);
    RememberSegment(ws, 0, u);
    SegmentIsOpen(ws, 0);
    RememberBatch(z, if ws.inSeg then ws else BeginSegment(ws, 0), k, base, runID, count, records, u);
  }

  lemma SegmentIsOpen(ws: WState, wall: u64)
    ensures BeginSegment(ws, wall).inSeg
  {
    OpenIsOpen(ws, wall);
    SegmentIs(ws, wall);
    hide *;
    var w0 := OpenSegment(ws, wall);
    SchemasSettings(w0, 0);
    var w1 := WriteSchemas(w0, 0);
    RunsSettings(w1, w1.runs);
    HoldsSettings(WriteRuns(w1, w1.runs), 0);
  }

  lemma {:induction false} RememberAll(z: Zip, ws: WState, ops: seq<Op>, u: bytes)
    requires Remembered(ws, u) && IndexSane(ws) && RunFrom(z, ws, ops).Done?
    ensures Remembered(RunFrom(z, ws, ops).ws, u)
    decreases |ops|
  {
    hide Step;
    hide Remembered;
    hide IndexSane;
    if ops != [] {
      StepSane(z, ws, ops[0]);
      RememberStep(z, ws, ops[0], u);
      RememberAll(z, Step(z, ws, ops[0]).ws, ops[1..], u);
    }
  }

  // --- the theorem ------------------------------------------------------------------------------

  /** A batch the filter and the codec can store. */
  predicate Storable(ws: WState, s: Schema, count: u32, records: bytes) {
    (ws.filter == FILTER_TRANSPOSE ==> count * s.RecordBytes() <= |records|) &&
    (ws.codec == CODEC_NONE || Compresses(ws.codec))
  }

  /** After any run of successful calls, a storable batch is accepted exactly when
      its stream's step is the one the segment's frames declare and its run keeps
      the stream's runs contiguous; with no segment open it is always accepted. */
  lemma GuardsAreExact(z: Zip, ops: seq<Op>, ws: WState, k: nat, base: u64, runID: u32, count: u32, records: bytes)
    requires Recorded(z, ops, ws) && k < |ws.streams| && Storable(ws, ws.streams[k], count, records)
    ensures var u := ws.streams[k].uuid;
      WriteData(z, ws, k, base, runID, count, records).Done? <==>
        (ws.inSeg ==> StepSeen(ws.log, u) == Some(ws.streams[k].axisStep) && Contiguous(Seen(ws.log, u) + [runID]))
  {
    var s := ws.streams[k];
    StartRemembers(s.uuid);
    RememberAll(z, START, ops, s.uuid);
    var rs := LogReplays(z, ops, ws, Reading.FRESH);
    hide Recorded;
    hide Seen;
    hide StepSeen;
    if ws.inSeg {
      StreamDeclared(ws, rs, k);
      GuardIsContiguity(Seen(ws.log, s.uuid), Lookup(ws.curRun, s.uuid), PastRuns(ws, s.uuid), runID);
      RunAllowedIs(ws, s.uuid, runID);
      hide Sound;
      hide Sim;
      BatchAccepted(z, ws, k, base, runID, count, records);
    } else {
      hide Sound;
      hide Sim;
      NewSegmentAccepts(z, ws, k, base, runID, count, records);
    }
  }

  lemma StartRemembers(u: bytes)
    ensures Remembered(START, u)
  {
  }

  lemma StreamDeclared(ws: WState, rs: RState, k: nat)
    requires Sound(ws) && Sim(ws, rs) && ws.inSeg && k < |ws.streams|
    ensures ws.streams[k].uuid in ws.segStep
  {
  }

  lemma BatchAccepted(z: Zip, ws: WState, k: nat, base: u64, runID: u32, count: u32, records: bytes)
    requires k < |ws.streams| && Storable(ws, ws.streams[k], count, records) && ws.inSeg
    ensures WriteData(z, ws, k, base, runID, count, records).Done? <==>
      StepDeclared(ws, ws.streams[k]) && RunAllowed(ws, ws.streams[k].uuid, runID)
  {
    hide TailsOf;
    hide FilterRecords;
    hide DataPayload;
    hide BeginSegment;
  }

  lemma NewSegmentAccepts(z: Zip, ws: WState, k: nat, base: u64, runID: u32, count: u32, records: bytes)
    requires Sound(ws) && k < |ws.streams| && Storable(ws, ws.streams[k], count, records) && !ws.inSeg
    ensures WriteData(z, ws, k, base, runID, count, records).Done?
  {
    hide *;
    var s := ws.streams[k];
    DataUnfold(z, ws, k, base, runID, count, records);
    SegmentSettings(ws, 0);
    SegmentIsOpen(ws, 0);
    var w := BeginSegment(ws, 0);
    SegmentClears(ws, 0, k);
    StorableStill(ws, w, s, count, records);
    DataUnfold(z, w, k, base, runID, count, records);
    BatchAccepted(z, w, k, base, runID, count, records);
  }

  lemma StorableStill(ws: WState, w: WState, s: Schema, count: u32, records: bytes)
    requires Storable(ws, s, count, records) && w.filter == ws.filter && w.codec == ws.codec
    ensures Storable(w, s, count, records)
  {
  }

  lemma SegmentClears(ws: WState, wall: u64, k: nat)
    requires Sound(ws) && k < |ws.streams|
    ensures var w := BeginSegment(ws, wall);
      w.streams == ws.streams && StepDeclared(w, ws.streams[k]) && forall r: u32 :: RunAllowed(w, ws.streams[k].uuid, r)
  {
    var w0 := OpenSegment(ws, wall);
    SegmentIs(ws, wall);
    SchemasDeclare(w0, 0);
    assert ws.streams[k] in w0.streams;
    hide Sound;
    hide OpenSegment;
    var w1 := WriteSchemas(w0, 0);
    RunsSettings(w1, w1.runs);
    HoldsSettings(WriteRuns(w1, w1.runs), 0);
  }

  /** In every emitted segment, at every point, each stream's runs are contiguous. */
  ghost predicate ContiguousThroughout(log: seq<Event>, u: bytes) {
    forall i :: 0 <= i <= |log| ==> Contiguous(Seen(log[..i], u))
  }

  lemma ThroughoutSnoc(log: seq<Event>, e: Event, u: bytes)
    requires ContiguousThroughout(log, u) && Contiguous(Seen(log + [e], u))
    ensures ContiguousThroughout(log + [e], u)
  {
    hide Seen;
    hide Contiguous;
    forall i | 0 <= i <= |log| + 1 ensures Contiguous(Seen((log + [e])[..i], u)) {
      if i <= |log| {
        assert (log + [e])[..i] == log[..i];
      } else {
        assert (log + [e])[..i] == log + [e];
      }
    }
  }

  lemma {:induction false} ThroughoutQuiet(log: seq<Event>, add: seq<Event>, u: bytes)
    requires ContiguousThroughout(log, u) && AllQuiet(add)
    ensures ContiguousThroughout(log + add, u)
    decreases |add|
  {
    hide Seen;
    hide Contiguous;
    if add == [] {
      assert log + add == log;
    } else {
      var e := add[0];
      assert e in add;
      SeenSnoc(log, e, u);
      assert log[..|log|] == log;
      assert Seen(log, u) + [] == Seen(log, u);
      ThroughoutSnoc(log, e, u);
      ThroughoutQuiet(log + [e], add[1..], u);
      assert (log + [e]) + add[1..] == log + add;
    }
  }

  lemma ThroughoutSegment(ws: WState, wall: u64, u: bytes)
    requires ContiguousThroughout(ws.log, u)
    ensures ContiguousThroughout(BeginSegment(ws, wall).log, u)
  {
    var sync, add := SegmentAdds(ws, wall);
    SeenSnoc(ws.log, sync, u);
    assert Contiguous(Seen(ws.log + [sync], u));
    hide *;
    ThroughoutSnoc(ws.log, sync, u);
    ThroughoutQuiet(ws.log + [sync], add, u);
  }

  lemma ThroughoutStep(z: Zip, ws: WState, op: Op, u: bytes)
    requires Remembered(ws, u) && ContiguousThroughout(ws.log, u) && IndexSane(ws) && Step(z, ws, op).Done?
    ensures ContiguousThroughout(Step(z, ws, op).ws.log, u)
  {
    hide Remembered;
    hide ContiguousThroughout;
    hide BeginSegment;
    hide WriteBatch;
    hide Norm;
    hide PutSchema;
    hide PutRun;
    hide IndexPayload;
    hide MetaPayload;
    hide AttachPayload;
    hide IndexSane;
    hide ValidSchema;
    var w := Step(z, ws, op).ws;
    match op {
      case OpAddStream(s) =>
        if ws.inSeg {
          var k := |ws.streams|;
          ThroughoutQuiet(ws.log, [Event(ws.off, Frame(FRAME_SCHEMA, 0, Id(k), PutSchema(s)), Bound(Norm(s), Id(k)))], u);
        }
      case OpAddRun(r) =>
        if ws.inSeg { ThroughoutQuiet(ws.log, [Event(ws.off, Frame(FRAME_RUN, 0, 0, PutRun(r)), Nothing)], u); }
      case OpBeginSegment(wall) => ThroughoutSegment(ws, wall, u);
      case OpWriteMeta(m) =>
        ThroughoutQuiet(ws.log, [Event(ws.off, Frame(FRAME_META, 0, 0, MetaPayload(m)), Nothing)], u);
      case OpWriteAttach(m) =>
        ThroughoutQuiet(ws.log, [Event(ws.off, Frame(FRAME_ATTACH, 0, 0, AttachPayload(m)), Nothing)], u);
      case OpWriteData(k, base, runID, count, records) =>
        ThroughoutData(z, ws, k, base, runID, count, records, u);
      case OpClose => ThroughoutClose(ws, u);
      case _ =>
    }
  }

  lemma ThroughoutClose(ws: WState, u: bytes)
    requires IndexSane(ws) && ContiguousThroughout(ws.log, u)
    ensures ContiguousThroughout(Close(ws).log, u)
  {
    hide Seen;
    hide Contiguous;
    hide IndexPayload;
    var e := Event(ws.off, Frame(FRAME_INDEX, 0, 0, IndexPayload(ws)), Nothing);
    var w1 := Emit(ws, FRAME_INDEX, 0, IndexPayload(ws), Nothing);
    SeenSnoc(ws.log, e, u);
    assert ws.log[..|ws.log|] == ws.log && Seen(ws.log, u) + [] == Seen(ws.log, u);
    ThroughoutSnoc(ws.log, e, u);
    ThroughoutQuiet(w1.log, [Event(w1.off, Frame(FRAME_END, 0, 0, []), Nothing)], u);
  }

  lemma ThroughoutData(z: Zip, ws: WState, k: nat, base: u64, runID: u32, count: u32, records: bytes, u: bytes)
    requires Remembered(ws, u) && ContiguousThroughout(ws.log, u)
    requires k < |ws.streams| && WriteData(z, ws, k, base, runID, count, records).Done?
    ensures ContiguousThroughout(WriteData(z, ws, k, base, runID, count, records).ws.log, u)
  {
    hide *;
    DataUnfold(z, ws, k, base, runID, count, records);
    RememberSegment(ws, 0, u);
    SegmentIsOpen(ws, 0);
    ThroughoutSegment(ws, 0, u);
    var w1 := if ws.inSeg then ws else BeginSegment(ws, 0);
    RememberBatch(z, w1, k, base, runID, count, records, u);
    var e := BatchEvent(z, w1, k, base, runID, count, records);
    RememberedSeen(WriteBatch(z, w1, k, base, runID, count, records).ws, u);
    ThroughoutSnoc(w1.log, e, u);
  }

  lemma BatchEvent(z: Zip, ws: WState, k: nat, base: u64, runID: u32, count: u32, records: bytes) returns (e: Event)
    requires k < |ws.streams| && WriteBatch(z, ws, k, base, runID, count, records).Done?
    ensures WriteBatch(z, ws, k, base, runID, count, records).ws.log == ws.log + [e]
    ensures WriteBatch(z, ws, k, base, runID, count, records).ws.inSeg == ws.inSeg
  {
    BatchEmits(z, ws, k, base, runID, count, records);
    hide WriteBatch;
    hide DataFrame;
    hide Batched;
    hide BatchState;
    var s := ws.streams[k];
    e := Event(ws.off, Frame(FRAME_DATA, 0, Id(k), DataFrame(z, s, base, runID, count, ws.codec, ws.filter, records)),
               Batched(s, base, runID, count, records, ws.segRuns));
  }

  lemma RememberedSeen(ws: WState, u: bytes)
    requires Remembered(ws, u) && ws.inSeg
    ensures Contiguous(Seen(ws.log, u))
  {
  }

  lemma {:induction false} ThroughoutRun(z: Zip, ws: WState, ops: seq<Op>, u: bytes)
    requires Remembered(ws, u) && ContiguousThroughout(ws.log, u) && IndexSane(ws) && RunFrom(z, ws, ops).Done?
    ensures ContiguousThroughout(RunFrom(z, ws, ops).ws.log, u)
    decreases |ops|
  {
    hide Step;
    hide Remembered;
    hide ContiguousThroughout;
    hide IndexSane;
    if ops != [] {
      StepSane(z, ws, ops[0]);
      RememberStep(z, ws, ops[0], u);
      ThroughoutStep(z, ws, ops[0], u);
      ThroughoutRun(z, Step(z, ws, ops[0]).ws, ops[1..], u);
    }
  }

  /** Every emitted segment has contiguous runs for every stream. */
  lemma EverySegmentContiguous(z: Zip, ops: seq<Op>, ws: WState, u: bytes)
    requires Recorded(z, ops, ws)
    ensures ContiguousThroughout(ws.log, u)
  {
    StartRemembers(u);
    assert START.log[..0] == [];
    assert Seen([], u) == [];
    assert ContiguousThroughout(START.log, u);
    hide Seen;
    hide RunFrom;
    ThroughoutRun(z, START, ops, u);
  }
}
