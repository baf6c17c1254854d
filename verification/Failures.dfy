/** Calls that fail after they have begun: a batch is noted in the writer's index before
    the filter and the codec can refuse it. */
module Failures {
  import opened Bytes
  import opened Format
  import opened Frames
  import opened Records
  import opened Reading
  import opened Writing
  import opened Recording
  import opened Runs
  import opened IndexFrames
  import opened Programs

  /** The segment a batch is for. */
  ghost function Segment(ws: WState): (w: WState)
    ensures w.streams == ws.streams
  {
    SegmentKeeps(ws, 0);
    if ws.inSeg then ws else BeginSegment(ws, 0)
  }

  /** The guards let the batch pass, and it is too short for the filter or the codec is
      unknown. */
  predicate FailsLate(ws: WState, k: nat, runID: u32, count: u32, records: bytes)
    requires k < |ws.streams|
  {
    var s := ws.streams[k];
    StepDeclared(ws, s) && RunAllowed(ws, s.uuid, runID) &&
    ((ws.filter == FILTER_TRANSPOSE && count * s.RecordBytes() > |records|) ||
     (ws.codec != CODEC_NONE && !Compresses(ws.codec)))
  }

  /** A failed batch emits no frame. What is left of it is its note, and that exactly when
      it failed after the guards. */
  lemma FailedNotes(z: Zip, ws: WState, k: nat, base: u64, runID: u32, count: u32, records: bytes)
    requires k < |ws.streams| && WriteBatch(z, ws, k, base, runID, count, records).Failed?
    ensures var r := WriteBatch(z, ws, k, base, runID, count, records);
      r.ws.log == ws.log && r.ws.off == ws.off
    ensures var r := WriteBatch(z, ws, k, base, runID, count, records);
      r.ws.index != ws.index <==> r.e in {TooShort, UnknownCodec}
    ensures var r, s := WriteBatch(z, ws, k, base, runID, count, records), ws.streams[k];
      r.ws.index != ws.index <==> StepDeclared(ws, s) && RunAllowed(ws, s.uuid, runID)
    ensures var r, u := WriteBatch(z, ws, k, base, runID, count, records), ws.streams[k].uuid;
      r.ws.index != ws.index ==> IndexAt(r.ws, u) == IndexAt(ws, u) + [Entry(ws.off, base, count, runID)]
    ensures var r := WriteBatch(z, ws, k, base, runID, count, records);
      r.ws.index == ws.index ==> r.ws == ws
  {
    var s := ws.streams[k];
    BatchStateKeeps(ws, s, base, runID, count);
    BatchEntry(ws, s, base, runID, count);
    hide NoteRun;
    hide NoteEntry;
    hide TailsOf;
    hide DataPayload;
    hide FilterRecords;
    var w := BatchState(ws, s, base, runID, count);
    assert |IndexAt(w, s.uuid)| == |IndexAt(ws, s.uuid)| + 1;
  }

  /** A batch fails late exactly as told, and the index still lists the batches of the log
      exactly when it does not. */
  lemma IndexStays(z: Zip, ws: WState, k: nat, base: u64, runID: u32, count: u32, records: bytes)
    requires Indexed(ws) && AllComplete(ws.log) && k < |ws.streams| && |ws.streams[k].uuid| == 16
    ensures Indexed(WriteBatch(z, ws, k, base, runID, count, records).ws) <==> !FailsLate(ws, k, runID, count, records)
  {
    hide *;
    LateIsFailed(z, ws, k, base, runID, count, records);
    var r := WriteBatch(z, ws, k, base, runID, count, records);
    if r.Done? {
      IndexedBatch(z, ws, k, base, runID, count, records);
    } else {
      FailedNotes(z, ws, k, base, runID, count, records);
      NotedTwice(ws, r.ws, ws.streams[k].uuid, Entry(ws.off, base, count, runID));
    }
  }

  lemma LateIsFailed(z: Zip, ws: WState, k: nat, base: u64, runID: u32, count: u32, records: bytes)
    requires k < |ws.streams|
    ensures var r := WriteBatch(z, ws, k, base, runID, count, records);
      FailsLate(ws, k, runID, count, records) <==> r.Failed? && r.e in {TooShort, UnknownCodec}
  {
    hide NoteRun;
    hide NoteEntry;
    hide TailsOf;
    hide DataPayload;
    hide FilterRecords;
    hide RunAllowed;
    hide StepDeclared;
  }

  /** An entry more in the index and none in the log. */
  lemma NotedTwice(ws: WState, w: WState, u: bytes, e: Entry)
    requires Indexed(ws) && w.log == ws.log
    requires if w.index != ws.index then IndexAt(w, u) == IndexAt(ws, u) + [e] else w == ws
    ensures Indexed(w) <==> w.index == ws.index
  {
    hide EntriesOf;
    if w.index != ws.index {
      assert IndexAt(ws, u) == EntriesOf(ws.log, u);
      assert |IndexAt(w, u)| == |EntriesOf(w.log, u)| + 1;
    }
  }

  // --- what closing the file then writes -------------------------------------------------------------------

  /** The INDEX frame a writer closes with is complete exactly when its index lists the
      batches of its log. */
  lemma ClosedComplete(ws: WState)
    requires IndexSane(ws) && ws.off < Bytes.TWO64 && |IndexPayload(ws)| < TWO32
    requires forall u :: u in ws.order ==> |u| == 16
    ensures |Close(ws).log| == |ws.log| + 2 && Close(ws).log[|ws.log|].frame.typ == FRAME_INDEX
    ensures IndexComplete(Close(ws).log, |ws.log|) <==> Indexed(ws)
  {
    hide *;
    var e := Event(ws.off, Frame(FRAME_INDEX, 0, 0, IndexPayload(ws)), Nothing);
    var end := ClosingEvents(ws, e);
    if Indexed(ws) {
      CloseComplete(ws, e);
      CompleteInside(ws.log + [e], end, |ws.log|);
    }
    if IndexComplete(Close(ws).log, |ws.log|) {
      CompleteInside(ws.log + [e], end, |ws.log|);
      CompleteLists(ws, e);
    }
  }

  lemma ClosingEvents(ws: WState, e: Event) returns (end: Event)
    requires IndexSane(ws) && e == Event(ws.off, Frame(FRAME_INDEX, 0, 0, IndexPayload(ws)), Nothing)
    ensures Close(ws).log == ws.log + [e] + [end] && e.frame.typ == FRAME_INDEX
  {
    hide IndexPayload;
    hide IndexSane;
    var w1 := Emit(ws, FRAME_INDEX, 0, IndexPayload(ws), Nothing);
    end := Event(w1.off, Frame(FRAME_END, 0, 0, []), Nothing);
  }

  lemma CompleteInside(evs: seq<Event>, e: Event, i: nat)
    requires i < |evs|
    ensures IndexComplete(evs + [e], i) <==> IndexComplete(evs, i)
  {
    hide TakeIndex;
    hide EntriesOf;
    hide Matches;
    assert (evs + [e])[..i] == evs[..i];
  }

  lemma CompleteLists(ws: WState, e: Event)
    requires IndexSane(ws) && ws.off < Bytes.TWO64 && |IndexPayload(ws)| < TWO32
    requires forall u :: u in ws.order ==> |u| == 16
    requires e.frame.payload == IndexPayload(ws) && e.at == ws.off && IndexComplete(ws.log + [e], |ws.log|)
    ensures Indexed(ws)
  {
    IndexBack(ws);
    hide EntriesOf;
    hide IndexPayload;
    hide TakeIndex;
    hide Matches;
    var gs := GroupsOf(ws.order, ws.index, ws.off);
    GroupsListed(ws.order, ws.index, ws.off);
    hide GroupsOf;
    assert (ws.log + [e])[..|ws.log|] == ws.log;
    forall u ensures IndexAt(ws, u) == EntriesOf(ws.log, u) {
      if u in ws.index {
        assert u in ws.order;
        var g :| g in gs && g.uuid == u;
        assert Matches(g.entries, EntriesOf(ws.log, u), ws.off);
        BackwardsIs(ws.index[u], EntriesOf(ws.log, u), ws.off);
      }
    }
  }

  /** Distances back from one place tell where the batches are. */
  lemma {:induction false} BackwardsIs(es: seq<Entry>, fs: seq<Entry>, base: nat)
    requires base < Bytes.TWO64 && forall e :: e in es ==> e.offset <= base
    requires Matches(Backwards(es, base), fs, base)
    ensures es == fs
  {
    hide Backwards;
    BackwardsMatches(es, base);
    var bs := Backwards(es, base);
    forall m | 0 <= m < |es| ensures es[m] == fs[m] {
      assert es[m].offset + bs[m].back == base && fs[m].offset + bs[m].back == base;
    }
  }

  /** Whatever a program has recorded: if one more batch is written, or fails, and the file
      is closed, its last INDEX frame lists the batches before it exactly when that batch
      did not fail late. */
  lemma ClosedAfter(z: Zip, ops: seq<Op>, ws: WState, k: nat, base: u64, runID: u32, count: u32, records: bytes)
    requires Recorded(z, ops, ws) && ws.off < Bytes.TWO64 && k < |ws.streams|
    requires var w := WriteData(z, ws, k, base, runID, count, records).ws;
      IndexSane(w) ==> w.off < Bytes.TWO64 && |IndexPayload(w)| < TWO32
    ensures var w := WriteData(z, ws, k, base, runID, count, records).ws;
      IndexSane(w) && |w.log| < |Close(w).log| &&
      (IndexComplete(Close(w).log, |w.log|) <==> !FailsLate(Segment(ws), k, runID, count, records))
  {
    hide *;
    RecordedSound(z, ops, ws);
    RecordingIndexed(z, ops, ws);
    var w1 := Segment(ws);
    SegmentIndexed(z, ws, k, base, runID, count, records);
    StepSane(z, ws, OpWriteData(k, base, runID, count, records));
    StepIsData(z, ws, k, base, runID, count, records);
    IndexStays(z, w1, k, base, runID, count, records);
    var w := WriteData(z, ws, k, base, runID, count, records).ws;
    OrderLengths(z, w1, k, base, runID, count, records);
    ClosedComplete(w);
  }

  lemma SegmentIndexed(z: Zip, ws: WState, k: nat, base: u64, runID: u32, count: u32, records: bytes)
    requires Indexed(ws) && AllComplete(ws.log) && k < |ws.streams| && Sound(ws)
    ensures Indexed(Segment(ws)) && AllComplete(Segment(ws).log) && |Segment(ws).streams[k].uuid| == 16
    ensures WriteData(z, ws, k, base, runID, count, records) ==
      WriteBatch(z, Segment(ws), k, base, runID, count, records)
  {
    UuidLength(ws, k);
    DataUnfold(z, ws, k, base, runID, count, records);
    IndexedSegment(ws, 0);
    hide WriteBatch;
    hide WriteData;
    hide BeginSegment;
    hide Indexed;
    hide AllComplete;
    hide Sound;
  }

  lemma StepIsData(z: Zip, ws: WState, k: nat, base: u64, runID: u32, count: u32, records: bytes)
    requires IndexSane(ws) && k < |ws.streams|
    ensures Step(z, ws, OpWriteData(k, base, runID, count, records)) == WriteData(z, ws, k, base, runID, count, records)
  {
    hide WriteData;
    hide IndexSane;
  }

  lemma OrderLengths(z: Zip, ws: WState, k: nat, base: u64, runID: u32, count: u32, records: bytes)
    requires Indexed(ws) && k < |ws.streams| && |ws.streams[k].uuid| == 16
    ensures forall u :: u in WriteBatch(z, ws, k, base, runID, count, records).ws.order ==> |u| == 16
  {
    hide EntriesOf;
    hide TailsOf;
    hide DataPayload;
    hide FilterRecords;
    hide NoteRun;
    hide NoteEntry;
    hide RunAllowed;
    hide StepDeclared;
    BatchEntry(ws, ws.streams[k], base, runID, count);
  }

  lemma RecordedSound(z: Zip, ops: seq<Op>, ws: WState)
    requires Recorded(z, ops, ws)
    ensures Sound(ws) && IndexSane(ws)
  {
    hide IndexSane;
    hide Sound;
    hide RunFrom;
    hide AllOpsFit;
    var rs := LogReplays(z, ops, ws, FRESH);
  }

  // --- one such call ---------------------------------------------------------------------------------------

  const SETTING: seq<Op> :=
    [OpAddStream(CLOCK), OpAddStream(DIAL)] + [OpBeginSegment(0)] + [OpSetCodec(99)]

  ghost predicate Refuses(z: Zip, ws: WState, op: Op, e: Error, w: WState) {
    IndexSane(ws) && Step(z, ws, op) == Failed(e, w)
  }

  ghost predicate ClosesUntrue(w: WState) {
    IndexSane(w) && |w.log| < |Close(w).log| && !IndexComplete(Close(w).log, |w.log|)
  }

  lemma OffsetSmall(off: nat)
    ensures off <= 10000 ==> off < Bytes.TWO64
  {
  }

  lemma WatchIs()
    ensures FRESH.watch
  {
  }

  lemma SettingIs()
    ensures [OpAddStream(CLOCK), OpAddStream(DIAL)] + [OpBeginSegment(0)] + [OpSetCodec(99)] == SETTING
    ensures Tick(10) == OpWriteData(0, 10, 0, 1, [7])
  {
  }

  lemma CodecStep(z: Zip, ws: WState)
    requires IndexSane(ws)
    ensures Step(z, ws, OpSetCodec(99)) == Done(ws.(codec := 99)) && OpFits(ws, OpSetCodec(99))
  {
    hide IndexSane;
  }

  lemma TickRefused(z: Zip, was: WState, ws: WState)
    requires Fresh(was) && ws == was.(codec := 99)
    ensures |ws.streams| == 2 && FailsLate(Segment(ws), 0, 0, 1, [7])
    ensures WriteData(z, ws, 0, 10, 0, 1, [7]) == Failed(UnknownCodec, BatchState(ws, CLOCK, 10, 0, 1))
  {
    hide NoteEntry;
    hide NoteRun;
    hide TailsOf;
    hide DataPayload;
    hide BeginSegment;
    assert StepDeclared(ws, CLOCK) && RunAllowed(ws, CLOCK_UUID, 0);
  }

  lemma PayloadSmall(ws: WState)
    requires ws.index == map[] && ws.order == []
    ensures var w := BatchState(ws, CLOCK, 10, 0, 1);
      w.off == ws.off && (IndexSane(w) ==> |IndexPayload(w)| < TWO32)
  {
    hide IndexSane;
    hide PutGroups;
    var w := BatchState(ws, CLOCK, 10, 0, 1);
    OneEntry(ws);
    if IndexSane(w) { OneGroup(CLOCK_UUID, w.index, Entry(ws.off, 10, 1, 0), w.off); }
  }

  lemma OneEntry(ws: WState)
    requires ws.index == map[] && ws.order == []
    ensures var w := BatchState(ws, CLOCK, 10, 0, 1);
      w.order == [CLOCK_UUID] && w.index == map[CLOCK_UUID := [Entry(ws.off, 10, 1, 0)]] && w.off == ws.off
  {
    var w := NoteRun(ws, CLOCK_UUID, 0);
    assert w.index == ws.index && w.order == ws.order && w.off == ws.off;
    hide NoteRun;
    assert CLOCK.uuid == CLOCK_UUID;
    hide CLOCK;
    hide CLOCK_UUID;
    assert CLOCK_UUID !in w.index;
  }

  lemma OneGroup(u: bytes, index: map<bytes, seq<Entry>>, e: Entry, base: nat)
    requires |u| == 16 && index == map[u := [e]] && e.offset <= base
    ensures |PutGroups([u], index, base)| == 44
  {
    var tail := PutGroups([], index, base);
    assert [u][1..] == [] && [e][1..] == [];
    assert PutEntries([e], base, tail) == PutEntry(e, base, PutEntries([], base, tail));
  }

  /** A codec the writer does not know: the record is refused, and the closing INDEX frame
      lists it all the same. */
  lemma UnknownCodecNoted(z: Zip) returns (ws: WState, w: WState)
    requires Inverse(z)
    ensures Recorded(z, SETTING, ws) && Refuses(z, ws, Tick(10), UnknownCodec, w) && ClosesUntrue(w)
  {
    hide *;
    ws := Set(z);
    w := BatchState(ws, CLOCK, 10, 0, 1);
    SettingIs();
    RecordedSound(z, SETTING, ws);
    StepIsData(z, ws, 0, 10, 0, 1, [7]);
    PayloadSmall(ws);
    ClosedAfter(z, SETTING, ws, 0, 10, 0, 1, [7]);
    Told(z, ws, w);
  }

  lemma Told(z: Zip, ws: WState, w: WState)
    requires IndexSane(ws) && Step(z, ws, Tick(10)) == Failed(UnknownCodec, w)
    requires IndexSane(w) && |w.log| < |Close(w).log| && !IndexComplete(Close(w).log, |w.log|)
    ensures Refuses(z, ws, Tick(10), UnknownCodec, w) && ClosesUntrue(w)
  {
    hide IndexSane;
    hide Step;
    hide Close;
    hide IndexComplete;
    hide Tick;
  }

  lemma Set(z: Zip) returns (ws: WState)
    requires Inverse(z)
    ensures Recorded(z, SETTING, ws) && ws.off < Bytes.TWO64 && ws.index == map[] && ws.order == []
    ensures |ws.streams| == 2 && FailsLate(Segment(ws), 0, 0, 1, [7])
    ensures WriteData(z, ws, 0, 10, 0, 1, [7]) == Failed(UnknownCodec, BatchState(ws, CLOCK, 10, 0, 1))
  {
    hide *;
    var pre := [OpAddStream(CLOCK), OpAddStream(DIAL)];
    var w0 := Added(z);
    var w1, s, b0, b1, hs := SegmentReached(z, pre, w0);
    NothingRestated(hs);
    SegmentSettings(w0, 0);
    ReachedSmall(z, pre + [OpBeginSegment(0)], w1);
    ReachedSane(z, pre + [OpBeginSegment(0)], w1);
    CodecStep(z, w1);
    ws := w1.(codec := 99);
    ReachedMore(z, pre + [OpBeginSegment(0)], w1, OpSetCodec(99), ws);
    SettingIs();
    ReachedRecorded(z, SETTING, ws);
    WatchIs();
    OffsetSmall(ws.off);
    var rs := LogReplays(z, SETTING, ws, FRESH);
    TickRefused(z, w1, ws);
  }
}
