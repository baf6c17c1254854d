/** A writer that builds the index of its file as it writes it. */
module Recorder {
  import opened Bytes
  import opened Format
  import opened Frames
  import opened Records
  import opened Reading
  import opened Writing
  import opened Recording
  import opened Runs
  import opened Playing
  import Guarantees
  import opened Stats
  import I = Indexing
  import A = Alike
  import S = Scanning
  import W = Writer

  /** What the recorder has been shown of a frame: what a scan makes of it, but for
      how a schema is spelled, whose run it is, and tails, which it does not have. */
  ghost predicate ShownAs(r: Event, l: Event) {
    r.at == l.at && r.frame == l.frame && Paired(r) &&
    match l.out
    case Nothing => r.out == Nothing
    case Bound(s, id) => r.out.Bound? && r.out.id == id && Norm(r.out.schema) == s
    case HeldValues(x) => r.out.HeldValues? && Norm(r.out.held.schema) == x.schema && r.out.held.(schema := x.schema) == x
    case Records(b, _) =>
      r.out.Records? && Norm(r.out.batch.schema) == b.schema && r.out.batch.tails == [] &&
      r.out.batch.(schema := b.schema, tails := b.tails) == b
  }

  ghost predicate AllShown(rs: seq<Event>, ls: seq<Event>) {
    |rs| == |ls| && forall i :: 0 <= i < |rs| ==> ShownAs(rs[i], ls[i])
  }

  lemma ShownMore(rs: seq<Event>, ls: seq<Event>, more: seq<Event>, moreL: seq<Event>)
    requires AllShown(rs, ls) && AllShown(more, moreL)
    ensures AllShown(rs + more, ls + moreL)
  {
    hide ShownAs;
  }

  /** What a hook heard of any frame but a DATA frame is what a scan makes of it. */
  lemma HeardIsShown(h: Event, l: Event)
    requires W.EchoOf(h, l, false) && !l.out.Records?
    ensures ShownAs(h, l)
  {
    hide Norm;
  }

  lemma NormAgain(s: Schema)
    ensures Norm(Norm(s)) == Norm(s)
  {
    A.NormTwice(s.fields);
    hide NormFields;
  }

  /** No record of the log has a tail. */
  ghost predicate Tailless(log: seq<Event>) {
    forall i :: 0 <= i < |log| && log[i].out.Records? ==> log[i].out.batch.tails == []
  }

  lemma ShownIsPlain(r: Event, l: Event)
    requires ShownAs(r, l) && (l.out.Records? ==> l.out.batch.tails == [])
    ensures A.PlainEvent(r) == A.PlainEvent(l)
  {
    match l.out {
      case Nothing =>
      case Bound(s, _) => NormAgain(r.out.schema);
      case HeldValues(x) => NormAgain(r.out.held.schema);
      case Records(b, _) => NormAgain(r.out.batch.schema);
    }
    hide Norm;
  }

  /** What the recorder was shown has the index the log has. */
  lemma ShownIndex(m: Meter, rs: seq<Event>, ls: seq<Event>, tr: bool)
    requires AllShown(rs, ls) && Tailless(ls)
    ensures I.IndexOf(m, rs, tr) == I.IndexOf(m, ls, tr)
  {
    forall i | 0 <= i < |rs| ensures A.PlainEvent(rs[i]) == A.PlainEvent(ls[i]) { ShownIsPlain(rs[i], ls[i]); }
    hide A.PlainEvent;
    hide ShownAs;
    assert A.PlainAll(rs) == A.PlainAll(ls);
    A.IndexAlike(m, rs, tr);
    A.IndexAlike(m, ls, tr);
    hide I.IndexOf;
  }

  /** A stream's schema has a field whose bytes are in the tail. */
  predicate HasTail(s: Schema) { exists i :: 0 <= i < |s.fields| && s.fields[i].variable }

  ghost predicate NoRecords(evs: seq<Event>) { forall i :: 0 <= i < |evs| ==> !evs[i].out.Records? }

  lemma QuietNoRecords(evs: seq<Event>)
    requires AllQuiet(evs)
    ensures NoRecords(evs)
  {
    forall i | 0 <= i < |evs| ensures !evs[i].out.Records? { assert evs[i] in evs; }
  }

  lemma SegmentAddsNone(ws: WState, wall: u64) returns (more: seq<Event>)
    ensures BeginSegment(ws, wall).log == ws.log + more && NoRecords(more)
  {
    hide BeginSegment;
    var sync, add := SegmentAdds(ws, wall);
    QuietNoRecords(add);
    more := [sync] + add;
    W.Assoc2(ws.log, [sync], add);
  }

  lemma DataAdds(z: Zip, ws: WState, k: nat, base: u64, runID: u32, count: u32, records: bytes)
    returns (more: seq<Event>, last: Event)
    requires k < |ws.streams| && WriteData(z, ws, k, base, runID, count, records).Done?
    ensures WriteData(z, ws, k, base, runID, count, records).ws.log == ws.log + (more + [last]) && NoRecords(more)
    ensures last.frame.typ == FRAME_DATA && last.out.Records?
    ensures exists runs :: last.out == Batched(ws.streams[k], base, runID, count, records, runs)
    ensures WriteData(z, ws, k, base, runID, count, records).ws.streams == ws.streams
  {
    hide *;
    DataUnfold(z, ws, k, base, runID, count, records);
    var w0 := if ws.inSeg then ws else BeginSegment(ws, 0);
    if ws.inSeg {
      more := [];
      assert ws.log + [] == ws.log;
      NothingRecorded();
    } else {
      more := SegmentAddsNone(ws, 0);
    }
    BatchEmits(z, w0, k, base, runID, count, records);
    var s := ws.streams[k];
    var out := Batched(s, base, runID, count, records, w0.segRuns);
    var payload := DataFrame(z, s, base, runID, count, w0.codec, w0.filter, records);
    last := EmitAdds(BatchState(w0, s, base, runID, count), FRAME_DATA, Id(k), payload, out);
    W.BatchedIsRecords(s, base, runID, count, records, w0.segRuns);
    W.Assoc2(ws.log, more, [last]);
  }

  lemma NothingRecorded()
    ensures NoRecords([])
  {
  }

  lemma EmitAdds(ws: WState, typ: byte, id: u16, payload: bytes, out: Outcome) returns (e: Event)
    ensures Emit(ws, typ, id, payload, out).log == ws.log + [e] && e.frame.typ == typ && e.out == out
  {
    e := Event(ws.off, Frame(typ, 0, id, payload), out);
  }

  /** Only WriteData adds records, and they come last. */
  lemma StepAdds(z: Zip, ws: WState, op: Op) returns (more: seq<Event>)
    requires IndexSane(ws) && Step(z, ws, op).Done? && !op.OpWriteData?
    ensures Step(z, ws, op).ws.log == ws.log + more && NoRecords(more)
  {
    hide BeginSegment;
    hide WriteData;
    hide PutSchema;
    hide PutRun;
    hide Norm;
    hide IndexPayload;
    hide MetaPayload;
    hide AttachPayload;
    hide ValidSchema;
    hide IndexSane;
    var w := Step(z, ws, op).ws;
    if op.OpBeginSegment? {
      more := SegmentAddsNone(ws, op.wall);
    } else {
      more := w.log[|ws.log|..];
    }
  }

  class Recorder {
    const w: W.Writer
    const sc: S.Scanner
    /** Set once a stream is declared that cannot be summarised as it is written. */
    var failed: bool

    ghost predicate Valid()
      reads this, w, w.streams, sc, sc.idx
    {
      w.Valid() && w.hooked && sc.Valid() && sc.idx.bias == 0 && !w.muffled && AllShown(sc.seen, w.log)
    }

    constructor (z: Zip, m: Meter)
      ensures Valid() && w.View() == START && sc.seen == [] && sc.m == m && w.z == z && !failed
      ensures fresh(w) && fresh(sc) && fresh(sc.idx) && w.streams == []
    {
      w := new W.Writer(z, true);
      sc := new S.Scanner(m, 0);
      failed := false;
    }

    /** Takes in one frame; a stream seen for the first time with a tail is refused. */
    method TakeOne(e: Event, ghost l: Event)
      requires sc.Valid() && sc.idx.bias == 0 && ShownAs(e, l)
      modifies sc, sc.idx, this`failed
      ensures sc.Valid() && sc.seen == old(sc.seen) + [e]
    {
      ShownPaired(e, l);
      hide *;
      if e.out.Bound? && e.out.schema.uuid !in sc.streams && HasTail(e.out.schema) { failed := true; }
      sc.Take(e);
    }

    /** Takes in what the hooks heard of one call, frame by frame. The records of a
        WriteData are paired with its DATA frame, which is the last. */
    method TakeIn(hs: seq<Event>, batch: Option<Batch>, ghost ls: seq<Event>)
      requires sc.Valid() && sc.idx.bias == 0 && W.Echoes(hs, ls, false) && |hs| == |ls|
      requires batch == None ==> NoRecords(ls)
      requires batch.Some? ==> ls != [] && NoRecords(ls[..|ls| - 1]) && Tells(batch.value, ls[|ls| - 1])
      modifies sc, sc.idx, this`failed
      ensures sc.Valid() && old(sc.seen) <= sc.seen && AllShown(sc.seen[|old(sc.seen)|..], ls)
    {
      ghost var was := sc.seen;
      ghost var shown: seq<Event> := [];
      assert was + shown == was;
      for i := 0 to |hs|
        invariant sc.Valid() && sc.seen == was + shown
        invariant |shown| == i && AllShown(shown, ls[..i])
      {
        hide *;
        var e := hs[i];
        if i == |hs| - 1 && batch.Some? { e := e.(out := Reading.Records(batch.value, None)); }
        ShownAt(hs, ls, batch, i);
        TakeOne(e, ls[i]);
        ShownOne(shown, ls, i, e);
        W.Assoc2(was, shown, [e]);
        shown := shown + [e];
      }
      assert ls[..|ls|] == ls;
    }

    /** One call: made on the writer, and what it wrote taken in. */
    method Call(op: Op) returns (ok: bool)
      requires Valid() && OpFits(w.View(), op)
      modifies this`failed, w, w.streams, sc, sc.idx
      ensures fresh(set d | d in w.streams && d !in old(w.streams))
      ensures IndexSane(old(w.View()))
      ensures ok ==> Valid() && Step(w.z, old(w.View()), op) == Done(w.View())
      ensures !ok ==> Step(w.z, old(w.View()), op).Failed? || W.Ragged(old(w.View()))
    {
      hide *;
      ghost var v := w.View();
      ghost var seen := sc.seen;
      ValidParts();
      w.ViewSane();
      w.Heard();
      var n := |w.heard|;
      var batch := None;
      if op.OpWriteData? && op.k < |w.streams| {
        batch := Some(Batch(w.streams[op.k].schema, op.runID, op.base, op.count, op.records, []));
        w.ViewSettings(op.k);
      }
      w.ViewSegment(0);
      ok := Perform(w, op);
      if !ok { return; }
      w.Heard();
      ghost var more := CallAdds(w.z, v, op, batch);
      Suffixes(w.heard, w.log, n, v.log, more);
      TakeIn(w.heard[n..], batch, more);
      ShownMore(seen, v.log, sc.seen[|seen|..], more);
      assert seen + sc.seen[|seen|..] == sc.seen;
      ValidMake();
    }

    /** The index of everything written so far. It may be asked for at any time, and
        as often as one likes. */
    method File() returns (f: I.File)
      requires Valid()
      modifies sc`streams
      ensures Valid() && w.View() == old(w.View())
      ensures Tailless(w.log) ==> f == I.IndexOf(sc.m, w.log, false).(closed := false)
    {
      hide *;
      ValidParts();
      f := sc.Snapshot();
      if Tailless(w.log) { ShownIndex(sc.m, sc.seen, w.log, false); }
      ValidMake();
    }

    lemma ValidParts()
      requires Valid()
      ensures w.Valid() && w.hooked && sc.Valid() && sc.idx.bias == 0 && !w.muffled && AllShown(sc.seen, w.log)
    {
    }

    lemma ValidMake()
      requires w.Valid() && w.hooked && sc.Valid() && sc.idx.bias == 0 && !w.muffled && AllShown(sc.seen, w.log)
      ensures Valid()
    {
    }
  }

  /** What a call adds to the log, and the batch it is to be paired with. */
  lemma CallAdds(z: Zip, ws: WState, op: Op, batch: Option<Batch>) returns (more: seq<Event>)
    requires IndexSane(ws) && Step(z, ws, op).Done?
    requires batch == if op.OpWriteData? && op.k < |ws.streams| then
      Some(Batch(ws.streams[op.k], op.runID, op.base, op.count, op.records, [])) else None
    ensures Step(z, ws, op).ws.log == ws.log + more
    ensures batch == None ==> NoRecords(more)
    ensures batch.Some? ==> more != [] && NoRecords(more[..|more| - 1]) && Tells(batch.value, more[|more| - 1])
  {
    hide NoRecords;
    hide Tells;
    hide WriteData;
    hide IndexSane;
    if op.OpWriteData? {
      DataIsStep(z, ws, op);
      var add, last := DataAdds(z, ws, op.k, op.base, op.runID, op.count, op.records);
      more := add + [last];
      assert more[..|more| - 1] == add;
      var runs :| last.out == Batched(ws.streams[op.k], op.base, op.runID, op.count, op.records, runs);
      BatchedTold(ws.streams[op.k], op.base, op.runID, op.count, op.records, runs, last);
    } else {
      more := StepAdds(z, ws, op);
    }
    hide Step;
  }

  lemma DataIsStep(z: Zip, ws: WState, op: Op)
    requires IndexSane(ws) && op.OpWriteData? && Step(z, ws, op).Done?
    ensures op.k < |ws.streams| && Step(z, ws, op) == WriteData(z, ws, op.k, op.base, op.runID, op.count, op.records)
  {
    hide WriteData;
    hide IndexSane;
  }

  lemma BatchedTold(s: Schema, base: u64, runID: u32, count: u32, records: bytes, runs: map<u32, Run>, l: Event)
    requires l.out == Batched(s, base, runID, count, records, runs) && l.frame.typ == FRAME_DATA
    ensures Tells(Batch(s, runID, base, count, records, []), l)
  {
    hide Norm;
    hide TailsOf;
  }

  lemma Suffixes(heard: seq<Event>, log: seq<Event>, n: nat, was: seq<Event>, more: seq<Event>)
    requires W.Echoes(heard, log, false) && log == was + more && n == |was|
    ensures W.Echoes(heard[n..], more, false) && |heard[n..]| == |more|
  {
    hide W.EchoOf;
    forall i | 0 <= i < |more| ensures W.EchoOf(heard[n..][i], more[i], false) {
      assert log[n + i] == more[i] && heard[n..][i] == heard[n + i];
    }
  }

  lemma ShownOne(shown: seq<Event>, ls: seq<Event>, i: nat, e: Event)
    requires i < |ls| && AllShown(shown, ls[..i]) && ShownAs(e, ls[i])
    ensures AllShown(shown + [e], ls[..i + 1])
  {
    hide ShownAs;
    assert ls[..i + 1] == ls[..i] + [ls[i]];
  }

  lemma ShownAt(hs: seq<Event>, ls: seq<Event>, batch: Option<Batch>, i: nat)
    requires W.Echoes(hs, ls, false) && |hs| == |ls| && i < |hs|
    requires batch == None ==> NoRecords(ls)
    requires batch.Some? ==> ls != [] && NoRecords(ls[..|ls| - 1]) && Tells(batch.value, ls[|ls| - 1])
    ensures var e := hs[i];
      ShownAs(if i == |hs| - 1 && batch.Some? then e.(out := Reading.Records(batch.value, None)) else e, ls[i])
  {
    hide W.EchoOf;
    hide Tells;
    if i == |hs| - 1 && batch.Some? {
      PairedUp(hs[i], ls[i], batch.value);
    } else {
      if batch.Some? { assert ls[..|ls| - 1][i] == ls[i]; }
      HeardIsShown(hs[i], ls[i]);
    }
    hide ShownAs;
  }

  /** A batch without tails, as the caller spelled its schema. */
  ghost predicate Tells(b: Batch, l: Event) {
    l.frame.typ == FRAME_DATA && l.out.Records? && Norm(b.schema) == l.out.batch.schema && b.tails == [] &&
    b.(schema := l.out.batch.schema, tails := l.out.batch.tails) == l.out.batch
  }

  lemma PairedUp(h: Event, l: Event, b: Batch)
    requires W.EchoOf(h, l, false) && Tells(b, l)
    ensures ShownAs(h.(out := Reading.Records(b, None)), l)
  {
    hide Norm;
  }

  lemma ShownPaired(r: Event, l: Event)
    requires ShownAs(r, l)
    ensures Paired(r) && r.(at := r.at + 0) == r && AllShown([r], [l])
  {
    hide Norm;
  }

  // --- whole recordings --------------------------------------------------------------------------------

  /** No stream of the program has a field in the tail. */
  ghost predicate NoTails(ops: seq<Op>) {
    forall i :: 0 <= i < |ops| && ops[i].OpAddStream? ==> !HasTail(ops[i].s)
  }

  lemma {:induction false} NoVariables(fs: seq<Field>)
    requires forall i :: 0 <= i < |fs| ==> !fs[i].variable
    ensures Variables(NormFields(fs)) == 0
  {
    NormVariables(fs);
    if fs != [] { NoVariables(fs[1..]); NormVariables(fs[1..]); }
  }

  lemma {:induction false} WrittenTailless(streams: seq<Schema>, ops: seq<Op>)
    requires NoTails(ops) && forall k :: 0 <= k < |streams| ==> !HasTail(streams[k])
    ensures forall b :: b in Written(streams, ops) ==> b.tails == []
    decreases |ops|
  {
    if ops != [] {
      var after := StreamsAfter(streams, ops[0]);
      forall k | 0 <= k < |after| ensures !HasTail(after[k]) { }
      assert NoTails(ops[1..]);
      WrittenTailless(after, ops[1..]);
      var op := ops[0];
      if op.OpWriteData? && op.k < |streams| { NoVariables(streams[op.k].fields); }
      hide TakeTails;
    }
  }

  lemma {:induction false} LogBatch(evs: seq<Event>, i: nat)
    requires i < |evs| && evs[i].out.Records?
    ensures evs[i].out.batch in BatchesOf(evs)
    decreases |evs|
  {
    if i > 0 { LogBatch(evs[1..], i - 1); }
  }

  lemma RecordedTailless(z: Zip, ops: seq<Op>, ws: WState)
    requires Recorded(z, ops, ws) && NoTails(ops)
    ensures Tailless(ws.log)
  {
    hide *;
    Guarantees.RoundTrip(z, ops, ws);
    WrittenTailless([], ops);
    forall i | 0 <= i < |ws.log| && ws.log[i].out.Records? ensures ws.log[i].out.batch.tails == [] { LogBatch(ws.log, i); }
    TaillessMake(ws.log);
  }

  lemma TaillessMake(log: seq<Event>)
    requires forall i :: 0 <= i < |log| && log[i].out.Records? ==> log[i].out.batch.tails == []
    ensures Tailless(log)
  {
  }

  /** The index a scan builds of a recording is the index of its log. */
  lemma ScanIndexes(z: Zip, m: Meter, ops: seq<Op>, ws: WState)
    requires Recorded(z, ops, ws)
    ensures I.IndexFile(z, m, FileOf(ws)) == Some(I.IndexOf(m, ws.log, false))
  {
    Guarantees.RoundTrip(z, ops, ws);
    hide ScanFile;
    hide Recorded;
    hide I.IndexOf;
  }

  /** Writes a program through a recorder, asking for the index wherever `peeks` says
      so. The index it ends with is the one a scan of the file builds; only whether
      the file was closed is not the recorder's to say. */
  method RecordIndexed(z: Zip, m: Meter, ops: seq<Op>, peeks: set<nat>) returns (file: bytes, f: I.File)
    requires AllOpsFit(z, START, ops) && Inverse(z) && NoTails(ops)
    requires RunFrom(z, START, ops).Done? && AllFit(FramesOf(RunFrom(z, START, ops).ws.log))
    ensures file == FileOf(RunFrom(z, START, ops).ws)
    ensures I.IndexFile(z, m, file).Some? && f == I.IndexFile(z, m, file).value.(closed := false)
  {
    hide *;
    StartSane();
    StartSimulates();
    var r := new Recorder(z, m);
    IsRecorded(z, ops);
    ghost var ws := RunFrom(z, START, ops).ws;
    ScanIndexes(z, m, ops, ws);
    RecordedTailless(z, ops, ws);
    assert ops[0..] == ops;
    ghost var rs := FRESH;
    for i := 0 to |ops|
      invariant r.Valid() && r.w.z == z && r.sc.m == m && fresh(r) && fresh(r.w) && fresh(r.sc) && fresh(r.sc.idx)
      invariant fresh(set d | d in r.w.streams) && IndexSane(r.w.View()) && IndexSane(START)
      invariant Sound(r.w.View()) && Simulates(r.w.View(), rs)
      invariant RunFrom(z, r.w.View(), ops[i..]) == RunFrom(z, START, ops) && AllOpsFit(z, r.w.View(), ops[i..])
    {
      RunUnfold(z, r.w.View(), ops[i..]);
      assert ops[i..][0] == ops[i] && ops[i..][1..] == ops[i + 1..];
      W.SoundNotRagged(r.w.View());
      RunDone(z, r.w.View(), ops[i..]);
      rs := Simulated(z, r.w.View(), rs, ops[i]);
      var ok := r.Call(ops[i]);
      if i in peeks { var _ := r.File(); }
      r.ValidParts();
      r.w.ViewSane();
    }
    assert ops[|ops|..] == [];
    RunNothing(z, r.w.View());
    f := r.File();
    r.ValidParts();
    r.w.SinkIsFile();
    r.w.Heard();
    file := r.w.sink;
  }

  ghost predicate Simulates(ws: WState, rs: RState) { |ws.streams| <= TWO16 && Sim(ws, rs) }

  lemma StartSimulates()
    ensures Sound(START) && Simulates(START, FRESH)
  {
  }

  lemma Simulated(z: Zip, ws: WState, rs: RState, op: Op) returns (rs': RState)
    requires Inverse(z) && Sound(ws) && Simulates(ws, rs) && IndexSane(ws) && OpFits(ws, op) && Step(z, ws, op).Done?
    ensures Sound(Step(z, ws, op).ws) && Simulates(Step(z, ws, op).ws, rs')
  {
    rs' := StepFollows(z, ws, rs, op);
    hide Step;
    hide Sim;
  }

  lemma RunDone(z: Zip, ws: WState, ops: seq<Op>)
    requires IndexSane(ws) && ops != [] && RunFrom(z, ws, ops).Done?
    ensures Step(z, ws, ops[0]).Done?
  {
    hide Step;
    hide IndexSane;
  }
}
