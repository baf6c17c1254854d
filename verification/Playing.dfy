/** Whole programs: calls made on a writer, and what a scan of its file returns. */
module Playing {
  import opened Bytes
  import opened Wire
  import opened Format
  import opened Frames
  import opened Records
  import opened Reading
  import opened Writing
  import opened Recording
  import opened Runs
  import opened Guarantees
  import W = Writer
  import Rd = Reader

  predicate OnStream(op: Op) {
    op.OpSetStep? || op.OpSetHold? || op.OpClearHold? || op.OpWriteData?
  }

  /** A call about a stream, which the writer must know. */
  method PerformOn(w: W.Writer, op: Op) returns (ok: bool)
    requires w.Valid() && OnStream(op)
    modifies w, w.streams
    ensures w.Valid() && w.hooked == old(w.hooked) && w.streams == old(w.streams) && old(w.heard) <= w.heard
    ensures IndexSane(old(w.View())) && (ok ==> Step(w.z, old(w.View()), op) == Done(w.View()) && w.muffled == old(w.muffled))
    ensures !ok && !(w.hooked && W.Ragged(old(w.View()))) ==>
      Step(w.z, old(w.View()), op).Failed? && Step(w.z, old(w.View()), op).ws == w.View()
  {
    hide W.Sunk;
    hide W.Tagged;
    hide IndexSane;
    hide W.Matched;
    hide W.OneLayout;
    hide Writing.WriteData;
    hide Writing.SetHold;
    match op {
      case OpSetStep(k, step) =>
        ok := k < |w.streams|;
        if ok { W.Restep(w, w.streams[k], k, step); }
      case OpSetHold(k, h) =>
        ok := k < |w.streams|;
        if ok {
          var e := w.SetHold(w.streams[k], h, k);
          ok := e == None;
        }
      case OpClearHold(k) =>
        ok := k < |w.streams|;
        if ok { w.ClearHold(w.streams[k], k); }
      case OpWriteData(k, base, runID, count, records) =>
        ok := k < |w.streams|;
        if ok {
          var e := w.WriteData(w.streams[k], base, runID, count, records, k);
          ok := e == None;
        }
    }
  }

  predicate Declares(op: Op) {
    op.OpAddStream? || op.OpAddRun? || op.OpEndRun? || op.OpBeginSegment?
  }

  method PerformAdd(w: W.Writer, s: Schema) returns (ok: bool)
    requires w.Valid() && OpFits(w.View(), OpAddStream(s))
    modifies w
    ensures w.Valid() && w.hooked == old(w.hooked) && fresh(set d | d in w.streams && d !in old(w.streams))
    ensures old(w.heard) <= w.heard && w.muffled == old(w.muffled)
    ensures match Writing.AddStream(old(w.View()), s)
      case Done(ws) => ok && w.View() == ws
      case Failed(_, ws) => !ok && w.View() == ws
  {
    hide W.Sunk;
    hide W.Tagged;
    hide IndexSane;
    hide W.Matched;
    hide W.OneLayout;
    hide Writing.AddStream;
    var d := new W.Declaration(s);
    var e := w.AddStream(d);
    ok := e == None;
  }

  /** A call that changes what a segment restates, or opens one. */
  method PerformDeclaring(w: W.Writer, op: Op) returns (ok: bool)
    requires w.Valid() && OpFits(w.View(), op) && Declares(op)
    modifies w
    ensures w.Valid() && w.hooked == old(w.hooked) && fresh(set d | d in w.streams && d !in old(w.streams))
    ensures old(w.heard) <= w.heard
    ensures IndexSane(old(w.View())) && (ok ==> Step(w.z, old(w.View()), op) == Done(w.View()) && w.muffled == old(w.muffled))
    ensures !ok && !(w.hooked && W.Ragged(old(w.View()))) ==>
      Step(w.z, old(w.View()), op).Failed? && Step(w.z, old(w.View()), op).ws == w.View()
  {
    hide W.Sunk;
    hide W.Tagged;
    hide IndexSane;
    hide W.Matched;
    hide W.OneLayout;
    hide Writing.BeginSegment;
    hide Writing.AddStream;
    hide Writing.AddRun;
    hide Writing.Close;
    hide MetaPayload;
    hide AttachPayload;
    hide Emit;
    ok := true;
    match op {
      case OpAddStream(s) => ok := PerformAdd(w, s);
      case OpAddRun(r) => w.AddRun(r);
      case OpEndRun(id) => w.EndRun(id);
      case OpBeginSegment(wall) => ok := w.BeginSegment(wall);
    }
  }

  /** Any other call. */
  method PerformOther(w: W.Writer, op: Op) returns (ok: bool)
    requires w.Valid() && OpFits(w.View(), op) && !OnStream(op) && !Declares(op)
    modifies w
    ensures w.Valid() && w.hooked == old(w.hooked) && fresh(set d | d in w.streams && d !in old(w.streams))
    ensures old(w.heard) <= w.heard
    ensures IndexSane(old(w.View())) && (ok ==> Step(w.z, old(w.View()), op) == Done(w.View()) && w.muffled == old(w.muffled))
    ensures !ok && !(w.hooked && W.Ragged(old(w.View()))) ==>
      Step(w.z, old(w.View()), op).Failed? && Step(w.z, old(w.View()), op).ws == w.View()
  {
    hide W.Sunk;
    hide W.Tagged;
    hide IndexSane;
    hide W.Matched;
    hide W.OneLayout;
    hide Writing.BeginSegment;
    hide Writing.AddStream;
    hide Writing.AddRun;
    hide Writing.Close;
    hide MetaPayload;
    hide AttachPayload;
    hide Emit;
    ok := true;
    match op {
      case OpWriteMeta(m) => w.WriteMeta(m);
      case OpWriteAttach(m) => w.WriteAttach(m);
      case OpSetCodec(c) => w.SetCodec(c);
      case OpSetFilter(f) => w.SetFilter(f);
      case OpClose => w.Close();
    }
  }

  /** One call, made on the writer. */
  method Perform(w: W.Writer, op: Op) returns (ok: bool)
    requires w.Valid() && OpFits(w.View(), op)
    modifies w, w.streams
    ensures w.Valid() && w.hooked == old(w.hooked) && fresh(set d | d in w.streams && d !in old(w.streams))
    ensures old(w.heard) <= w.heard
    ensures IndexSane(old(w.View())) && (ok ==> Step(w.z, old(w.View()), op) == Done(w.View()) && w.muffled == old(w.muffled))
    ensures !ok && !(w.hooked && W.Ragged(old(w.View()))) ==>
      Step(w.z, old(w.View()), op).Failed? && Step(w.z, old(w.View()), op).ws == w.View()
  {
    hide *;
    if OnStream(op) {
      ok := PerformOn(w, op);
    } else if Declares(op) {
      ok := PerformDeclaring(w, op);
    } else {
      ok := PerformOther(w, op);
    }
  }

  lemma StartSane()
    ensures IndexSane(START)
  {
  }

  /** Runs a program on a fresh writer until a call fails. What the writer has
      written is the file of the state the calls lead to. */
  method Play(z: Zip, ops: seq<Op>) returns (file: bytes, done: bool)
    requires AllOpsFit(z, START, ops)
    ensures done == RunFrom(z, START, ops).Done?
    ensures file == FileOf(RunFrom(z, START, ops).ws)
  {
    hide *;
    StartSane();
    var w := new W.Writer(z, false);
    assert ops[0..] == ops;
    var i := 0;
    done := true;
    while i < |ops| && done
      invariant i <= |ops| && w.Valid() && !w.hooked && w.z == z && fresh(w) && fresh(set d | d in w.streams)
      invariant IndexSane(w.View()) && IndexSane(START)
      invariant done ==> RunFrom(z, w.View(), ops[i..]) == RunFrom(z, START, ops) && AllOpsFit(z, w.View(), ops[i..])
      invariant !done ==> RunFrom(z, START, ops).Failed? && RunFrom(z, START, ops).ws == w.View()
      decreases |ops| - i
    {
      RunUnfold(z, w.View(), ops[i..]);
      assert ops[i..][0] == ops[i] && ops[i..][1..] == ops[i + 1..];
      done := Perform(w, ops[i]);
      w.ViewSane();
      i := i + 1;
    }
    if done {
      assert ops[i..] == [];
      RunNothing(z, w.View());
    }
    w.SinkIsFile();
    file := w.sink;
  }

  lemma RunUnfold(z: Zip, ws: WState, ops: seq<Op>)
    requires IndexSane(ws) && ops != [] && AllOpsFit(z, ws, ops)
    ensures OpFits(ws, ops[0]) && IndexSane(Step(z, ws, ops[0]).ws)
    ensures var r := Step(z, ws, ops[0]);
      if r.Failed? then RunFrom(z, ws, ops) == r
      else RunFrom(z, ws, ops) == RunFrom(z, r.ws, ops[1..]) && AllOpsFit(z, r.ws, ops[1..])
  {
    StepSane(z, ws, ops[0]);
    hide Step;
    hide OpFits;
    hide IndexSane;
  }

  lemma RunNothing(z: Zip, ws: WState)
    requires IndexSane(ws)
    ensures RunFrom(z, ws, []) == Done(ws)
  {
  }

  /** What a program writes is what a scan of its file returns: the batches handed
      over, in call order. */
  method RecordAndScan(z: Zip, ops: seq<Op>) returns (file: bytes, got: seq<Batch>)
    requires Inverse(z) && AllOpsFit(z, START, ops)
    requires RunFrom(z, START, ops).Done? && AllFit(FramesOf(RunFrom(z, START, ops).ws.log))
    ensures got == Written([], ops)
  {
    hide *;
    StartSane();
    var done;
    file, done := Play(z, ops);
    IsRecorded(z, ops);
    RoundTrip(z, ops, RunFrom(z, START, ops).ws);
    var r := Rd.ReadAll(z, file);
    got := r.value.0;
  }

  lemma IsRecorded(z: Zip, ops: seq<Op>)
    requires Inverse(z) && AllOpsFit(z, START, ops)
    requires RunFrom(z, START, ops).Done? && AllFit(FramesOf(RunFrom(z, START, ops).ws.log))
    ensures Recorded(z, ops, RunFrom(z, START, ops).ws)
  {
    hide RunFrom;
    hide AllOpsFit;
    hide Inverse;
    hide AllFit;
  }
}
