/** What was asked of a writer is what its frames say: the runs a segment states and those
    its batches belong to, the numbers of its segments, metadata and attachments. All of
    it is told of the calls alone. */
module Asked {
  import opened Bytes
  import opened Wire
  import opened Format
  import opened Frames
  import opened Records
  import opened Reading
  import opened Writing
  import opened Recording
  import opened Runs
  import Resync

  // --- what the calls ask ----------------------------------------------------------------------------

  /** Run `i` has not been ended since. */
  predicate NotEnded(ops: seq<Op>, i: nat)
    requires i < |ops| && ops[i].OpAddRun?
  {
    forall j :: i < j < |ops| ==> ops[j] != OpEndRun(ops[i].r.id)
  }

  /** Of the first `n` calls, the runs added and not ended by any of the calls. */
  function InForce(ops: seq<Op>, n: nat): seq<Run>
    requires n <= |ops|
  {
    if n == 0 then []
    else InForce(ops, n - 1) + if ops[n - 1].OpAddRun? && NotEnded(ops, n - 1) then [ops[n - 1].r] else []
  }

  /** The runs a segment opened next would state. */
  function RunsNow(ops: seq<Op>): seq<Run> { InForce(ops, |ops|) }

  /** The call that opened the segment the calls end in: the last that asked for one, or
      the first that wrote when none had been. */
  function OpenedBy(ops: seq<Op>): (q: Option<nat>)
    ensures q.Some? ==> q.value < |ops|
  {
    if ops == [] then None
    else
      var n := |ops| - 1;
      if ops[n].OpBeginSegment? || (ops[n].OpWriteData? && OpenedBy(ops[..n]) == None) then Some(n) else OpenedBy(ops[..n])
  }

  function Adds(ops: seq<Op>): seq<Run> {
    if ops == [] then []
    else
      var n := |ops| - 1;
      Adds(ops[..n]) + if ops[n].OpAddRun? then [ops[n].r] else []
  }

  /** The runs defined in the segment the calls end in: those in force when it was opened,
      and those added since. */
  function Defined(ops: seq<Op>): seq<Run> {
    match OpenedBy(ops)
    case None => []
    case Some(q) => RunsNow(ops[..q]) + Adds(ops[q..])
  }

  function LastOf(rs: seq<Run>, id: u32): Option<Run> {
    if rs == [] then None
    else
      var n := |rs| - 1;
      if rs[n].id == id then Some(rs[n]) else LastOf(rs[..n], id)
  }

  /** The run each batch belongs to: the last definition of its id. */
  function RunsAsked(ops: seq<Op>): seq<Option<Run>> {
    if ops == [] then []
    else
      var n := |ops| - 1;
      RunsAsked(ops[..n]) + if ops[n].OpWriteData? then [LastOf(Defined(ops), ops[n].runID)] else []
  }

  // --- what the frames say -----------------------------------------------------------------------------

  function RunIn(e: Event): seq<Run> {
    if e.frame.typ != FRAME_RUN then []
    else
      match TakeRun(e.frame.payload)
      case Bad => []
      case Good(r, _) => [r]
  }

  /** The runs stated since the last SYNC frame. */
  function Stated(evs: seq<Event>): seq<Run> {
    if evs == [] then []
    else
      var n := |evs| - 1;
      if evs[n].frame.typ == FRAME_SYNC then [] else Stated(evs[..n]) + RunIn(evs[n])
  }

  /** The run each batch came with. */
  function RunsHeard(evs: seq<Event>): seq<Option<Run>> {
    if evs == [] then []
    else
      var n := |evs| - 1;
      RunsHeard(evs[..n]) + if evs[n].out.Records? then [evs[n].out.run] else []
  }

  // --- one frame at a time --------------------------------------------------------------------------------

  /** What a frame adds to what a log says. */
  predicate Added(was: seq<Event>, now: seq<Event>, rs: seq<Run>, heard: seq<Option<Run>>) {
    Stated(now) == Stated(was) + rs && RunsHeard(now) == RunsHeard(was) + heard
  }

  lemma EmitSays(ws: WState, typ: byte, id: u16, payload: bytes, out: Outcome)
    requires typ != FRAME_SYNC
    ensures Added(ws.log, Emit(ws, typ, id, payload, out).log,
                  if typ == FRAME_RUN then (match TakeRun(payload) case Bad => [] case Good(r, _) => [r]) else [],
                  if out.Records? then [out.run] else [])
  {
    hide TakeRun;
    var now := Emit(ws, typ, id, payload, out).log;
    assert now[..|now| - 1] == ws.log;
  }

  lemma AddedNothing(evs: seq<Event>)
    ensures Added(evs, evs, [], [])
  {
  }

  lemma AddedThen(a: seq<Event>, b: seq<Event>, c: seq<Event>, r: seq<Run>, s: seq<Run>, x: seq<Option<Run>>, y: seq<Option<Run>>)
    requires Added(a, b, r, x) && Added(b, c, s, y)
    ensures Added(a, c, r + s, x + y)
  {
    hide Stated;
    hide RunsHeard;
  }

  lemma AddedLess(a: seq<Event>, b: seq<Event>, c: seq<Event>, r: seq<Run>)
    requires Added(a, b, r, []) && Added(b, c, [], [])
    ensures Added(a, c, r, [])
  {
    hide Stated;
    hide RunsHeard;
    AddedThen(a, b, c, r, [], [], []);
    assert r + [] == r;
  }

  lemma {:induction false} SchemasSay(ws: WState, k: nat)
    requires k <= |ws.streams|
    ensures var w := WriteSchemas(ws, k);
      Added(ws.log, w.log, [], []) && w.segRuns == ws.segRuns && w.runs == ws.runs && w.inSeg == ws.inSeg && w.seqNo == ws.seqNo
    decreases |ws.streams| - k
  {
    hide Added;
    hide PutSchema;
    hide Norm;
    AddedNothing(ws.log);
    if k < |ws.streams| {
      var s := ws.streams[k];
      var w := WriteSchema(ws, k);
      EmitSays(ws.(segStep := ws.segStep[s.uuid := s.axisStep]), FRAME_SCHEMA, Id(k), PutSchema(s), Bound(Norm(s), Id(k)));
      SchemasSay(w, k + 1);
      AddedLess(ws.log, w.log, WriteSchemas(w, k + 1).log, []);
    }
  }

  lemma {:induction false} HoldsSay(ws: WState, k: nat)
    requires k <= |ws.streams|
    ensures var w := WriteHolds(ws, k);
      Added(ws.log, w.log, [], []) && w.segRuns == ws.segRuns && w.runs == ws.runs && w.inSeg == ws.inSeg && w.seqNo == ws.seqNo
    decreases |ws.streams| - k
  {
    hide Added;
    hide HoldPayload;
    hide Restated;
    AddedNothing(ws.log);
    if k < |ws.streams| {
      var s := ws.streams[k];
      var w := if s.uuid in ws.hold then WriteHold(ws, k) else ws;
      if s.uuid in ws.hold {
        var h := ws.hold[s.uuid];
        EmitSays(ws, FRAME_HOLD, Id(k), HoldPayload(h), HeldValues(Restated(s, h)));
      }
      HoldsSay(w, k + 1);
      AddedLess(ws.log, w.log, WriteHolds(w, k + 1).log, []);
    }
  }

  /** The bindings a segment has are the last of what it states. */
  ghost predicate Binding(m: map<u32, Run>, rs: seq<Run>) { forall id: u32 :: Lookup(m, id) == LastOf(rs, id) }

  lemma BindingMore(m: map<u32, Run>, rs: seq<Run>, r: Run)
    requires Binding(m, rs)
    ensures Binding(m[r.id := r], rs + [r])
  {
    forall id: u32 ensures Lookup(m[r.id := r], id) == LastOf(rs + [r], id) {
      assert (rs + [r])[..|rs|] == rs;
      assert Lookup(m, id) == LastOf(rs, id);
    }
  }

  lemma RunSays(ws: WState, r: Run, rs: seq<Run>)
    requires RunFits(r) && Binding(ws.segRuns, rs)
    ensures var w := WriteRun(ws, r);
      Added(ws.log, w.log, [r], []) && Binding(w.segRuns, rs + [r]) && w.runs == ws.runs && w.inSeg == ws.inSeg && w.seqNo == ws.seqNo
  {
    hide Added;
    hide PutRun;
    hide TakeRun;
    hide Binding;
    RunBack(r);
    BindingMore(ws.segRuns, rs, r);
    EmitSays(ws.(segRuns := ws.segRuns[r.id := r]), FRAME_RUN, 0, PutRun(r), Nothing);
  }

  lemma {:induction false} RunsSay(ws: WState, rs: seq<Run>, was: seq<Run>)
    requires (forall r :: r in rs ==> RunFits(r)) && Binding(ws.segRuns, was)
    ensures var w := WriteRuns(ws, rs);
      Added(ws.log, w.log, rs, []) && Binding(w.segRuns, was + rs) && w.runs == ws.runs && w.inSeg == ws.inSeg && w.seqNo == ws.seqNo
    decreases |rs|
  {
    hide Added;
    hide Binding;
    hide RunFits;
    hide WriteRun;
    if rs == [] {
      AddedNothing(ws.log);
      assert was + [] == was;
    } else {
      var w := WriteRun(ws, rs[0]);
      RunSays(ws, rs[0], was);
      RunsSay(w, rs[1..], was + [rs[0]]);
      assert [rs[0]] + rs[1..] == rs && (was + [rs[0]]) + rs[1..] == was + rs;
      AddedRuns(ws.log, w.log, WriteRuns(w, rs[1..]).log, [rs[0]], rs[1..]);
    }
  }

  lemma AddedRuns(a: seq<Event>, b: seq<Event>, c: seq<Event>, r: seq<Run>, s: seq<Run>)
    requires Added(a, b, r, []) && Added(b, c, s, [])
    ensures Added(a, c, r + s, [])
  {
    hide Stated;
    hide RunsHeard;
    AddedThen(a, b, c, r, s, [], []);
    var none: seq<Option<Run>> := [];
    assert none + none == none;
  }

  /** A segment states the writer's runs, and binds them. */
  lemma SegmentSays(ws: WState, wall: u64)
    requires forall r :: r in ws.runs ==> RunFits(r)
    ensures var w := BeginSegment(ws, wall);
      Stated(w.log) == ws.runs && RunsHeard(w.log) == RunsHeard(ws.log) && Binding(w.segRuns, ws.runs) &&
      w.runs == ws.runs && w.inSeg && w.seqNo == (ws.seqNo + 1) % Bytes.TWO64
  {
    OpeningSays(ws, wall);
    hide *;
    var w0 := OpenSegment(ws, wall);
    SegmentIs(ws, wall);
    SchemasSay(w0, 0);
    var w1 := WriteSchemas(w0, 0);
    BindingNone(w1.segRuns);
    RunsSay(w1, w1.runs, []);
    var w2 := WriteRuns(w1, w1.runs);
    HoldsSay(w2, 0);
    assert [] + w1.runs == w1.runs;
    AddedRuns(w0.log, w1.log, w2.log, [], w1.runs);
    AddedLess(w0.log, w2.log, WriteHolds(w2, 0).log, w1.runs);
    AddedIs(w0.log, WriteHolds(w2, 0).log, w1.runs);
  }

  lemma AddedIs(a: seq<Event>, b: seq<Event>, r: seq<Run>)
    requires Added(a, b, r, [])
    ensures Stated(b) == Stated(a) + r && RunsHeard(b) == RunsHeard(a)
    ensures Stated(a) == [] ==> Stated(b) == r
  {
    hide Stated;
    hide RunsHeard;
    assert RunsHeard(a) + [] == RunsHeard(a);
    if Stated(a) == [] { assert Stated(a) + r == r; }
  }

  lemma BindingNone(m: map<u32, Run>)
    requires m == map[]
    ensures Binding(m, [])
  {
  }

  lemma OpeningSays(ws: WState, wall: u64)
    ensures var w := OpenSegment(ws, wall);
      Stated(w.log) == [] && RunsHeard(w.log) == RunsHeard(ws.log) && w.segRuns == map[] && w.runs == ws.runs && w.inSeg &&
      w.seqNo == (ws.seqNo + 1) % Bytes.TWO64 && w.streams == ws.streams
  {
    hide SyncPayload;
    var w := OpenSegment(ws, wall);
    assert w.log[..|w.log| - 1] == ws.log;
  }

  // --- one call at a time -----------------------------------------------------------------------------------

  /** The writer, and what it has written, are as the calls ask of its runs. */
  ghost predicate Tells(w: WState, ops: seq<Op>) {
    w.runs == RunsNow(ops) && (w.inSeg <==> OpenedBy(ops).Some?) && RunsHeard(w.log) == RunsAsked(ops) &&
    (w.inSeg ==> Stated(w.log) == Defined(ops) && Binding(w.segRuns, Defined(ops)))
  }

  lemma {:induction false} InForceMore(ops: seq<Op>, op: Op, n: nat)
    requires n <= |ops| && !op.OpEndRun?
    ensures InForce(ops + [op], n) == InForce(ops, n)
  {
    if n > 0 {
      InForceMore(ops, op, n - 1);
      var all := ops + [op];
      assert all[n - 1] == ops[n - 1];
      if ops[n - 1].OpAddRun? {
        assert NotEnded(ops, n - 1) ==> NotEnded(all, n - 1);
        if NotEnded(all, n - 1) {
          forall j | n - 1 < j < |ops| ensures ops[j] != OpEndRun(ops[n - 1].r.id) { assert all[j] == ops[j]; }
        }
      }
    }
  }

  lemma {:induction false} DropJoin(a: seq<Run>, b: seq<Run>, id: u32)
    ensures DropRuns(a + b, id) == DropRuns(a, id) + DropRuns(b, id)
    decreases |a|
  {
    if a == [] {
      assert a + b == b;
    } else {
      assert (a + b)[0] == a[0] && (a + b)[1..] == a[1..] + b;
      DropJoin(a[1..], b, id);
    }
  }

  lemma DropOne(r: Run, id: u32)
    ensures DropRuns([r], id) == if r.id == id then [] else [r]
  {
    assert [r][1..] == [];
  }

  lemma {:induction false} InForceEnds(ops: seq<Op>, id: u32, n: nat)
    requires n <= |ops|
    ensures InForce(ops + [OpEndRun(id)], n) == DropRuns(InForce(ops, n), id)
  {
    if n > 0 {
      InForceEnds(ops, id, n - 1);
      var all := ops + [OpEndRun(id)];
      var was := InForce(ops, n - 1);
      assert all[n - 1] == ops[n - 1];
      if ops[n - 1].OpAddRun? {
        EndedMore(ops, id, n - 1);
        DropJoin(was, [ops[n - 1].r], id);
        DropOne(ops[n - 1].r, id);
      }
      assert was + [] == was && DropRuns(was, id) + [] == DropRuns(was, id);
    }
  }

  lemma EndedMore(ops: seq<Op>, id: u32, i: nat)
    requires i < |ops| && ops[i].OpAddRun?
    ensures (ops + [OpEndRun(id)])[i] == ops[i]
    ensures NotEnded(ops + [OpEndRun(id)], i) <==> NotEnded(ops, i) && ops[i].r.id != id
  {
    var all := ops + [OpEndRun(id)];
    if NotEnded(all, i) {
      forall j | i < j < |ops| ensures ops[j] != OpEndRun(ops[i].r.id) { assert all[j] == ops[j]; }
      assert all[|ops|] == OpEndRun(id);
    }
  }

  /** How a call changes the runs in force. */
  lemma RunsNowMore(ops: seq<Op>, op: Op)
    ensures RunsNow(ops + [op]) ==
      match op
      case OpAddRun(r) => RunsNow(ops) + [r]
      case OpEndRun(id) => DropRuns(RunsNow(ops), id)
      case _ => RunsNow(ops)
  {
    var all := ops + [op];
    assert all[|all| - 1] == op;
    if op.OpEndRun? {
      InForceEnds(ops, op.id, |ops|);
      assert InForce(all, |ops|) + [] == InForce(all, |ops|);
    } else {
      InForceMore(ops, op, |ops|);
      assert op.OpAddRun? ==> NotEnded(all, |ops|);
      assert InForce(ops, |ops|) + [] == InForce(ops, |ops|);
    }
  }

  lemma OpenedMore(ops: seq<Op>, op: Op)
    ensures OpenedBy(ops + [op]) ==
      if op.OpBeginSegment? || (op.OpWriteData? && OpenedBy(ops) == None) then Some(|ops|) else OpenedBy(ops)
  {
    var all := ops + [op];
    assert all[..|all| - 1] == ops && all[|all| - 1] == op;
  }

  lemma AddsMore(ops: seq<Op>, op: Op)
    ensures Adds(ops + [op]) == Adds(ops) + if op.OpAddRun? then [op.r] else []
  {
    var all := ops + [op];
    assert all[..|all| - 1] == ops && all[|all| - 1] == op;
  }

  lemma AddsOne(op: Op)
    requires !op.OpAddRun?
    ensures Adds([op]) == []
  {
    assert [op][..0] == [];
  }

  lemma CutMore(ops: seq<Op>, op: Op, q: nat)
    requires q <= |ops|
    ensures (ops + [op])[..q] == ops[..q] && (ops + [op])[q..] == ops[q..] + [op]
  {
  }

  /** And what its segment defines. */
  lemma DefinedMore(ops: seq<Op>, op: Op)
    ensures OpenedBy(ops + [op]) ==
      if op.OpBeginSegment? || (op.OpWriteData? && OpenedBy(ops) == None) then Some(|ops|) else OpenedBy(ops)
    ensures OpenedBy(ops + [op]) == Some(|ops|) ==> Defined(ops + [op]) == RunsNow(ops)
    ensures OpenedBy(ops + [op]) != Some(|ops|) && OpenedBy(ops).Some? ==>
      Defined(ops + [op]) == Defined(ops) + if op.OpAddRun? then [op.r] else []
  {
    hide OpenedBy;
    hide Adds;
    hide RunsNow;
    OpenedMore(ops, op);
    if OpenedBy(ops + [op]) == Some(|ops|) {
      CutMore(ops, op, |ops|);
      assert ops[..|ops|] == ops && ops[|ops|..] + [op] == [op];
      AddsOne(op);
      SameDefined(RunsNow(ops));
    } else if OpenedBy(ops).Some? {
      var q := OpenedBy(ops).value;
      CutMore(ops, op, q);
      AddsMore(ops[q..], op);
      assert (RunsNow(ops[..q]) + Adds(ops[q..])) + [] == RunsNow(ops[..q]) + Adds(ops[q..]);
    }
  }

  lemma AskedMore(ops: seq<Op>, op: Op)
    ensures RunsAsked(ops + [op]) ==
      RunsAsked(ops) + if op.OpWriteData? then [LastOf(Defined(ops + [op]), op.runID)] else []
  {
    var all := ops + [op];
    assert all[..|all| - 1] == ops && all[|all| - 1] == op;
  }

  /** A frame that says nothing of runs changes nothing of this. */
  lemma QuietTells(ws: WState, w: WState, ops: seq<Op>, op: Op)
    requires Tells(ws, ops) && !op.OpBeginSegment? && !op.OpWriteData? && !op.OpAddRun? && !op.OpEndRun?
    requires w.runs == ws.runs && w.inSeg == ws.inSeg && w.segRuns == ws.segRuns && Added(ws.log, w.log, [], [])
    ensures Tells(w, ops + [op])
  {
    hide Stated;
    hide RunsHeard;
    hide RunsNow;
    hide Defined;
    hide RunsAsked;
    hide OpenedBy;
    hide Binding;
    RunsNowMore(ops, op);
    DefinedMore(ops, op);
    AskedMore(ops, op);
    var none: seq<Run> := [];
    var nobody: seq<Option<Run>> := [];
    assert Stated(ws.log) + none == Stated(ws.log) && Defined(ops) + none == Defined(ops);
    assert RunsHeard(ws.log) + nobody == RunsHeard(ws.log) && RunsAsked(ops) + nobody == RunsAsked(ops);
  }

  lemma AddTells(ws: WState, r: Run, ops: seq<Op>)
    requires Tells(ws, ops) && RunFits(r)
    ensures Tells(AddRun(ws, r), ops + [OpAddRun(r)])
  {
    hide Stated;
    hide RunsHeard;
    hide RunsNow;
    hide Defined;
    hide RunsAsked;
    hide OpenedBy;
    hide Binding;
    hide WriteRun;
    RunsNowMore(ops, OpAddRun(r));
    DefinedMore(ops, OpAddRun(r));
    AskedMore(ops, OpAddRun(r));
    var w := ws.(runs := ws.runs + [r]);
    if ws.inSeg { RunSays(w, r, Defined(ops)); }
    var nobody: seq<Option<Run>> := [];
    assert RunsHeard(ws.log) + nobody == RunsHeard(ws.log) && RunsAsked(ops) + nobody == RunsAsked(ops);
  }

  lemma EndTells(ws: WState, id: u32, ops: seq<Op>)
    requires Tells(ws, ops)
    ensures Tells(ws.(runs := DropRuns(ws.runs, id)), ops + [OpEndRun(id)])
  {
    hide Stated;
    hide RunsHeard;
    hide RunsNow;
    hide Defined;
    hide RunsAsked;
    hide OpenedBy;
    hide Binding;
    RunsNowMore(ops, OpEndRun(id));
    DefinedMore(ops, OpEndRun(id));
    AskedMore(ops, OpEndRun(id));
    var none: seq<Run> := [];
    var nobody: seq<Option<Run>> := [];
    assert Defined(ops) + none == Defined(ops) && RunsAsked(ops) + nobody == RunsAsked(ops);
  }

  lemma BeginTells(ws: WState, wall: u64, ops: seq<Op>)
    requires Tells(ws, ops) && forall r :: r in ws.runs ==> RunFits(r)
    ensures Tells(BeginSegment(ws, wall), ops + [OpBeginSegment(wall)])
  {
    hide Stated;
    hide RunsHeard;
    hide RunsNow;
    hide Defined;
    hide RunsAsked;
    hide OpenedBy;
    hide Binding;
    hide BeginSegment;
    SegmentSays(ws, wall);
    RunsNowMore(ops, OpBeginSegment(wall));
    DefinedMore(ops, OpBeginSegment(wall));
    AskedMore(ops, OpBeginSegment(wall));
    var nobody: seq<Option<Run>> := [];
    assert RunsAsked(ops) + nobody == RunsAsked(ops);
  }

  /** A batch comes with the last definition of its run's id. */
  lemma BatchSays(z: Zip, ws: WState, k: nat, base: u64, runID: u32, count: u32, records: bytes, rs: seq<Run>)
    requires k < |ws.streams| && WriteBatch(z, ws, k, base, runID, count, records).Done? && Binding(ws.segRuns, rs)
    ensures var w := WriteBatch(z, ws, k, base, runID, count, records).ws;
      Added(ws.log, w.log, [], [LastOf(rs, runID)]) && w.segRuns == ws.segRuns && w.runs == ws.runs && w.inSeg == ws.inSeg
  {
    hide Added;
    BatchEmits(z, ws, k, base, runID, count, records);
    hide WriteBatch;
    hide DataFrame;
    hide BatchState;
    hide TailsOf;
    hide Norm;
    var s := ws.streams[k];
    EmitSays(BatchState(ws, s, base, runID, count), FRAME_DATA, Id(k),
             DataFrame(z, s, base, runID, count, ws.codec, ws.filter, records),
             Batched(s, base, runID, count, records, ws.segRuns));
    assert Lookup(ws.segRuns, runID) == LastOf(rs, runID);
  }

  lemma DataTells(z: Zip, ws: WState, k: nat, base: u64, runID: u32, count: u32, records: bytes, ops: seq<Op>)
    requires Tells(ws, ops) && k < |ws.streams| && WriteData(z, ws, k, base, runID, count, records).Done?
    requires forall r :: r in ws.runs ==> RunFits(r)
    ensures Tells(WriteData(z, ws, k, base, runID, count, records).ws, ops + [OpWriteData(k, base, runID, count, records)])
  {
    hide *;
    var op := OpWriteData(k, base, runID, count, records);
    DataUnfold(z, ws, k, base, runID, count, records);
    SegmentSays(ws, 0);
    var w1 := if ws.inSeg then ws else BeginSegment(ws, 0);
    RunsNowMore(ops, op);
    DefinedMore(ops, op);
    AskedMore(ops, op);
    TellsIs(ws, ops);
    SameDefined(Defined(ops));
    var rs := Defined(ops + [op]);
    BatchSays(z, w1, k, base, runID, count, records, rs);
    var w := WriteData(z, ws, k, base, runID, count, records).ws;
    AddedBatch(w1.log, w.log, LastOf(rs, runID));
    TellsMake(w, ops + [op]);
  }

  lemma SameDefined(rs: seq<Run>)
    ensures rs + [] == rs
  {
  }

  lemma AddedBatch(a: seq<Event>, b: seq<Event>, r: Option<Run>)
    requires Added(a, b, [], [r])
    ensures Stated(b) == Stated(a) && RunsHeard(b) == RunsHeard(a) + [r]
  {
    hide Stated;
    hide RunsHeard;
    assert Stated(a) + [] == Stated(a);
  }

  lemma TellsIs(w: WState, ops: seq<Op>)
    requires Tells(w, ops)
    ensures w.runs == RunsNow(ops) && (w.inSeg <==> OpenedBy(ops).Some?) && RunsHeard(w.log) == RunsAsked(ops)
    ensures w.inSeg ==> Stated(w.log) == Defined(ops) && Binding(w.segRuns, Defined(ops))
  {
    hide Stated;
    hide RunsHeard;
    hide RunsNow;
    hide Defined;
    hide RunsAsked;
    hide OpenedBy;
    hide Binding;
  }

  lemma TellsMake(w: WState, ops: seq<Op>)
    requires w.runs == RunsNow(ops) && (w.inSeg <==> OpenedBy(ops).Some?) && RunsHeard(w.log) == RunsAsked(ops)
    requires w.inSeg ==> Stated(w.log) == Defined(ops) && Binding(w.segRuns, Defined(ops))
    ensures Tells(w, ops)
  {
    hide Stated;
    hide RunsHeard;
    hide RunsNow;
    hide Defined;
    hide RunsAsked;
    hide OpenedBy;
    hide Binding;
  }

  lemma SoundRuns(ws: WState)
    requires Sound(ws)
    ensures forall r :: r in ws.runs ==> RunFits(r)
  {
  }

  lemma StepTells(z: Zip, ws: WState, op: Op, ops: seq<Op>)
    requires Tells(ws, ops) && Sound(ws) && IndexSane(ws) && OpFits(ws, op) && Step(z, ws, op).Done?
    ensures Tells(Step(z, ws, op).ws, ops + [op])
  {
    SoundRuns(ws);
    hide Tells;
    hide Added;
    hide Sound;
    hide IndexSane;
    hide IndexPayload;
    hide BeginSegment;
    hide WriteData;
    hide ValidSchema;
    hide PutSchema;
    hide Norm;
    hide MetaPayload;
    hide AttachPayload;
    hide DropRuns;
    hide RunFits;
    hide Emit;
    hide AddRun;
    var w := Step(z, ws, op).ws;
    match op {
      case OpAddRun(r) => FitsRun(ws, r); AddTells(ws, r, ops);
      case OpEndRun(id) => EndTells(ws, id, ops);
      case OpBeginSegment(wall) => BeginTells(ws, wall, ops);
      case OpWriteData(k, base, runID, count, records) => DataTells(z, ws, k, base, runID, count, records, ops);
      case _ =>
        QuietAdds(z, ws, op);
        QuietTells(ws, w, ops, op);
    }
  }

  lemma FitsRun(ws: WState, r: Run)
    requires OpFits(ws, OpAddRun(r))
    ensures RunFits(r)
  {
    hide RunFits;
  }

  lemma QuietAdds(z: Zip, ws: WState, op: Op)
    requires IndexSane(ws) && Step(z, ws, op).Done?
    requires !op.OpBeginSegment? && !op.OpWriteData? && !op.OpAddRun? && !op.OpEndRun?
    ensures var w := Step(z, ws, op).ws;
      w.runs == ws.runs && w.inSeg == ws.inSeg && w.segRuns == ws.segRuns && Added(ws.log, w.log, [], [])
  {
    hide Added;
    hide IndexSane;
    hide IndexPayload;
    hide ValidSchema;
    hide PutSchema;
    hide Norm;
    hide MetaPayload;
    hide AttachPayload;
    AddedNothing(ws.log);
    match op {
      case OpAddStream(s) =>
        var k := |ws.streams|;
        var w := ws.(streams := ws.streams + [s], segStep := ws.segStep[s.uuid := s.axisStep]);
        EmitSays(w, FRAME_SCHEMA, Id(k), PutSchema(s), Bound(Norm(s), Id(k)));
      case OpWriteMeta(m) => EmitSays(ws, FRAME_META, 0, MetaPayload(m), Nothing);
      case OpWriteAttach(m) => EmitSays(ws, FRAME_ATTACH, 0, AttachPayload(m), Nothing);
      case OpClose =>
        var w := Emit(ws, FRAME_INDEX, 0, IndexPayload(ws), Nothing);
        EmitSays(ws, FRAME_INDEX, 0, IndexPayload(ws), Nothing);
        EmitSays(w, FRAME_END, 0, [], Nothing);
        AddedLess(ws.log, w.log, Close(ws).log, []);
      case _ =>
    }
  }

  lemma StartTells()
    ensures Tells(START, [])
  {
  }

  lemma {:induction false} RunTells(z: Zip, ws: WState, rs: RState, pre: seq<Op>, ops: seq<Op>)
    requires Inverse(z) && Sound(ws) && Sim(ws, rs) && IndexSane(ws) && AllOpsFit(z, ws, ops) && RunFrom(z, ws, ops).Done?
    requires Tells(ws, pre)
    ensures Tells(RunFrom(z, ws, ops).ws, pre + ops)
    decreases |ops|
  {
    hide Step;
    hide Sound;
    hide Sim;
    hide OpFits;
    hide Inverse;
    hide IndexSane;
    hide Tells;
    if ops == [] {
      assert pre + ops == pre;
    } else {
      StepSane(z, ws, ops[0]);
      StepTells(z, ws, ops[0], pre);
      var r := StepFollows(z, ws, rs, ops[0]);
      RunTells(z, Step(z, ws, ops[0]).ws, r, pre + [ops[0]], ops[1..]);
      assert (pre + [ops[0]]) + ops[1..] == pre + ops;
    }
  }

  // --- what every recording says ------------------------------------------------------------------------------

  /** Every batch of a recording, in order, comes with the run the calls ask for: the last
      definition of its id given while its segment was open, or else the last given and
      not ended before it was opened. */
  lemma BatchRuns(z: Zip, ops: seq<Op>, ws: WState)
    requires Recorded(z, ops, ws)
    ensures RunsHeard(ws.log) == RunsAsked(ops)
  {
    hide *;
    var w := PrefixTells(z, ops, ws, |ops|);
    assert ops[..|ops|] == ops;
    TellsIs(ws, ops);
  }

  /** Whatever has been called so far, the log so far tells it. */
  lemma PrefixTells(z: Zip, ops: seq<Op>, ws: WState, p: nat) returns (w: WState)
    requires Recorded(z, ops, ws) && p <= |ops|
    ensures RunFrom(z, START, ops[..p]) == Done(w) && Tells(w, ops[..p]) && w.log <= ws.log
    ensures p == |ops| ==> w == ws
  {
    StartSound(FRESH);
    StartTells();
    hide RunFrom;
    hide AllOpsFit;
    hide Sound;
    hide Sim;
    hide IndexSane;
    hide Tells;
    hide START;
    assert ops == ops[..p] + ops[p..];
    Resync.RunSplit(z, START, ops[..p], ops[p..]);
    w := RunFrom(z, START, ops[..p]).ws;
    RunTells(z, START, FRESH, [], ops[..p]);
    assert [] + ops[..p] == ops[..p];
    Resync.RunUntil(z, w, ops[p..]);
    if p == |ops| { assert ops[..p] == ops; }
  }

  /** At any time, the RUN frames since the last SYNC frame are the runs in force when the
      segment was opened and those added since, in order. */
  lemma SegmentRuns(z: Zip, ops: seq<Op>, ws: WState, p: nat) returns (w: WState)
    requires Recorded(z, ops, ws) && p <= |ops| && OpenedBy(ops[..p]).Some?
    ensures RunFrom(z, START, ops[..p]) == Done(w) && w.log <= ws.log && Stated(w.log) == Defined(ops[..p])
  {
    hide *;
    w := PrefixTells(z, ops, ws, p);
    TellsIs(w, ops[..p]);
  }

  /** Every segment of a recording opens with the runs added and not ended before the call
      that opened it, in order: these and no more. */
  lemma SegmentOpens(z: Zip, ops: seq<Op>, ws: WState, j: nat) returns (q: nat, w: WState)
    requires Recorded(z, ops, ws) && j < |ws.log| && ws.log[j].frame.typ == FRAME_SYNC
    ensures q < |ops| && RunFrom(z, START, ops[..q + 1]) == Done(w) && j < |w.log| && w.log <= ws.log
    ensures OpenedBy(ops[..q + 1]) == Some(q) && Stated(w.log) == RunsNow(ops[..q])
    ensures forall i :: j < i < |w.log| ==> w.log[i].frame.typ != FRAME_SYNC
  {
    hide *;
    var w0;
    q, w0 := Resync.SegmentRestates(z, ops, ws, j);
    var v := PrefixTells(z, ops, ws, q);
    w := PrefixTells(z, ops, ws, q + 1);
    TellsIs(v, ops[..q]);
    TellsIs(w, ops[..q + 1]);
    StartSane();
    OpensHere(z, ops, w0, w, q, j);
    assert ops[..q + 1] == ops[..q] + [ops[q]];
    DefinedMore(ops[..q], ops[q]);
    OpensIs(w0, ops[q]);
  }

  lemma StartSane()
    ensures IndexSane(START)
  {
  }

  lemma OpensIs(w: WState, op: Op)
    requires Resync.Opens(w, op)
    ensures op.OpBeginSegment? || (op.OpWriteData? && !w.inSeg)
  {
  }

  /** The opening call's frames begin with that SYNC frame and have no other. */
  lemma OpensHere(z: Zip, ops: seq<Op>, w0: WState, w: WState, q: nat, j: nat)
    requires IndexSane(START) && q < |ops| && RunFrom(z, START, ops[..q]) == Done(w0) && |w0.log| == j
    requires RunFrom(z, START, ops[..q + 1]) == Done(w) && Resync.Opens(w0, ops[q])
    ensures j < |w.log| && forall i :: j < i < |w.log| ==> w.log[i].frame.typ != FRAME_SYNC
  {
    hide Step;
    hide Resync.Opens;
    hide IndexSane;
    hide START;
    assert ops[..q + 1] == ops[..q] + [ops[q]];
    Resync.RunSplit(z, START, ops[..q], [ops[q]]);
    OneStep(z, w0, ops[q]);
    hide RunFrom;
    var add := Resync.StepAdds(z, w0, ops[q]);
    forall i | j < i < |w.log| ensures w.log[i].frame.typ != FRAME_SYNC { assert w.log[i] in add[1..] by { assert add[1..][i - j - 1] == w.log[i]; } }
  }

  lemma OneStep(z: Zip, ws: WState, op: Op)
    requires IndexSane(ws)
    ensures RunFrom(z, ws, [op]) == Step(z, ws, op)
  {
    hide Step;
    StepSane(z, ws, op);
    assert [op][1..] == [];
  }

  // --- segments, metadata and attachments ------------------------------------------------------------------------

  datatype Mark = Segment(number: nat, wall: nat) | Note(m: Meta) | Kept(m: Meta)

  /** Whether a call opens a segment, when these came before it. */
  predicate Begins(pre: seq<Op>, op: Op) { op.OpBeginSegment? || (op.OpWriteData? && OpenedBy(pre) == None) }

  function Segments(ops: seq<Op>): nat {
    if ops == [] then 0
    else
      var n := |ops| - 1;
      Segments(ops[..n]) + if Begins(ops[..n], ops[n]) then 1 else 0
  }

  function MarkOf(pre: seq<Op>, op: Op): seq<Mark> {
    match op
    case OpWriteMeta(m) => [Note(m)]
    case OpWriteAttach(m) => [Kept(m)]
    case OpBeginSegment(wall) => [Segment(Segments(pre) % Bytes.TWO64, wall)]
    case OpWriteData(_, _, _, _, _) => if Begins(pre, op) then [Segment(Segments(pre) % Bytes.TWO64, 0)] else []
    case _ => []
  }

  /** Segments numbered from zero, with the times they were given, and what was noted and
      kept between them, in call order. */
  function MarksAsked(ops: seq<Op>): seq<Mark> {
    if ops == [] then []
    else
      var n := |ops| - 1;
      MarksAsked(ops[..n]) + MarkOf(ops[..n], ops[n])
  }

  function MarkIn(e: Event): seq<Mark> {
    var p := e.frame.payload;
    if e.frame.typ == FRAME_SYNC then
      if |p| == 32 then [Segment(FromLE(p[16..24]), FromLE(p[24..32]))] else []
    else if e.frame.typ == FRAME_META then
      match TakeMeta(p)
      case Bad => []
      case Good(m, _) => [Note(m)]
    else if e.frame.typ == FRAME_ATTACH then
      match TakeAttach(p)
      case Bad => []
      case Good(m, _) => [Kept(m)]
    else []
  }

  function MarksIn(evs: seq<Event>): seq<Mark> {
    if evs == [] then []
    else
      var n := |evs| - 1;
      MarksIn(evs[..n]) + MarkIn(evs[n])
  }

  ghost predicate Marked(w: WState, ops: seq<Op>) {
    MarksIn(w.log) == MarksAsked(ops) && w.seqNo == Segments(ops) % Bytes.TWO64 && (w.inSeg <==> OpenedBy(ops).Some?)
  }

  /** Frames of no mark. */
  predicate Unmarked(typ: byte) { typ != FRAME_SYNC && typ != FRAME_META && typ != FRAME_ATTACH }

  lemma EmitMarks(ws: WState, typ: byte, id: u16, payload: bytes, out: Outcome)
    ensures MarksIn(Emit(ws, typ, id, payload, out).log) == MarksIn(ws.log) + MarkIn(Event(ws.off, Frame(typ, 0, id, payload), out))
    ensures Unmarked(typ) ==> MarksIn(Emit(ws, typ, id, payload, out).log) == MarksIn(ws.log)
  {
    hide TakeMeta;
    hide TakeAttach;
    var now := Emit(ws, typ, id, payload, out).log;
    assert now[..|now| - 1] == ws.log;
    assert MarksIn(ws.log) + [] == MarksIn(ws.log);
  }

  lemma SyncMark(at: nat, seqNo: u64, wall: u64)
    ensures MarkIn(Event(at, Frame(FRAME_SYNC, 0, 0, SyncPayload(seqNo, wall)), Nothing)) == [Segment(seqNo, wall)]
  {
    var p := SyncPayload(seqNo, wall);
    WidthBounds();
    StoreLoad(8, seqNo);
    StoreLoad(8, wall);
    assert |SYNC_PATTERN| == 16;
    assert p[16..24] == LE(8, seqNo) && p[24..32] == LE(8, wall);
    hide SyncPayload;
    hide LE;
    hide FromLE;
  }

  lemma NoteMark(at: nat, m: Meta)
    requires |MetaPayload(m)| < TWO32
    ensures MarkIn(Event(at, Frame(FRAME_META, 0, 0, MetaPayload(m)), Nothing)) == [Note(m)]
  {
    StrBack(m.value, []);
    StrBack(m.key, PutStr(m.value, []));
    hide TakeStr;
  }

  lemma KeptMark(at: nat, m: Meta)
    requires |AttachPayload(m)| < TWO32
    ensures MarkIn(Event(at, Frame(FRAME_ATTACH, 0, 0, AttachPayload(m)), Nothing)) == [Kept(m)]
  {
    StrBack(m.key, LE(4, |m.value|) + (m.value + []));
    U32Back(|m.value|, m.value + []);
    RawBack(m.value, []);
    hide TakeStr;
    hide LE;
  }

  lemma {:induction false} SchemasMark(ws: WState, k: nat)
    requires k <= |ws.streams|
    ensures MarksIn(WriteSchemas(ws, k).log) == MarksIn(ws.log)
    decreases |ws.streams| - k
  {
    hide PutSchema;
    hide Norm;
    hide MarksIn;
    if k < |ws.streams| {
      var s := ws.streams[k];
      EmitMarks(ws.(segStep := ws.segStep[s.uuid := s.axisStep]), FRAME_SCHEMA, Id(k), PutSchema(s), Bound(Norm(s), Id(k)));
      SchemasMark(WriteSchema(ws, k), k + 1);
    }
  }

  lemma {:induction false} RunsMark(ws: WState, rs: seq<Run>)
    ensures MarksIn(WriteRuns(ws, rs).log) == MarksIn(ws.log)
    decreases |rs|
  {
    hide PutRun;
    hide MarksIn;
    if rs != [] {
      EmitMarks(ws.(segRuns := ws.segRuns[rs[0].id := rs[0]]), FRAME_RUN, 0, PutRun(rs[0]), Nothing);
      RunsMark(WriteRun(ws, rs[0]), rs[1..]);
    }
  }

  lemma {:induction false} HoldsMark(ws: WState, k: nat)
    requires k <= |ws.streams|
    ensures MarksIn(WriteHolds(ws, k).log) == MarksIn(ws.log)
    decreases |ws.streams| - k
  {
    hide HoldPayload;
    hide Restated;
    hide MarksIn;
    if k < |ws.streams| {
      var s := ws.streams[k];
      if s.uuid in ws.hold {
        var h := ws.hold[s.uuid];
        EmitMarks(ws, FRAME_HOLD, Id(k), HoldPayload(h), HeldValues(Restated(s, h)));
      }
      HoldsMark(if s.uuid in ws.hold then WriteHold(ws, k) else ws, k + 1);
    }
  }

  lemma SegmentMarks(ws: WState, wall: u64)
    ensures MarksIn(BeginSegment(ws, wall).log) == MarksIn(ws.log) + [Segment(ws.seqNo, wall)]
  {
    hide *;
    var w0 := OpenSegment(ws, wall);
    OpeningMark(ws, wall);
    SegmentIs(ws, wall);
    SchemasMark(w0, 0);
    var w1 := WriteSchemas(w0, 0);
    RunsMark(w1, w1.runs);
    HoldsMark(WriteRuns(w1, w1.runs), 0);
  }

  lemma OpeningMark(ws: WState, wall: u64)
    ensures MarksIn(OpenSegment(ws, wall).log) == MarksIn(ws.log) + [Segment(ws.seqNo, wall)]
  {
    hide SyncPayload;
    hide MarksIn;
    hide MarkIn;
    EmitMarks(ws, FRAME_SYNC, 0, SyncPayload(ws.seqNo, wall), Nothing);
    SyncMark(ws.off, ws.seqNo, wall);
  }

  lemma SegmentsMore(ops: seq<Op>, op: Op)
    ensures Segments(ops + [op]) == Segments(ops) + if Begins(ops, op) then 1 else 0
    ensures MarksAsked(ops + [op]) == MarksAsked(ops) + MarkOf(ops, op)
  {
    var all := ops + [op];
    assert all[..|all| - 1] == ops && all[|all| - 1] == op;
  }

  lemma NextNumber(n: nat)
    ensures (n % Bytes.TWO64 + 1) % Bytes.TWO64 == (n + 1) % Bytes.TWO64
  {
  }

  lemma SegmentMarked(ws: WState, wall: u64, ops: seq<Op>, op: Op)
    requires Marked(ws, ops) && Begins(ops, op) && wall == (if op.OpBeginSegment? then op.wall else 0)
    requires forall r :: r in ws.runs ==> RunFits(r)
    ensures var w := BeginSegment(ws, wall);
      MarksIn(w.log) == MarksAsked(ops + [op]) && w.seqNo == Segments(ops + [op]) % Bytes.TWO64 && w.inSeg
  {
    hide MarksIn;
    hide MarksAsked;
    hide Segments;
    hide OpenedBy;
    hide BeginSegment;
    SegmentSays(ws, wall);
    SegmentMarks(ws, wall);
    SegmentsMore(ops, op);
    NextNumber(Segments(ops));
  }

  lemma DataMarked(z: Zip, ws: WState, k: nat, base: u64, runID: u32, count: u32, records: bytes, ops: seq<Op>)
    requires Marked(ws, ops) && k < |ws.streams| && WriteData(z, ws, k, base, runID, count, records).Done?
    requires forall r :: r in ws.runs ==> RunFits(r)
    ensures Marked(WriteData(z, ws, k, base, runID, count, records).ws, ops + [OpWriteData(k, base, runID, count, records)])
  {
    hide *;
    var op := OpWriteData(k, base, runID, count, records);
    DataUnfold(z, ws, k, base, runID, count, records);
    var w1 := if ws.inSeg then ws else BeginSegment(ws, 0);
    BatchMarks(z, w1, k, base, runID, count, records);
    MarkedIs(ws, ops);
    BeginsIs(ops, op);
    OpenedMore(ops, op);
    SegmentsMore(ops, op);
    if !ws.inSeg { SegmentMarked(ws, 0, ops, op); }
    var w := WriteData(z, ws, k, base, runID, count, records).ws;
    MarkNone(ops, op);
    MarkedMake(w, ops + [op]);
  }

  lemma BeginsIs(pre: seq<Op>, op: Op)
    ensures Begins(pre, op) <==> op.OpBeginSegment? || (op.OpWriteData? && OpenedBy(pre) == None)
  {
    hide OpenedBy;
  }

  lemma MarkNone(ops: seq<Op>, op: Op)
    requires op.OpWriteData?
    ensures !Begins(ops, op) ==> MarkOf(ops, op) == [] && MarksAsked(ops) + [] == MarksAsked(ops)
  {
    hide MarksAsked;
    hide Segments;
    hide Begins;
  }

  lemma BatchMarks(z: Zip, ws: WState, k: nat, base: u64, runID: u32, count: u32, records: bytes)
    requires k < |ws.streams| && WriteBatch(z, ws, k, base, runID, count, records).Done?
    ensures var w := WriteBatch(z, ws, k, base, runID, count, records).ws;
      MarksIn(w.log) == MarksIn(ws.log) && w.inSeg == ws.inSeg && w.seqNo == ws.seqNo
  {
    BatchEmits(z, ws, k, base, runID, count, records);
    hide WriteBatch;
    hide MarksIn;
    hide DataFrame;
    hide BatchState;
    hide Batched;
    var s := ws.streams[k];
    EmitMarks(BatchState(ws, s, base, runID, count), FRAME_DATA, Id(k),
              DataFrame(z, s, base, runID, count, ws.codec, ws.filter, records),
              Batched(s, base, runID, count, records, ws.segRuns));
  }

  lemma MarkedIs(w: WState, ops: seq<Op>)
    requires Marked(w, ops)
    ensures MarksIn(w.log) == MarksAsked(ops) && w.seqNo == Segments(ops) % Bytes.TWO64 && (w.inSeg <==> OpenedBy(ops).Some?)
  {
    hide MarksIn;
    hide MarksAsked;
    hide Segments;
    hide OpenedBy;
  }

  lemma MarkedMake(w: WState, ops: seq<Op>)
    requires MarksIn(w.log) == MarksAsked(ops) && w.seqNo == Segments(ops) % Bytes.TWO64 && (w.inSeg <==> OpenedBy(ops).Some?)
    ensures Marked(w, ops)
  {
    hide MarksIn;
    hide MarksAsked;
    hide Segments;
    hide OpenedBy;
  }

  /** Every other call adds its own mark, or none. */
  lemma OtherMarks(z: Zip, ws: WState, op: Op, ops: seq<Op>)
    requires IndexSane(ws) && Step(z, ws, op).Done? && !op.OpBeginSegment? && !op.OpWriteData?
    requires op.OpWriteMeta? ==> |MetaPayload(op.m)| < TWO32
    requires op.OpWriteAttach? ==> |AttachPayload(op.m)| < TWO32
    ensures var w := Step(z, ws, op).ws;
      MarksIn(w.log) == MarksIn(ws.log) + MarkOf(ops, op) && w.seqNo == ws.seqNo && w.inSeg == ws.inSeg
  {
    hide MarksIn;
    hide MarkIn;
    hide Segments;
    hide IndexSane;
    hide IndexPayload;
    hide ValidSchema;
    hide PutSchema;
    hide PutRun;
    hide Norm;
    hide MetaPayload;
    hide AttachPayload;
    hide DropRuns;
    assert MarksIn(ws.log) + [] == MarksIn(ws.log);
    match op {
      case OpAddStream(s) =>
        var k := |ws.streams|;
        var w := ws.(streams := ws.streams + [s], segStep := ws.segStep[s.uuid := s.axisStep]);
        EmitMarks(w, FRAME_SCHEMA, Id(k), PutSchema(s), Bound(Norm(s), Id(k)));
      case OpAddRun(r) =>
        var w := ws.(runs := ws.runs + [r], segRuns := ws.segRuns[r.id := r]);
        EmitMarks(w, FRAME_RUN, 0, PutRun(r), Nothing);
      case OpWriteMeta(m) =>
        EmitMarks(ws, FRAME_META, 0, MetaPayload(m), Nothing);
        NoteMark(ws.off, m);
      case OpWriteAttach(m) =>
        EmitMarks(ws, FRAME_ATTACH, 0, AttachPayload(m), Nothing);
        KeptMark(ws.off, m);
      case OpClose =>
        var w := Emit(ws, FRAME_INDEX, 0, IndexPayload(ws), Nothing);
        EmitMarks(ws, FRAME_INDEX, 0, IndexPayload(ws), Nothing);
        EmitMarks(w, FRAME_END, 0, [], Nothing);
      case _ =>
    }
  }

  lemma StepMarked(z: Zip, ws: WState, op: Op, ops: seq<Op>)
    requires Marked(ws, ops) && Sound(ws) && IndexSane(ws) && Step(z, ws, op).Done?
    requires op.OpWriteMeta? ==> |MetaPayload(op.m)| < TWO32
    requires op.OpWriteAttach? ==> |AttachPayload(op.m)| < TWO32
    ensures Marked(Step(z, ws, op).ws, ops + [op])
  {
    SoundRuns(ws);
    hide Sound;
    hide IndexSane;
    hide MetaPayload;
    hide AttachPayload;
    hide RunFits;
    if op.OpWriteData? {
      hide Marked;
      DataIsStep(z, ws, op);
      DataMarked(z, ws, op.k, op.base, op.runID, op.count, op.records, ops);
    } else if op.OpBeginSegment? {
      Resync.SegmentIsStep(z, ws, op.wall);
      SegmentMarked(ws, op.wall, ops, op);
      OpenedMore(ops, op);
      MarkedMake(Step(z, ws, op).ws, ops + [op]);
    } else {
      OtherMarks(z, ws, op, ops);
      OpenedMore(ops, op);
      SegmentsMore(ops, op);
      MarkedIs(ws, ops);
      MarkedMake(Step(z, ws, op).ws, ops + [op]);
    }
  }

  lemma DataIsStep(z: Zip, ws: WState, op: Op)
    requires IndexSane(ws) && op.OpWriteData? && Step(z, ws, op).Done?
    ensures op.k < |ws.streams| && Step(z, ws, op) == WriteData(z, ws, op.k, op.base, op.runID, op.count, op.records)
  {
    hide WriteData;
    hide IndexSane;
  }

  lemma NoteFits(z: Zip, ws: WState, op: Op, w: WState, end: WState)
    requires IndexSane(ws) && Step(z, ws, op) == Done(w) && w.log <= end.log && AllFit(FramesOf(end.log))
    ensures op.OpWriteMeta? ==> |MetaPayload(op.m)| < TWO32
    ensures op.OpWriteAttach? ==> |AttachPayload(op.m)| < TWO32
  {
    hide MetaPayload;
    hide AttachPayload;
    hide IndexSane;
    if op.OpWriteMeta? || op.OpWriteAttach? {
      var i := |ws.log|;
      assert i < |w.log| && end.log[i] == w.log[i];
      assert FramesOf(end.log)[i] == end.log[i].frame;
      assert FramesOf(end.log)[i] in FramesOf(end.log);
    }
  }

  lemma {:induction false} RunMarked(z: Zip, ws: WState, rs: RState, pre: seq<Op>, ops: seq<Op>)
    requires Inverse(z) && Sound(ws) && Sim(ws, rs) && IndexSane(ws) && AllOpsFit(z, ws, ops) && RunFrom(z, ws, ops).Done?
    requires Marked(ws, pre) && AllFit(FramesOf(RunFrom(z, ws, ops).ws.log))
    ensures Marked(RunFrom(z, ws, ops).ws, pre + ops)
    decreases |ops|
  {
    hide Step;
    hide Sound;
    hide Sim;
    hide OpFits;
    hide Inverse;
    hide IndexSane;
    hide Marked;
    hide AllFit;
    if ops == [] {
      assert pre + ops == pre;
    } else {
      StepSane(z, ws, ops[0]);
      var w := Step(z, ws, ops[0]).ws;
      Resync.RunUntil(z, w, ops[1..]);
      NoteFits(z, ws, ops[0], w, RunFrom(z, ws, ops).ws);
      StepMarked(z, ws, ops[0], pre);
      var r := StepFollows(z, ws, rs, ops[0]);
      RunMarked(z, w, r, pre + [ops[0]], ops[1..]);
      assert (pre + [ops[0]]) + ops[1..] == pre + ops;
    }
  }

  lemma StartMarked()
    ensures Marked(START, [])
  {
  }

  /** Every segment of a recording carries its number and the time it was given, and what
      was noted and kept is there between them, all in call order. */
  lemma MarksBack(z: Zip, ops: seq<Op>, ws: WState)
    requires Recorded(z, ops, ws)
    ensures MarksIn(ws.log) == MarksAsked(ops)
  {
    StartSound(FRESH);
    StartMarked();
    hide RunFrom;
    hide AllOpsFit;
    hide Sound;
    hide Sim;
    hide IndexSane;
    hide Marked;
    hide START;
    hide AllFit;
    RunMarked(z, START, FRESH, [], ops);
    assert [] + ops == ops;
    MarkedIs(ws, ops);
  }
}
