/** The writer as it is: an object whose fields every call updates, appending
    bytes to a sink. Each method does to the object what its step does to the
    state. */
module Writer {
  import opened Bytes
  import opened BitOps
  import opened Wire
  import opened Format
  import opened Codec
  import opened Frames
  import opened Records
  import opened Transpose
  import opened Reading
  import opened Writing
  import opened Recording
  import opened Runs
  import Crc

  /** A schema the caller has handed over and may still change the interval of,
      with the tag the writer gave it. */
  class Declaration {
    var schema: Schema
    var id: u16

    constructor (s: Schema)
      ensures schema == s
    {
      schema, id := s, 0;
    }
  }

  function SchemasOf(ds: seq<Declaration>): (ss: seq<Schema>)
    reads ds
    ensures |ss| == |ds|
    ensures forall k :: 0 <= k < |ds| ==> ss[k] == ds[k].schema
  {
    seq(|ds|, k requires 0 <= k < |ds| reads ds => ds[k].schema)
  }

  /** Every stream is its own object and has the tag of its place. */
  ghost predicate Tagged(ds: seq<Declaration>, next: u16)
    reads ds
  {
    next == Id(|ds|) &&
    (forall k :: 0 <= k < |ds| ==> ds[k].id == Id(k)) &&
    (forall i, j :: 0 <= i < j < |ds| ==> ds[i] != ds[j])
  }

  /** The sink holds the header and the frames logged, and no more. */
  ghost predicate Sunk(table: seq<nat>, sink: bytes, off: nat, log: seq<Event>) {
    Crc.IsTable(table) && off == |sink| && sink == FileHeader() + FramesBytes(FramesOf(log))
  }

  lemma SinkGrows(log: seq<Event>, e: Event)
    ensures FramesBytes(FramesOf(log + [e])) == FramesBytes(FramesOf(log)) + FrameBytes(e.frame)
  {
    hide *;
    FramesOfAppend(log, [e]);
    FramesAppend(FramesOf(log), FramesOf([e]));
    OneFrame(e);
  }

  lemma ZeroFits()
    ensures 0 < TWO32
  {
  }

  lemma HeaderIs(f: Frame)
    ensures Header(f) == LE(4, |f.payload|) + [f.typ, f.flags] + LE(2, f.id)
    ensures Sum(Header(f), f.payload) == Crc.Crc32c(f.payload, Crc.Crc32c(Header(f)))
    ensures |LE(4, |f.payload|)| == 4 && |LE(2, f.id)| == 2 && |LE(4, Sum(Header(f), f.payload))| == 4
    ensures f.Size() == 12 + |f.payload|
  {
  }

  lemma OneFrame(e: Event)
    ensures FramesBytes(FramesOf([e])) == FrameBytes(e.frame)
  {
    assert FramesOf([e]) == [e.frame];
    assert [e.frame][1..] == [];
    assert FrameBytes(e.frame) + [] == FrameBytes(e.frame);
  }

  lemma FrameBytesIs(f: Frame)
    ensures FrameBytes(f) == Header(f) + f.payload + LE(4, Sum(Header(f), f.payload))
  {
  }

  lemma HoldBytes(h: HoldState, bits: bytes, b: bytes)
    requires bits == PackBits(h.present)
    requires b == ((([] + LE(8, h.base)) + LE(4, h.runID)) + LE(4, 0)) + bits + h.record
    ensures b == HoldPayload(h)
  {
    hide LE;
    hide PackBits;
    var x, y, n := LE(8, h.base), LE(4, h.runID), LE(4, 0);
    assert [] + x == x;
    Assoc(((x + y) + n), bits, h.record);
    Assoc(x + y, n, bits + h.record);
    Assoc(x, y, n + (bits + h.record));
  }

  /** A schema and the one its reader knows lay records out alike. */
  lemma NormLike(s: Schema, count: u32, record: bytes)
    ensures Norm(s).RecordBytes() == s.RecordBytes() && |Norm(s).fields| == |s.fields|
    ensures TailsOf(Norm(s), count, record) == TailsOf(s, count, record)
  {
    NormVariables(s.fields);
    hide TakeTails;
  }

  lemma HoldTorn(s: Schema, h: HoldState)
    requires |h.present| == |s.fields| && |h.record| >= s.RecordBytes() && TailsOf(s, 1, h.record) == None
    ensures DecodeHold(s, HoldPayload(h)) == None
  {
    hide LE;
    hide FromLE;
    hide PackBits;
    hide TailsOf;
    var bits := PackBits(h.present);
    var t3 := bits + h.record;
    U64Back(h.base, LE(4, h.runID) + (LE(4, 0) + t3));
    U32Back(h.runID, LE(4, 0) + t3);
    U32Back(0, t3);
    RawBack(bits, h.record);
  }

  /** What a hook is told of a restatement is what a reader makes of it. */
  lemma HoldEcho(s: Schema, h: HoldState)
    requires |h.present| == |s.fields| && |h.record| >= s.RecordBytes()
    ensures var d := DecodeHold(s, HoldPayload(h));
      match d
      case Some(x) => x.schema == s && x.(schema := Norm(s)) == Restated(s, h)
      case None => DecodeHold(Norm(s), HoldPayload(h)) == None && !HoldFits(s, h)
    ensures Restated(s, h).schema == Norm(s)
  {
    NormLike(s, 1, h.record);
    hide DecodeHold;
    hide HoldPayload;
    hide TailsOf;
    if TailsOf(s, 1, h.record).Some? {
      HoldBack(s, h);
    } else {
      HoldTorn(s, h);
      HoldTorn(Norm(s), h);
    }
    hide Norm;
  }

  lemma HoldsStep(ws: WState, k: nat)
    requires k < |ws.streams|
    ensures var w := if ws.streams[k].uuid in ws.hold then Writing.WriteHold(ws, k) else ws;
      w.streams == ws.streams && Writing.WriteHolds(ws, k) == Writing.WriteHolds(w, k + 1)
  {
    hide HoldPayload;
    hide Restated;
  }

  lemma HoldsEnd(ws: WState)
    ensures Writing.WriteHolds(ws, |ws.streams|) == ws
  {
  }

  lemma SchemasStep(ws: WState, k: nat)
    requires k < |ws.streams|
    ensures Writing.WriteSchema(ws, k).streams == ws.streams
    ensures Writing.WriteSchemas(ws, k) == Writing.WriteSchemas(Writing.WriteSchema(ws, k), k + 1)
  {
    hide PutSchema;
    hide Norm;
  }

  lemma SchemasEnd(ws: WState)
    ensures Writing.WriteSchemas(ws, |ws.streams|) == ws
  {
  }

  lemma HoldEmits(ws: WState, k: nat)
    requires k < |ws.streams| && ws.streams[k].uuid in ws.hold
    ensures var s, h := ws.streams[k], ws.hold[ws.streams[k].uuid];
      Writing.WriteHold(ws, k) == Emit(ws, FRAME_HOLD, Id(k), HoldPayload(h), HeldValues(Restated(s, h)))
  {
  }

  lemma EchoLoose(l: Event, d: Option<Held>, muffled: bool)
    requires EchoOf(l.(out := if d == None then Nothing else HeldValues(d.value)), l, d == None) && (d == None ==> muffled)
    ensures EchoOf(l.(out := if d == None then Nothing else HeldValues(d.value)), l, muffled)
  {
    hide Norm;
  }

  lemma HoldEchoes(s: Schema, h: HoldState, id: u16)
    requires |h.present| == |s.fields| && |h.record| >= s.RecordBytes()
    ensures var d := DecodeHold(s, HoldPayload(h));
      var f := Frame(FRAME_HOLD, 0, id, HoldPayload(h));
      EchoOf(Event(0, f, if d == None then Nothing else HeldValues(d.value)), Event(0, f, HeldValues(Restated(s, h))), d == None) &&
      (d == None ==> !HoldFits(s, h))
  {
    HoldEcho(s, h);
    hide DecodeHold;
    hide HoldPayload;
    hide Restated;
    hide HoldFits;
    hide Norm;
  }

  lemma {:induction false} OrComm(x: nat, y: nat)
    ensures Or(x, y) == Or(y, x)
    decreases x + y
  {
    if x > 0 || y > 0 { OrComm(x / 2, y / 2); }
  }

  function Least(a: nat, b: nat): nat { if a < b then a else b }

  lemma {:induction false} PackByteNext(p: seq<bool>, b: bool)
    ensures PackByte(p + [b]) == PackByte(p) + (if b then Pow2(|p|) else 0)
    decreases |p|
  {
    if p == [] {
      assert (p + [b])[1..] == [];
    } else {
      assert (p + [b])[1..] == p[1..] + [b];
      PackByteNext(p[1..], b);
    }
  }

  lemma Reslice<T>(s: seq<T>, n: nat, a: nat, b: nat)
    requires n + a <= n + b <= |s|
    ensures s[n..][a..b] == s[n + a..n + b]
  {
  }

  lemma {:induction false} PackBitsAt(p: seq<bool>, j: nat)
    requires j < (|p| + 7) / 8
    ensures PackBits(p)[j] == PackByte(p[8 * j..Least(8 * j + 8, |p|)])
    decreases |p|
  {
    var n := Least(8, |p|);
    hide PackByte;
    hide Pow2;
    if j > 0 {
      PackBitsAt(p[n..], j - 1);
      assert PackBits(p)[1..] == PackBits(p[n..]);
      Reslice(p, n, 8 * (j - 1), Least(8 * (j - 1) + 8, |p| - n));
    }
  }

  /** Setting the next flag of a byte. */
  lemma SetFlag(p: seq<bool>, lo: nat, k: nat)
    requires k < 8 && lo + k < |p|
    ensures var x := PackByte(p[lo..lo + k]);
      x < 256 && Pow2(k) < 256 &&
      PackByte(p[lo..lo + k + 1]) == (if p[lo + k] then Or(x, Pow2(k)) else x) &&
      PackByte(p[lo..lo + k + 1]) < 256
  {
    var q, b := p[lo..lo + k], p[lo + k];
    assert p[lo..lo + k + 1] == q + [b];
    hide PackByte;
    hide Or;
    PackByteNext(q, b);
    PackByteBound(q);
    PackByteBound(q + [b]);
    Pow2Mono(k, 7);
    Pow2Mono(k + 1, 8);
    Pow2Sixty4();
    OrJoin(1, PackByte(q), k);
    OrComm(Pow2(k), PackByte(q));
  }

  /** The presence flags, eight to a byte. */
  method PackPresence(present: seq<bool>, n: nat) returns (r: bytes)
    requires |present| == n
    ensures r == PackBits(present)
  {
    hide PackBits;
    hide PackByte;
    hide Pow2;
    hide Or;
    var bits := new byte[(n + 7) / 8](_ => 0);
    forall j | 0 <= j < bits.Length ensures Flags(present, 8 * j, 0) == 0 { NoFlags(present, 8 * j); }
    for i := 0 to n
      invariant forall j :: 0 <= j < bits.Length ==> bits[j] == Flags(present, 8 * j, i)
    {
      assert i == 8 * (i / 8) + i % 8;
      SetFlag(present, 8 * (i / 8), i % 8);
      FlagsNext(present, i);
      if present[i] { bits[i / 8] := Or(bits[i / 8], Pow2(i % 8)); }
    }
    r := bits[..];
    forall j | 0 <= j < |r| ensures r[j] == PackBits(present)[j] { PackBitsAt(present, j); }
  }

  /** The byte of flags from `lo` on, of those before `i`. */
  function Flags(p: seq<bool>, lo: nat, i: nat): nat {
    if i <= lo || lo > |p| then 0 else PackByte(p[lo..Least(lo + 8, Least(i, |p|))])
  }

  lemma NoFlags(p: seq<bool>, lo: nat)
    ensures Flags(p, lo, 0) == 0
  {
  }

  lemma FlagsNext(p: seq<bool>, i: nat)
    requires i < |p|
    ensures forall j: nat :: j != i / 8 ==> Flags(p, 8 * j, i + 1) == Flags(p, 8 * j, i)
    ensures Flags(p, 8 * (i / 8), i + 1) == PackByte(p[8 * (i / 8)..i + 1])
    ensures Flags(p, 8 * (i / 8), i) == PackByte(p[8 * (i / 8)..i])
  {
    forall j: nat | j != i / 8 ensures Flags(p, 8 * j, i + 1) == Flags(p, 8 * j, i) {
      assert i < 8 * j || i >= 8 * j + 8;
    }
  }

  method EncodeRun(r: Run) returns (b: bytes)
    ensures b == PutRun(r)
  {
    hide PutKv;
    hide LE;
    var e := new Buf();
    e.Int(4, r.id);
    e.Int(4, r.index);
    e.Kv(r.params);
    Assoc(LE(4, r.id), LE(4, r.index), PutKv(r.params, []));
    assert [] + LE(4, r.id) == LE(4, r.id);
    b := e.b;
  }

  method EncodeHold(h: HoldState, n: nat) returns (b: bytes)
    requires |h.present| == n
    ensures b == HoldPayload(h)
  {
    hide PackBits;
    hide LE;
    hide HoldPayload;
    var e := new Buf();
    e.Int(8, h.base);
    e.Int(4, h.runID);
    e.Int(4, 0);
    var bits := PackPresence(h.present, n);
    e.Raw(bits);
    e.Raw(h.record);
    HoldBytes(h, bits, e.b);
    b := e.b;
  }

  method EncodeSync(seqNo: u64, wall: u64) returns (b: bytes)
    ensures b == SyncPayload(seqNo, wall)
  {
    hide LE;
    var e := new Buf();
    e.Raw(SYNC_PATTERN);
    e.Int(8, seqNo);
    e.Int(8, wall);
    assert [] + SYNC_PATTERN == SYNC_PATTERN;
    assert LE(8, wall) + [] == LE(8, wall);
    Assoc(SYNC_PATTERN, LE(8, seqNo), LE(8, wall));
    b := e.b;
  }

  lemma RaggedBefore(ws: WState, was: WState)
    requires Ragged(ws) && ws.streams == was.streams && ws.hold == was.hold
    ensures Ragged(was)
  {
    hide HoldFits;
  }

  lemma SoundNotRagged(ws: WState)
    requires Sound(ws)
    ensures !Ragged(ws)
  {
    hide HoldFits;
    forall k | 0 <= k < |ws.streams| ensures ws.streams[k] in ws.streams { }
  }

  lemma OpensWith(ws: WState, wall: u64)
    ensures Writing.OpenSegment(ws, wall) == Emit(ws, FRAME_SYNC, 0, SyncPayload(ws.seqNo, wall), Nothing).(
      seqNo := (ws.seqNo + 1) % Bytes.TWO64, inSeg := true,
      curRun := map[], pastRun := map[], segStep := map[], segRuns := map[])
    ensures Emit(ws, FRAME_SYNC, 0, SyncPayload(ws.seqNo, wall), Nothing).seqNo == ws.seqNo
    ensures forall at: nat, f: Frame, m: bool :: EchoOf(Event(at, f, Nothing), Event(at, f, Nothing), m)
  {
    hide SyncPayload;
  }

  /** Some held value does not decode under its own schema. */
  ghost predicate Ragged(ws: WState) {
    exists k :: 0 <= k < |ws.streams| && ws.streams[k].uuid in ws.hold && !HoldFits(ws.streams[k], ws.hold[ws.streams[k].uuid])
  }

  method EncodeData(base: u64, count: u32, runID: u32, codec: byte, filter: byte, raw: nat, stored: bytes)
    returns (b: bytes)
    ensures b == DataPayload(base, count, runID, codec, filter, raw, stored)
  {
    ghost var whole := DataPayload(base, count, runID, codec, filter, raw, stored);
    ghost var t6 := LE(8, raw) + stored;
    ghost var t5 := LE(2, 0) + t6;
    ghost var t4 := [filter] + t5;
    ghost var t3 := [codec] + t4;
    ghost var t2 := LE(4, runID) + t3;
    ghost var t1 := LE(4, count) + t2;
    hide LE;
    var e := new Buf();
    assert [] + whole == whole;
    AppendInt(e, 8, base, t1, whole);
    AppendInt(e, 4, count, t2, whole);
    AppendInt(e, 4, runID, t3, whole);
    AppendByte(e, codec, t4, whole);
    AppendByte(e, filter, t5, whole);
    AppendInt(e, 2, 0, t6, whole);
    AppendInt(e, 8, raw, stored, whole);
    e.Raw(stored);
    b := e.b;
  }

  /** The transpose covers the fixed portion only; tails follow as they are. */
  method ApplyFilter(filter: byte, s: Schema, count: u32, records: bytes) returns (payload: bytes)
    requires filter == FILTER_TRANSPOSE ==> count * s.RecordBytes() <= |records|
    ensures payload == FilterRecords(filter, s, count, records)
  {
    hide Transposed;
    payload := records;
    if filter == FILTER_TRANSPOSE {
      var fixed := count * s.RecordBytes();
      payload := TransposeRecords(records[..fixed], s.RecordBytes());
      if fixed < |records| { payload := payload + records[fixed..]; }
      else { assert records[fixed..] == [] && payload + [] == payload; }
    }
  }

  /** A self-relative index: an absolute offset would be wrong as soon as the file
      is appended to another. */
  method EncodeIndex(order: seq<bytes>, index: map<bytes, seq<Entry>>, base: nat) returns (b: bytes)
    requires forall u :: u in order ==> u in index
    requires forall u, en :: u in index && en in index[u] ==> en.offset <= base
    ensures b == LE(4, |order|) + PutGroups(order, index, base)
  {
    hide LE;
    var e := new Buf();
    ghost var whole := LE(4, |order|) + PutGroups(order, index, base);
    assert [] + whole == whole;
    AppendInt(e, 4, |order|, PutGroups(order, index, base), whole);
    assert order[0..] == order;
    for i := 0 to |order|
      invariant Upto(e.b, PutGroups(order[i..], index, base), whole)
    {
      assert order[i..][1..] == order[i + 1..];
      AppendGroup(e, order[i], index[order[i]], base, PutGroups(order[i + 1..], index, base), whole);
    }
    assert order[|order|..] == [];
    b := e.b;
    assert b + [] == b;
  }

  method AppendGroup(e: Buf, u: bytes, es: seq<Entry>, base: nat, ghost rest: bytes, ghost whole: bytes)
    requires forall en :: en in es ==> en.offset <= base
    requires Upto(e.b, u + (LE(4, |es|) + PutEntries(es, base, rest)), whole)
    modifies e
    ensures Upto(e.b, rest, whole)
  {
    hide LE;
    Advance(e.b, u, LE(4, |es|) + PutEntries(es, base, rest), whole);
    e.Raw(u);
    AppendInt(e, 4, |es|, PutEntries(es, base, rest), whole);
    assert es[0..] == es;
    for i := 0 to |es|
      invariant Upto(e.b, PutEntries(es[i..], base, rest), whole)
    {
      assert es[i..][1..] == es[i + 1..];
      var en := es[i];
      assert en in es;
      ghost var t3 := PutEntries(es[i + 1..], base, rest);
      ghost var t2 := LE(4, en.runID) + t3;
      ghost var t1 := LE(4, en.records) + t2;
      assert PutEntries(es[i..], base, rest) == LE(8, base - en.offset) + (LE(8, en.first) + t1);
      AppendInt(e, 8, base - en.offset, LE(8, en.first) + t1, whole);
      AppendInt(e, 8, en.first, t1, whole);
      AppendInt(e, 4, en.records, t2, whole);
      AppendInt(e, 4, en.runID, t3, whole);
    }
    assert es[|es|..] == [];
  }

  /** A hook hears what was logged: a schema or a restatement as the caller spelled
      it, and of a DATA frame only that it was written. */
  ghost predicate EchoOf(h: Event, l: Event, muffled: bool) {
    h.at == l.at && h.frame == l.frame && Paired(h) &&
    match l.out
    case Bound(s, id) => h.out.Bound? && h.out.id == id && Norm(h.out.schema) == s
    case HeldValues(x) =>
      if h.out.HeldValues? then Norm(h.out.held.schema) == x.schema && h.out.held.(schema := x.schema) == x
      else muffled && h.out == Nothing
    case _ => h.out == Nothing
  }

  ghost predicate Echoes(hs: seq<Event>, ls: seq<Event>, muffled: bool) {
    |hs| == |ls| && forall i :: 0 <= i < |hs| ==> EchoOf(hs[i], ls[i], muffled)
  }

  lemma EchoesMuffled(hs: seq<Event>, ls: seq<Event>)
    requires Echoes(hs, ls, false)
    ensures Echoes(hs, ls, true)
  {
  }

  lemma EchoOn(hs: seq<Event>, ls: seq<Event>, h: Event, l: Event, muffled: bool)
    requires Echoes(hs, ls, muffled) && EchoOf(h, l, muffled)
    ensures Echoes(hs + [h], ls + [l], muffled)
  {
    hide EchoOf;
  }

  /** Held values have one flag a field, and belong to a stream of the writer. */
  ghost predicate Matched(ss: seq<Schema>, hold: map<bytes, HoldState>) {
    (forall k :: 0 <= k < |ss| && ss[k].uuid in hold ==>
      |hold[ss[k].uuid].present| == |ss[k].fields| && |hold[ss[k].uuid].record| >= ss[k].RecordBytes()) &&
    (forall u :: u in hold ==> exists k :: 0 <= k < |ss| && ss[k].uuid == u)
  }

  predicate SameLayout(a: Schema, b: Schema) { |a.fields| == |b.fields| && a.RecordBytes() == b.RecordBytes() }

  /** Streams of one name lay their records out alike, so that a hold fits them all. */
  ghost predicate OneLayout(ss: seq<Schema>) {
    forall i, j :: 0 <= i < |ss| && 0 <= j < |ss| && ss[i].uuid == ss[j].uuid ==> SameLayout(ss[i], ss[j])
  }

  lemma MatchedMore(ss: seq<Schema>, s: Schema, hold: map<bytes, HoldState>)
    requires Matched(ss, hold) && OneLayout(ss)
    requires forall k :: 0 <= k < |ss| && ss[k].uuid == s.uuid ==> SameLayout(ss[k], s)
    ensures Matched(ss + [s], hold) && OneLayout(ss + [s])
  {
    var all := ss + [s];
    forall u | u in hold ensures exists k :: 0 <= k < |all| && all[k].uuid == u {
      var k :| 0 <= k < |ss| && ss[k].uuid == u;
      assert all[k].uuid == u;
    }
    if s.uuid in hold {
      var k :| 0 <= k < |ss| && ss[k].uuid == s.uuid;
      assert SameLayout(ss[k], s);
    }
  }

  /** A schema lays records out as any stream of its name already does. */
  ghost predicate Suits(ds: seq<Declaration>, s: Schema)
    reads ds
  {
    forall k :: 0 <= k < |ds| && ds[k].schema.uuid == s.uuid ==> SameLayout(ds[k].schema, s)
  }

  /** Whatever stream of that name a hold is for, it fits. */
  lemma MatchedSet(ss: seq<Schema>, hold: map<bytes, HoldState>, k: nat, h: HoldState)
    requires Matched(ss, hold) && OneLayout(ss) && k < |ss|
    requires |h.present| == |ss[k].fields| && |h.record| >= ss[k].RecordBytes()
    ensures Matched(ss, hold[ss[k].uuid := h])
  {
    forall j | 0 <= j < |ss| && ss[j].uuid == ss[k].uuid ensures SameLayout(ss[k], ss[j]) { }
  }

  lemma DropOne(rs: seq<Run>, id: u32)
    requires rs != []
    ensures DropRuns(rs, id) == (if rs[0].id == id then [] else [rs[0]]) + DropRuns(rs[1..], id)
    ensures [] + DropRuns(rs[1..], id) == DropRuns(rs[1..], id)
  {
  }

  lemma Assoc2<T>(a: seq<T>, b: seq<T>, c: seq<T>)
    ensures a + (b + c) == (a + b) + c
  {
  }

  lemma BatchedIsRecords(s: Schema, base: u64, runID: u32, count: u32, records: bytes, runs: map<u32, Run>)
    ensures Batched(s, base, runID, count, records, runs).Records?
  {
    hide TailsOf;
  }

  /** How a batch fares, branch by branch. */
  lemma BatchFares(z: Zip, ws: WState, k: nat, base: u64, runID: u32, count: u32, records: bytes)
    requires k < |ws.streams|
    ensures var s := ws.streams[k];
      var w := BatchState(ws, s, base, runID, count);
      WriteBatch(z, ws, k, base, runID, count, records) ==
        if !StepDeclared(ws, s) then Failed(StepChanged, ws)
        else if !RunAllowed(ws, s.uuid, runID) then Failed(RunInterleaved, ws)
        else if ws.filter == FILTER_TRANSPOSE && count * s.RecordBytes() > |records| then Failed(TooShort, w)
        else if ws.codec != CODEC_NONE && !Compresses(ws.codec) then Failed(UnknownCodec, w)
        else Done(Emit(w, FRAME_DATA, Id(k), DataFrame(z, s, base, runID, count, ws.codec, ws.filter, records),
                       Batched(s, base, runID, count, records, ws.segRuns)))
  {
    hide TailsOf;
    hide FilterRecords;
    hide DataPayload;
    hide Norm;
  }

  lemma NoteRunKeeps(ws: WState, u: bytes, runID: u32)
    ensures var w := NoteRun(ws, u, runID); w == ws.(curRun := w.curRun, pastRun := w.pastRun)
  {
  }

  lemma StepIs(ws: WState, s: Schema)
    ensures StepDeclared(ws, s) <==> s.uuid !in ws.segStep || ws.segStep[s.uuid] == s.axisStep
  {
  }

  lemma BatchStateIs(ws: WState, s: Schema, base: u64, runID: u32, count: u32)
    ensures BatchState(ws, s, base, runID, count)
         == Writing.NoteEntry(NoteRun(ws, s.uuid, runID), s.uuid, Entry(ws.off, base, count, runID))
  {
    hide NoteRun;
  }

  lemma BatchDecodes(z: Zip, ws: WState, k: nat, base: u64, runID: u32, count: u32, records: bytes)
    requires k < |ws.streams|
    ensures WriteBatch(z, ws, k, base, runID, count, records).Failed? ==>
      WriteBatch(z, ws, k, base, runID, count, records).e != Undecodable
  {
    hide TailsOf;
    hide FilterRecords;
    hide DataPayload;
    hide Norm;
  }

  class Writer {
    const z: Zip
    const table: seq<nat>
    var sink: bytes
    var off: nat
    var streams: seq<Declaration>
    var runs: seq<Run>
    var nextID: u16
    var seqNo: u64
    var inSeg: bool
    var codec: byte
    var filter: byte
    var index: map<bytes, seq<Entry>>
    var order: seq<bytes>
    var curRun: map<bytes, u32>
    var pastRun: map<bytes, set<u32>>
    var segStep: map<bytes, u64>
    var hold: map<bytes, HoldState>
    /** The calls its hooks got, in order, when it has hooks: one for each frame,
        with what a schema or a restatement was. */
    var hooked: bool
    var heard: seq<Event>
    ghost var log: seq<Event>
    ghost var segRuns: map<u32, Run>
    /** Some restatement did not decode, so its hook was not called. */
    ghost var muffled: bool

    ghost function View(): WState
      reads this, streams
    {
      WState(log, off, SchemasOf(streams), runs, seqNo, inSeg, codec, filter, index, order,
             curRun, pastRun, segStep, hold, segRuns)
    }

    ghost predicate Valid()
      reads this, streams
    {
      Sunk(table, sink, off, log) && Tagged(streams, nextID) && IndexSane(View()) && Matched(SchemasOf(streams), hold) &&
      OneLayout(SchemasOf(streams)) && (hooked ==> Echoes(heard, log, muffled))
    }

    static method Head(t: seq<nat>) returns (b: bytes)
      requires Crc.IsTable(t)
      ensures b == FileHeader()
    {
      hide Crc.IsTable;
      var e := new Buf();
      e.Raw(MAGIC);
      e.Int(2, 0);
      e.Int(2, 1);
      var sum := Crc.Checksum(e.b, 0, t);
      assert e.b == MAGIC + LE(2, 0) + LE(2, 1);
      e.Int(4, sum);
      b := e.b;
    }

    /** Writes the file header. */
    constructor (zip: Zip, hooks: bool)
      ensures Valid() && View() == START && hooked == hooks && heard == [] && z == zip && !muffled
      ensures streams == []
    {
      z := zip;
      var t := Crc.CrcTable();
      table := t;
      var h := Head(t);
      sink, off := h, |h|;
      streams, runs, nextID, seqNo, inSeg := [], [], 0, 0, false;
      codec, filter := CODEC_NONE, FILTER_NONE;
      index, order, curRun, pastRun, segStep, hold := map[], [], map[], map[], map[], map[];
      hooked, heard := hooks, [];
      log, segRuns, muffled := [], map[], false;
      new;
      hide Crc.IsTable;
      hide FileHeader;
      assert FramesBytes(FramesOf(log)) == [];
      assert h + [] == h;
      assert SchemasOf(streams) == [];
    }

    method Write(b: bytes)
      modifies this`sink, this`off
      ensures sink == old(sink) + b && off == old(off) + |b|
    {
      sink := sink + b;
      off := off + |b|;
    }

    /** One frame's bytes: header, payload, and a checksum over both. */
    method PutFrame(f: Frame)
      requires Crc.IsTable(table) && f.flags == 0
      modifies this`sink, this`off
      ensures sink == old(sink) + FrameBytes(f) && off == old(off) + f.Size()
    {
      hide *;
      HeaderIs(f);
      ZeroFits();
      var hdr := LE(4, |f.payload|) + [f.typ, 0] + LE(2, f.id);
      Crc.CrcBound(hdr, 0);
      var sum := Crc.Checksum(hdr, 0, table);
      sum := Crc.Checksum(f.payload, sum, table);
      FrameBytesIs(f);
      Write(hdr);
      Write(f.payload);
      Write(LE(4, sum));
      Assoc(old(sink) + hdr, f.payload, LE(4, sum));
      Assoc(old(sink), hdr, f.payload + LE(4, sum));
      Assoc(hdr, f.payload, LE(4, sum));
    }

    /** The frame is logged as what a reader will make of it; a hook hears of it
        with `echo`. */
    method SinkFrame(f: Frame, ghost out: Outcome, echo: Outcome)
      requires Sunk(table, sink, off, log) && f.flags == 0 && (hooked ==> Echoes(heard, log, muffled))
      requires hooked ==> EchoOf(Event(0, f, echo), Event(0, f, out), muffled)
      modifies this`sink, this`off, this`heard, this`log
      ensures old(heard) <= heard
      ensures Sunk(table, sink, off, log) && off == old(off) + f.Size() && log == old(log) + [Event(old(off), f, out)]
      ensures hooked ==> Echoes(heard, log, muffled)
    {
      hide FrameBytes;
      hide FramesBytes;
      hide FramesOf;
      hide FileHeader;
      hide Crc.IsTable;
      var at := off;
      PutFrame(f);
      if hooked { heard := heard + [Event(at, f, echo)]; }
      SinkGrows(log, Event(at, f, out));
      Assoc(FileHeader(), FramesBytes(FramesOf(log)), FrameBytes(f));
      if hooked { EchoOn(old(heard), log, Event(at, f, echo), Event(at, f, out), muffled); }
      log := log + [Event(at, f, out)];
    }

    method EmitFrame(typ: byte, id: u16, payload: bytes, ghost out: Outcome, echo: Outcome)
      requires Valid()
      requires hooked ==> EchoOf(Event(0, Frame(typ, 0, id, payload), echo), Event(0, Frame(typ, 0, id, payload), out), muffled)
      modifies this`sink, this`off, this`heard, this`log
      ensures old(heard) <= heard
      ensures Valid() && View() == Emit(old(View()), typ, id, payload, out)
    {
      hide SchemasOf;
      hide Sunk;
      hide Tagged;
      hide IndexSane;
      hide Echoes;
      hide EchoOf;
      hide Matched;
      hide OneLayout;
      ghost var v := View();
      SinkFrame(Frame(typ, 0, id, payload), out, echo);
      SaneGrown(v, View());
    }

    // --- the preamble's frames ---------------------------------------------------------------------

    /** What this segment claims a stream's interval is, and its schema. */
    method WriteSchema(s: Declaration, ghost k: nat)
      requires Valid() && k < |streams| && streams[k] == s
      modifies this`sink, this`off, this`heard, this`log, this`segStep
      ensures old(heard) <= heard
      ensures Valid() && View() == Writing.WriteSchema(old(View()), k)
    {
      hide Sunk;
      hide IndexSane;
      hide Echoes;
      hide Matched;
      hide OneLayout;
      hide PutSchema;
      hide Norm;
      ghost var v := View();
      segStep := segStep[s.schema.uuid := s.schema.axisStep];
      SaneGrown(v, View());
      var b := EncodeSchema(s.schema);
      EmitFrame(FRAME_SCHEMA, s.id, b, Bound(Norm(s.schema), s.id), Bound(s.schema, s.id));
    }

    method WriteRun(r: Run)
      requires Valid()
      modifies this`sink, this`off, this`heard, this`log, this`segRuns
      ensures old(heard) <= heard
      ensures Valid() && View() == Writing.WriteRun(old(View()), r)
    {
      hide SchemasOf;
      hide Sunk;
      hide IndexSane;
      hide Echoes;
      hide Matched;
      hide OneLayout;
      hide Tagged;
      hide PutRun;
      ghost var v := View();
      segRuns := segRuns[r.id := r];
      SaneGrown(v, View());
      var b := EncodeRun(r);
      EmitFrame(FRAME_RUN, 0, b, Nothing, Nothing);
    }

    method WriteMeta(m: Meta)
      requires Valid()
      modifies this`sink, this`off, this`heard, this`log
      ensures old(heard) <= heard
      ensures Valid() && View() == Emit(old(View()), FRAME_META, 0, MetaPayload(m), Nothing)
    {
      hide SchemasOf;
      hide Sunk;
      hide IndexSane;
      hide Echoes;
      hide Matched;
      hide OneLayout;
      hide Tagged;
      hide PutStr;
      var e := new Buf();
      e.Str(m.key);
      e.Str(m.value);
      StrTail(m.key, PutStr(m.value, []));
      assert [] + PutStr(m.key, []) == PutStr(m.key, []);
      assert e.b == MetaPayload(m);
      EmitFrame(FRAME_META, 0, e.b, Nothing, Nothing);
    }

    method WriteAttach(m: Meta)
      requires Valid()
      modifies this`sink, this`off, this`heard, this`log
      ensures old(heard) <= heard
      ensures Valid() && View() == Emit(old(View()), FRAME_ATTACH, 0, AttachPayload(m), Nothing)
    {
      hide SchemasOf;
      hide Sunk;
      hide IndexSane;
      hide Echoes;
      hide Matched;
      hide OneLayout;
      hide Tagged;
      hide PutStr;
      var e := new Buf();
      e.Str(m.key);
      e.Int(4, |m.value|);
      e.Raw(m.value);
      var n := LE(4, |m.value|);
      StrTail(m.key, n + (m.value + []));
      assert m.value + [] == m.value;
      assert [] + PutStr(m.key, []) == PutStr(m.key, []);
      Assoc(PutStr(m.key, []), n, m.value);
      assert e.b == AttachPayload(m);
      EmitFrame(FRAME_ATTACH, 0, e.b, Nothing, Nothing);
    }

    ghost method Muffle()
      requires Valid() && !muffled
      modifies this`muffled
      ensures Valid() && muffled && View() == old(View())
    {
      hide Sunk;
      hide IndexSane;
      hide Matched;
      hide Tagged;
      hide SchemasOf;
      hide OneLayout;
      if hooked { EchoesMuffled(heard, log); }
      hide Echoes;
      muffled := true;
    }

    /** A stream's held values. A hook is given them decoded back out of the bytes
        just written; if they do not decode, the call fails. */
    method WriteHold(s: Declaration, h: HoldState, ghost k: nat) returns (ok: bool)
      requires Valid() && k < |streams| && streams[k] == s
      requires s.schema.uuid in hold && hold[s.schema.uuid] == h
      requires |h.present| == |s.schema.fields| && |h.record| >= s.schema.RecordBytes()
      modifies this`sink, this`off, this`heard, this`log, this`muffled
      ensures old(heard) <= heard
      ensures Valid() && View() == Writing.WriteHold(old(View()), k)
      ensures !ok ==> hooked && !HoldFits(s.schema, h)
      ensures ok ==> muffled == old(muffled)
    {
      hide *;
      var b := EncodeHold(h, |s.schema.fields|);
      var d := DecodeHold(s.schema, b);
      HoldEchoes(s.schema, h, s.id);
      ViewSegment(k);
      if hooked && d == None && !muffled { Muffle(); }
      EmitHold(s, h, b, d, k);
      ok := !hooked || d.Some?;
    }

    method EmitHold(s: Declaration, h: HoldState, b: bytes, d: Option<Held>, ghost k: nat)
      requires Valid() && k < |streams| && streams[k] == s
      requires s.schema.uuid in hold && hold[s.schema.uuid] == h && b == HoldPayload(h) && d == DecodeHold(s.schema, b)
      requires |h.present| == |s.schema.fields| && |h.record| >= s.schema.RecordBytes()
      requires hooked && d == None ==> muffled
      modifies this`sink, this`off, this`heard, this`log
      ensures old(heard) <= heard
      ensures Valid() && View() == Writing.WriteHold(old(View()), k)
    {
      hide *;
      IdOf(k);
      ViewSegment(k);
      HoldEchoes(s.schema, h, s.id);
      HoldEmits(View(), k);
      if hooked { EchoLoose(Event(0, Frame(FRAME_HOLD, 0, s.id, b), HeldValues(Restated(s.schema, h))), d, muffled); }
      EmitFrame(FRAME_HOLD, s.id, b, HeldValues(Restated(s.schema, h)), if d == None then Nothing else HeldValues(d.value));
    }

    method SetCodec(c: byte)
      requires Valid()
      modifies this`codec
      ensures Valid() && View() == old(View()).(codec := c)
    {
      hide Sunk;
      hide Echoes;
      hide IndexSane;
      hide SchemasOf;
      hide Tagged;
      hide Matched;
      hide OneLayout;
      ghost var v := View();
      codec := c;
      SaneGrown(v, View());
    }

    method SetFilter(f: byte)
      requires Valid()
      modifies this`filter
      ensures Valid() && View() == old(View()).(filter := f)
    {
      hide Sunk;
      hide Echoes;
      hide IndexSane;
      hide SchemasOf;
      hide Tagged;
      hide Matched;
      hide OneLayout;
      ghost var v := View();
      filter := f;
      SaneGrown(v, View());
    }

    // --- segments ----------------------------------------------------------------------------------

    /** Runs and intervals are told afresh in every segment. */
    method ForgetSegment()
      requires Valid()
      modifies this`curRun, this`pastRun, this`segStep, this`segRuns
      ensures Valid() && View() == old(View()).(curRun := map[], pastRun := map[], segStep := map[], segRuns := map[])
    {
      hide Sunk;
      hide IndexSane;
      hide Echoes;
      hide Matched;
      hide OneLayout;
      hide SchemasOf;
      hide Tagged;
      ghost var v := View();
      segRuns := map[];
      curRun, pastRun, segStep := map[], map[], map[];
      SaneGrown(v, View());
    }

    method MarkSegment()
      requires Valid()
      modifies this`seqNo, this`inSeg
      ensures Valid() && View() == old(View()).(seqNo := (old(seqNo) + 1) % Bytes.TWO64, inSeg := true)
    {
      hide Sunk;
      hide IndexSane;
      hide Echoes;
      hide Matched;
      hide OneLayout;
      hide SchemasOf;
      hide Tagged;
      ghost var v := View();
      seqNo, inSeg := (seqNo + 1) % Bytes.TWO64, true;
      SaneGrown(v, View());
    }

    method OpenSegment(wall: u64)
      requires Valid()
      modifies this`sink, this`off, this`heard, this`log, this`seqNo, this`inSeg, this`curRun, this`pastRun, this`segStep, this`segRuns
      ensures old(heard) <= heard
      ensures Valid() && View() == Writing.OpenSegment(old(View()), wall)
    {
      hide *;
      ghost var v := View();
      OpensWith(v, wall);
      ViewRuns();
      var b := EncodeSync(seqNo, wall);
      EmitFrame(FRAME_SYNC, 0, b, Nothing, Nothing);
      ViewRuns();
      MarkSegment();
      ForgetSegment();
    }

    method WriteSchemas()
      requires Valid()
      modifies this`sink, this`off, this`heard, this`log, this`segStep
      ensures old(heard) <= heard
      ensures Valid() && View() == Writing.WriteSchemas(old(View()), 0)
    {
      hide *;
      ViewSegment(0);
      ghost var v := View();
      for k := 0 to |streams|
        invariant Valid() && View().streams == v.streams && old(heard) <= heard
        invariant Writing.WriteSchemas(View(), k) == Writing.WriteSchemas(v, 0)
      {
        SchemasStep(View(), k);
        WriteSchema(streams[k], k);
        ViewSegment(0);
      }
      SchemasEnd(View());
    }

    method WriteRuns()
      requires Valid()
      modifies this`sink, this`off, this`heard, this`log, this`segRuns
      ensures old(heard) <= heard
      ensures Valid() && View() == Writing.WriteRuns(old(View()), runs)
    {
      hide Sunk;
      hide IndexSane;
      hide Echoes;
      hide Matched;
      hide OneLayout;
      hide Tagged;
      hide SchemasOf;
      hide Writing.WriteRun;
      ghost var v := View();
      assert runs[0..] == runs;
      for k := 0 to |runs|
        invariant Valid() && old(heard) <= heard
        invariant Writing.WriteRuns(View(), runs[k..]) == Writing.WriteRuns(v, runs)
      {
        assert runs[k..][1..] == runs[k + 1..];
        WriteRun(runs[k]);
      }
      assert runs[|runs|..] == [];
    }

    method WriteHoldOf(k: nat) returns (ok: bool)
      requires Valid() && k < |streams|
      modifies this`sink, this`off, this`heard, this`log, this`muffled
      ensures old(heard) <= heard
      ensures Valid() && View().streams == old(View()).streams && View().hold == old(View()).hold
      ensures View() == if old(View()).streams[k].uuid in old(View()).hold then Writing.WriteHold(old(View()), k) else old(View())
      ensures !ok ==> hooked && Ragged(View())
      ensures ok ==> muffled == old(muffled)
    {
      hide Sunk;
      hide IndexSane;
      hide Echoes;
      hide Tagged;
      hide HoldFits;
      hide Restated;
      hide HoldPayload;
      var s := streams[k];
      assert SchemasOf(streams)[k] == s.schema;
      ok := true;
      if s.schema.uuid in hold { ok := WriteHold(s, hold[s.schema.uuid], k); }
    }

    /** After the runs, because a restatement names the run its values were last
        written in. */
    method WriteHolds() returns (ok: bool)
      requires Valid()
      modifies this`sink, this`off, this`heard, this`log, this`muffled
      ensures old(heard) <= heard
      ensures Valid()
      ensures ok ==> View() == Writing.WriteHolds(old(View()), 0)
      ensures !ok ==> hooked && Ragged(View())
      ensures ok ==> muffled == old(muffled)
    {
      hide *;
      ViewSegment(0);
      ghost var v := View();
      for k := 0 to |streams|
        invariant Valid() && View().streams == v.streams && View().hold == v.hold && old(heard) <= heard
        invariant muffled == old(muffled)
        invariant Writing.WriteHolds(View(), k) == Writing.WriteHolds(v, 0)
      {
        HoldsStep(View(), k);
        var done := WriteHoldOf(k);
        if !done { return false; }
      }
      HoldsEnd(View());
      ok := true;
    }

    /** A SYNC frame and a restatement of every schema, run and held value. */
    method BeginSegment(wall: u64) returns (ok: bool)
      requires Valid()
      modifies this`sink, this`off, this`heard, this`log, this`muffled, this`seqNo, this`inSeg, this`curRun, this`pastRun, this`segStep, this`segRuns
      ensures old(heard) <= heard
      ensures Valid()
      ensures ok ==> View() == Writing.BeginSegment(old(View()), wall)
      ensures !ok ==> hooked && Ragged(old(View()))
      ensures ok ==> muffled == old(muffled)
    {
      hide *;
      ghost var v := View();
      Standing();
      OpenSegment(wall);
      WriteSchemas();
      SegmentIs(v, wall);
      ViewRuns();
      WriteRuns();
      ok := WriteHolds();
      if !ok {
        Standing();
        RaggedBefore(View(), v);
      }
    }

    lemma IdOf(k: nat)
      requires Valid() && k < |streams|
      ensures streams[k].id == Id(k) && View().streams[k] == streams[k].schema && View().hold == hold
    {
      hide Sunk;
      hide Echoes;
      hide IndexSane;
      hide Matched;
      hide OneLayout;
    }

    /** The bytes written are the file of the writer's state. */
    lemma SinkIsFile()
      requires Valid()
      ensures sink == FileOf(View())
    {
      hide Tagged;
      hide IndexSane;
      hide Matched;
      hide OneLayout;
      hide FramesBytes;
    }

    lemma ViewSane()
      requires Valid()
      ensures IndexSane(View()) && forall d :: d in streams ==> allocated(d)
    {
      hide Sunk;
      hide Tagged;
      hide IndexSane;
      hide Matched;
      hide OneLayout;
    }

    lemma ViewRuns()
      ensures View().runs == runs && View().seqNo == seqNo
    {
    }

    // --- what the caller declares --------------------------------------------------------------------

    method Register(s: Declaration)
      requires Valid() && s !in streams && Suits(streams, s.schema)
      modifies this`streams, this`nextID, s`id
      ensures Valid() && View() == old(View()).(streams := old(View()).streams + [s.schema])
      ensures streams == old(streams) + [s]
    {
      hide Sunk;
      hide Echoes;
      hide IndexSane;
      hide OneLayout;
      hide Matched;
      hide SameLayout;
      ghost var v := View();
      assert forall k :: 0 <= k < |v.streams| && v.streams[k].uuid == s.schema.uuid ==> SameLayout(v.streams[k], s.schema);
      s.id := nextID;
      nextID := (nextID + 1) % TWO16;
      streams := streams + [s];
      assert SchemasOf(streams) == v.streams + [s.schema];
      MatchedMore(v.streams, s.schema, hold);
      SaneGrown(v, View());
    }

    /** Checks a schema, gives it the next tag and, inside a segment, states it. */
    method AddStream(s: Declaration) returns (e: Option<Error>)
      requires Valid() && s !in streams && Suits(streams, s.schema)
      modifies this`streams, this`nextID, s`id, this`sink, this`off, this`heard, this`log, this`segStep
      ensures old(heard) <= heard
      ensures Valid()
      ensures match Writing.AddStream(old(View()), s.schema)
        case Done(ws) => e == None && View() == ws && streams == old(streams) + [s]
        case Failed(err, ws) => e == Some(err) && View() == ws && streams == old(streams)
    {
      hide Sunk;
      hide Echoes;
      hide IndexSane;
      hide Matched;
      hide OneLayout;
      hide Tagged;
      hide SchemasOf;
      hide ValidSchema;
      hide Writing.WriteSchema;
      if s.schema.uuid == ZERO_UUID { return Some(ZeroUuid); }
      if !ValidSchema(s.schema) { return Some(BadSchema); }
      ghost var n := |streams|;
      Register(s);
      if inSeg { WriteSchema(s, n); }
      return None;
    }

    method AddRun(r: Run)
      requires Valid()
      modifies this`runs, this`sink, this`off, this`heard, this`log, this`segRuns
      ensures old(heard) <= heard
      ensures Valid() && View() == Writing.AddRun(old(View()), r)
    {
      hide Sunk;
      hide Echoes;
      hide IndexSane;
      hide Matched;
      hide OneLayout;
      hide Tagged;
      hide SchemasOf;
      hide Writing.WriteRun;
      ghost var v := View();
      runs := runs + [r];
      SaneGrown(v, View());
      if inSeg { WriteRun(r); }
    }

    /** Drops every run with this id, in place. */
    method EndRun(id: u32)
      requires Valid()
      modifies this`runs
      ensures Valid() && View() == old(View()).(runs := DropRuns(old(runs), id))
    {
      hide Sunk;
      hide Echoes;
      hide IndexSane;
      hide Matched;
      hide OneLayout;
      hide Tagged;
      hide SchemasOf;
      ghost var v := View();
      var kept, rs := [], runs;
      assert rs[0..] == rs;
      for i := 0 to |rs|
        invariant View() == v && Valid() && kept + DropRuns(rs[i..], id) == DropRuns(rs, id)
      {
        DropOne(rs[i..], id);
        assert rs[i..][1..] == rs[i + 1..];
        if rs[i].id != id {
          Assoc2(kept, [rs[i]], DropRuns(rs[i + 1..], id));
          kept := kept + [rs[i]];
        }
      }
      assert rs[|rs|..] == [];
      assert kept + [] == kept;
      runs := kept;
      SaneGrown(v, View());
    }

    /** Remembers a stream's held values, to be restated in every segment opened
        from now on. */
    method SetHold(s: Declaration, h: HoldState, ghost k: nat) returns (e: Option<Error>)
      requires Valid() && k < |streams| && streams[k] == s
      modifies this`hold
      ensures Valid()
      ensures match Writing.SetHold(old(View()), k, h)
        case Done(ws) => e == None && View() == ws
        case Failed(err, ws) => e == Some(err) && View() == ws
    {
      hide Sunk;
      hide Echoes;
      hide IndexSane;
      hide Tagged;
      assert SchemasOf(streams)[k] == s.schema;
      if |h.present| != |s.schema.fields| { return Some(BadHold); }
      if |h.record| < s.schema.RecordBytes() { return Some(BadHold); }
      ghost var v := View();
      hold := hold[s.schema.uuid := h];
      MatchedSet(v.streams, v.hold, k, h);
      SaneGrown(v, View());
      return None;
    }

    method ClearHold(s: Declaration, ghost k: nat)
      requires Valid() && k < |streams| && streams[k] == s
      modifies this`hold
      ensures Valid() && View() == old(View()).(hold := old(hold) - {s.schema.uuid})
    {
      hide Sunk;
      hide Echoes;
      hide IndexSane;
      hide Tagged;
      hide SchemasOf;
      ghost var v := View();
      hold := hold - {s.schema.uuid};
      SaneGrown(v, View());
    }

    // --- records -----------------------------------------------------------------------------------------

    method MarkRun(u: bytes, runID: u32)
      requires Valid() && !(u in curRun && curRun[u] == runID)
      modifies this`curRun, this`pastRun
      ensures Valid() && View() == NoteRun(old(View()), u, runID)
    {
      hide Sunk;
      hide Echoes;
      hide IndexSane;
      hide Tagged;
      hide SchemasOf;
      hide Matched;
      hide OneLayout;
      ghost var v := View();
      if u in curRun {
        var past := if u in pastRun then pastRun[u] else {};
        pastRun := pastRun[u := past + {curRun[u]}];
      }
      curRun := curRun[u := runID];
      SaneGrown(v, View());
    }

    /** Follows a stream's runs: it may not come back to one it has left. */
    method EnterRun(u: bytes, runID: u32) returns (ok: bool)
      requires Valid()
      modifies this`curRun, this`pastRun
      ensures Valid() && ok == RunAllowed(old(View()), u, runID)
      ensures View() == if ok then NoteRun(old(View()), u, runID) else old(View())
    {
      hide Valid;
      hide SchemasOf;
      if !(u in curRun && curRun[u] == runID) {
        if u in pastRun && runID in pastRun[u] { return false; }
        MarkRun(u, runID);
      }
      return true;
    }

    method NoteEntry(u: bytes, e: Entry)
      requires Valid() && e.offset <= off
      modifies this`index, this`order
      ensures Valid() && View() == Writing.NoteEntry(old(View()), u, e)
    {
      hide Sunk;
      hide Echoes;
      hide IndexSane;
      hide Tagged;
      hide SchemasOf;
      hide Matched;
      hide OneLayout;
      ghost var v := View();
      SaneEntry(v, u, e);
      var first := u !in index;
      index := index[u := if first then [e] else index[u] + [e]];
      if first { order := order + [u]; }
    }

    method EmitBatch(s: Declaration, base: u64, runID: u32, count: u32, records: bytes, ghost k: nat, ghost v: WState)
      requires Valid() && k < |streams| && streams[k] == s
      requires View() == BatchState(v, s.schema, base, runID, count) && v.segRuns == segRuns
      requires codec == CODEC_NONE || Compresses(codec)
      requires filter == FILTER_TRANSPOSE ==> count * s.schema.RecordBytes() <= |records|
      modifies this`sink, this`off, this`heard, this`log
      ensures old(heard) <= heard
      ensures Valid()
      ensures View() == Emit(BatchState(v, s.schema, base, runID, count), FRAME_DATA, Id(k),
        DataFrame(z, s.schema, base, runID, count, codec, filter, records),
        Batched(s.schema, base, runID, count, records, v.segRuns))
    {
      hide Sunk;
      hide Echoes;
      hide IndexSane;
      hide SchemasOf;
      hide Matched;
      hide OneLayout;
      hide BatchState;
      hide Batched;
      hide DataPayload;
      hide FilterRecords;
      var payload := ApplyFilter(filter, s.schema, count, records);
      var stored := if codec == CODEC_NONE then payload else z.pack(codec, payload);
      var b := EncodeData(base, count, runID, codec, filter, |payload|, stored);
      BatchedIsRecords(s.schema, base, runID, count, records, v.segRuns);
      EmitFrame(FRAME_DATA, s.id, b, Batched(s.schema, base, runID, count, records, v.segRuns), Nothing);
    }

    /** A batch inside a segment. The index grows before the batch is known to be
        writable. */
    method WriteBatch(s: Declaration, base: u64, runID: u32, count: u32, records: bytes, ghost k: nat) returns (e: Option<Error>)
      requires Valid() && k < |streams| && streams[k] == s
      modifies this`curRun, this`pastRun, this`index, this`order, this`sink, this`off, this`heard, this`log
      ensures old(heard) <= heard
      ensures Valid()
      ensures Writing.WriteBatch(z, old(View()), k, base, runID, count, records) ==
        match e case None => Done(View()) case Some(err) => Failed(err, View())
    {
      hide *;
      ghost var v := View();
      ViewSettings(k);
      BatchFares(z, v, k, base, runID, count, records);
      var u := s.schema.uuid;
      StepIs(v, s.schema);
      if u in segStep && segStep[u] != s.schema.axisStep { return Some(StepChanged); }
      var ok := EnterRun(u, runID);
      if !ok { return Some(RunInterleaved); }
      NoteRunKeeps(v, u, runID);
      ViewSettings(k);
      NoteEntry(u, Entry(off, base, count, runID));
      BatchStateIs(v, s.schema, base, runID, count);
      if filter == FILTER_TRANSPOSE && count * s.schema.RecordBytes() > |records| { return Some(TooShort); }
      if codec != CODEC_NONE && !Compresses(codec) { return Some(UnknownCodec); }
      EmitBatch(s, base, runID, count, records, k, v);
      return None;
    }

    /** Opens a segment when there is none. */
    method WriteData(s: Declaration, base: u64, runID: u32, count: u32, records: bytes, ghost k: nat) returns (e: Option<Error>)
      requires Valid() && k < |streams| && streams[k] == s
      modifies this`curRun, this`pastRun, this`index, this`order, this`sink, this`off, this`heard, this`log, this`muffled
      modifies this`seqNo, this`inSeg, this`segStep, this`segRuns
      ensures old(heard) <= heard
      ensures Valid()
      ensures e == Some(Undecodable) ==> hooked && Ragged(old(View()))
      ensures e != Some(Undecodable) ==>
        Writing.WriteData(z, old(View()), k, base, runID, count, records) ==
          match e case None => Done(View()) case Some(err) => Failed(err, View())
      ensures e == None ==> muffled == old(muffled)
    {
      hide *;
      ghost var v := View();
      ViewSegment(k);
      DataUnfold(z, v, k, base, runID, count, records);
      BatchDecodes(z, if v.inSeg then v else Writing.BeginSegment(v, 0), k, base, runID, count, records);
      if !inSeg {
        var ok := BeginSegment(0);
        if !ok { return Some(Undecodable); }
      }
      e := WriteBatch(s, base, runID, count, records, k);
    }

    lemma ViewSettings(k: nat)
      requires k < |streams|
      ensures |View().streams| == |streams| && View().streams[k] == streams[k].schema
      ensures View().segStep == segStep && View().filter == filter && View().codec == codec && View().off == off
      ensures View().segRuns == segRuns
    {
    }

    lemma Heard()
      requires Valid() && hooked
      ensures |heard| == |log| && View().log == log && Echoes(heard, log, muffled)
    {
      hide Sunk;
      hide IndexSane;
      hide Matched;
      hide Tagged;
      hide SchemasOf;
      hide OneLayout;
      hide EchoOf;
    }

    lemma Standing()
      ensures View().streams == SchemasOf(streams) && View().hold == hold
    {
    }

    lemma ViewSegment(k: nat)
      ensures View().inSeg == inSeg && |View().streams| == |streams|
    {
    }

    /** The index, and a frame that says the file was closed. */
    method Close()
      requires Valid()
      modifies this`sink, this`off, this`heard, this`log
      ensures old(heard) <= heard
      ensures Valid() && View() == Writing.Close(old(View()))
    {
      hide Sunk;
      hide Echoes;
      hide Tagged;
      hide SchemasOf;
      hide Matched;
      hide OneLayout;
      hide PutGroups;
      var b := EncodeIndex(order, index, off);
      EmitFrame(FRAME_INDEX, 0, b, Nothing, Nothing);
      EmitFrame(FRAME_END, 0, [], Nothing, Nothing);
    }
  }

  /** The caller changes the interval of a schema it has handed over. */
  method Restep(w: Writer, s: Declaration, ghost k: nat, step: u64)
    requires w.Valid() && k < |w.streams| && w.streams[k] == s
    modifies s`schema
    ensures w.Valid()
    ensures w.View() == old(w.View()).(streams := old(w.View()).streams[k := old(s.schema).(axisStep := step)])
  {
    hide Sunk;
    hide Echoes;
    hide IndexSane;
    hide Matched;
    hide OneLayout;
    ghost var v := w.View();
    RestepFits(v.streams, w.hold, k, step);
    s.schema := s.schema.(axisStep := step);
    assert w.View().streams == v.streams[k := v.streams[k].(axisStep := step)];
    SaneGrown(v, w.View());
  }

  lemma RestepFits(ss: seq<Schema>, hold: map<bytes, HoldState>, k: nat, step: u64)
    requires k < |ss| && Matched(ss, hold) && OneLayout(ss)
    ensures var now := ss[k := ss[k].(axisStep := step)];
      Matched(now, hold) && OneLayout(now)
  {
    var now := ss[k := ss[k].(axisStep := step)];
    forall i | 0 <= i < |ss| ensures now[i].uuid == ss[i].uuid && SameLayout(now[i], ss[i]) { }
    forall u | u in hold ensures exists j :: 0 <= j < |now| && now[j].uuid == u {
      var j :| 0 <= j < |ss| && ss[j].uuid == u;
      assert now[j].uuid == u;
    }
    forall i, j | 0 <= i < |now| && 0 <= j < |now| && now[i].uuid == now[j].uuid ensures SameLayout(now[i], now[j]) {
      assert SameLayout(ss[i], ss[j]);
    }
  }
}
