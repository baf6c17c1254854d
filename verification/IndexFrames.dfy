/** The INDEX frame: a list of where the batches are, told as distances backwards,
    so that it stays right wherever its file lands. */
module IndexFrames {
  import opened Bytes
  import opened Wire
  import opened Format
  import opened Frames
  import opened Records
  import opened Reading
  import opened Writing
  import opened Recording
  import opened Runs
  import opened Guarantees

  datatype BackEntry = BackEntry(back: u64, first: u64, records: u32, runID: u32)
  datatype Group = Group(uuid: bytes, entries: seq<BackEntry>)

  // --- reading an INDEX payload ---------------------------------------------------------------

  function TakeEntry(s: bytes): Parsed<BackEntry> {
    var (back, s1) :- TakeU64(s);
    var (first, s2) :- TakeU64(s1);
    var (records, s3) :- TakeU32(s2);
    var (runID, s4) :- TakeU32(s3);
    Good(BackEntry(back, first, records, runID), s4)
  }

  function TakeEntries(n: nat, s: bytes, acc: seq<BackEntry>): Parsed<seq<BackEntry>>
    decreases n
  {
    if n == 0 then Good(acc, s)
    else
      var (e, s1) :- TakeEntry(s);
      TakeEntries(n - 1, s1, acc + [e])
  }

  function TakeGroup(s: bytes): Parsed<Group> {
    var (uuid, s1) :- TakeRaw(16, s);
    var (n, s2) :- TakeU32(s1);
    var (es, s3) :- TakeEntries(n, s2, []);
    Good(Group(uuid, es), s3)
  }

  function TakeGroups(n: nat, s: bytes, acc: seq<Group>): Parsed<seq<Group>>
    decreases n
  {
    if n == 0 then Good(acc, s)
    else
      var (g, s1) :- TakeGroup(s);
      TakeGroups(n - 1, s1, acc + [g])
  }

  function TakeIndex(s: bytes): Parsed<seq<Group>> {
    var (n, s1) :- TakeU32(s);
    TakeGroups(n, s1, [])
  }

  /** Entries as distances back from `base`. */
  function Backwards(es: seq<Entry>, base: nat): seq<BackEntry>
    requires base < Bytes.TWO64 && forall e :: e in es ==> e.offset <= base
  {
    if es == [] then []
    else
      assert es[0] in es;
      [BackEntry(base - es[0].offset, es[0].first, es[0].records, es[0].runID)] + Backwards(es[1..], base)
  }

  lemma EntryBack(e: Entry, base: nat, tail: bytes)
    requires base < Bytes.TWO64 && e.offset <= base
    ensures TakeEntry(PutEntry(e, base, tail)) == Good(BackEntry(base - e.offset, e.first, e.records, e.runID), tail)
  {
    var t1 := LE(4, e.runID) + tail;
    U64Back(base - e.offset, LE(8, e.first) + (LE(4, e.records) + t1));
    U64Back(e.first, LE(4, e.records) + t1);
    U32Back(e.records, t1);
    U32Back(e.runID, tail);
  }

  lemma {:induction false} EntriesBack(es: seq<Entry>, base: nat, acc: seq<BackEntry>, tail: bytes)
    requires base < Bytes.TWO64 && forall e :: e in es ==> e.offset <= base
    ensures TakeEntries(|es|, PutEntries(es, base, tail), acc) == Good(acc + Backwards(es, base), tail)
    ensures |PutEntries(es, base, tail)| == 24 * |es| + |tail|
    decreases |es|
  {
    hide TakeEntry;
    if es == [] {
      assert acc + [] == acc;
    } else {
      assert es[0] in es;
      var rest := PutEntries(es[1..], base, tail);
      EntryBack(es[0], base, rest);
      var b := BackEntry(base - es[0].offset, es[0].first, es[0].records, es[0].runID);
      EntriesBack(es[1..], base, acc + [b], tail);
      Snoc(acc, b, Backwards(es[1..], base));
    }
  }

  function GroupsOf(order: seq<bytes>, index: map<bytes, seq<Entry>>, base: nat): seq<Group>
    requires base < Bytes.TWO64
    requires forall u :: u in order ==> u in index
    requires forall u, e :: u in index && e in index[u] ==> e.offset <= base
  {
    if order == [] then []
    else
      assert order[0] in order;
      [Group(order[0], Backwards(index[order[0]], base))] + GroupsOf(order[1..], index, base)
  }

  lemma {:induction false} GroupsBack(order: seq<bytes>, index: map<bytes, seq<Entry>>, base: nat, acc: seq<Group>)
    requires base < Bytes.TWO64
    requires forall u :: u in order ==> u in index && |u| == 16
    requires forall u, e :: u in index && e in index[u] ==> e.offset <= base
    requires |PutGroups(order, index, base)| < TWO32
    ensures TakeGroups(|order|, PutGroups(order, index, base), acc) == Good(acc + GroupsOf(order, index, base), [])
    ensures |PutGroups(order, index, base)| >= 20 * |order|
    decreases |order|
  {
    hide TakeEntries;
    hide Backwards;
    if order == [] {
      assert acc + [] == acc;
    } else {
      var u := order[0];
      assert u in order;
      var es := index[u];
      var rest := PutGroups(order[1..], index, base);
      EntriesBack(es, base, [], rest);
      var t := PutEntries(es, base, rest);
      var g := Group(u, Backwards(es, base));
      assert PutGroups(order, index, base) == u + (LE(4, |es|) + t);
      OneGroupBack(u, es, t, Backwards(es, base), rest);
      GroupsBack(order[1..], index, base, acc + [g]);
      Snoc(acc, g, GroupsOf(order[1..], index, base));
    }
  }

  lemma OneGroupBack(u: bytes, es: seq<Entry>, t: bytes, bs: seq<BackEntry>, rest: bytes)
    requires |u| == 16 && |es| < TWO32 && TakeEntries(|es|, t, []) == Good([] + bs, rest)
    ensures TakeGroup(u + (LE(4, |es|) + t)) == Good(Group(u, bs), rest)
  {
    hide TakeEntries;
    RawBack(u, LE(4, |es|) + t);
    U32Back(|es|, t);
    assert [] + bs == bs;
  }

  lemma IndexBack(ws: WState)
    requires IndexSane(ws) && ws.off < Bytes.TWO64 && (forall u :: u in ws.order ==> |u| == 16)
    requires |IndexPayload(ws)| < TWO32
    ensures TakeIndex(IndexPayload(ws)) == Good(GroupsOf(ws.order, ws.index, ws.off), [])
  {
    var s := PutGroups(ws.order, ws.index, ws.off);
    GroupsBack(ws.order, ws.index, ws.off, []);
    hide PutGroups;
    hide GroupsOf;
    U32Back(|ws.order|, s);
    assert [] + GroupsOf(ws.order, ws.index, ws.off) == GroupsOf(ws.order, ws.index, ws.off);
  }

  // --- what an index says about a log -----------------------------------------------------------

  predicate IsBatchOf(e: Event, u: bytes) {
    e.frame.typ == FRAME_DATA && e.out.Records? && e.out.batch.schema.uuid == u
  }

  function EntryOf(e: Event): Entry
    requires e.out.Records?
  {
    Entry(e.at, e.out.batch.base, e.out.batch.count, e.out.batch.runID)
  }

  /** Where each batch of a stream is, in order. */
  function EntriesOf(evs: seq<Event>, u: bytes): seq<Entry> {
    if evs == [] then []
    else
      var n := |evs| - 1;
      EntriesOf(evs[..n], u) + (if IsBatchOf(evs[n], u) then [EntryOf(evs[n])] else [])
  }

  lemma EntriesSnoc(evs: seq<Event>, e: Event, u: bytes)
    ensures EntriesOf(evs + [e], u) == EntriesOf(evs, u) + (if IsBatchOf(e, u) then [EntryOf(e)] else [])
  {
    assert (evs + [e])[..|evs|] == evs;
  }

  /** An entry tells of the batch at its distance back from the INDEX frame. */
  ghost predicate Lands(evs: seq<Event>, i: nat, u: bytes, b: BackEntry)
    requires i < |evs|
  {
    exists j :: 0 <= j < i && IsBatchOf(evs[j], u) && evs[j].at + b.back == evs[i].at &&
      evs[j].out.batch.base == b.first && evs[j].out.batch.count == b.records && evs[j].out.batch.runID == b.runID
  }

  ghost predicate IndexTrue(evs: seq<Event>, i: nat)
    requires i < |evs|
  {
    var p := TakeIndex(evs[i].frame.payload);
    p.Good? && forall g, b :: g in p.value && b in g.entries ==> Lands(evs, i, g.uuid, b)
  }

  /** The index lists, for every stream with batches before it, all of them and in
      order. */
  ghost predicate IndexComplete(evs: seq<Event>, i: nat)
    requires i < |evs|
  {
    var p := TakeIndex(evs[i].frame.payload);
    evs[i].at < Bytes.TWO64 && p.Good? &&
    (forall g :: g in p.value ==> Matches(g.entries, EntriesOf(evs[..i], g.uuid), evs[i].at)) &&
    (forall u :: EntriesOf(evs[..i], u) != [] ==> exists g :: g in p.value && g.uuid == u)
  }

  ghost predicate Matches(bs: seq<BackEntry>, es: seq<Entry>, base: nat) {
    |bs| == |es| &&
    forall m :: 0 <= m < |es| ==>
      es[m].offset + bs[m].back == base && bs[m].first == es[m].first &&
      bs[m].records == es[m].records && bs[m].runID == es[m].runID
  }

  lemma {:induction false} BackwardsMatches(es: seq<Entry>, base: nat)
    requires base < Bytes.TWO64 && forall e :: e in es ==> e.offset <= base
    ensures Matches(Backwards(es, base), es, base)
    decreases |es|
  {
    if es != [] {
      assert es[0] in es;
      BackwardsMatches(es[1..], base);
      var bs := Backwards(es, base);
      forall m | 0 <= m < |es|
        ensures es[m].offset + bs[m].back == base && bs[m].first == es[m].first &&
          bs[m].records == es[m].records && bs[m].runID == es[m].runID
      {
        if m > 0 { assert bs[m] == Backwards(es[1..], base)[m - 1] && es[m] == es[1..][m - 1]; }
      }
    }
  }

  lemma {:induction false} EntryComesFrom(evs: seq<Event>, u: bytes, m: nat) returns (j: nat)
    requires m < |EntriesOf(evs, u)|
    ensures j < |evs| && IsBatchOf(evs[j], u) && EntryOf(evs[j]) == EntriesOf(evs, u)[m]
    decreases |evs|
  {
    var n := |evs| - 1;
    if m < |EntriesOf(evs[..n], u)| {
      j := EntryComesFrom(evs[..n], u, m);
    } else {
      j := n;
    }
  }

  /** A complete index is a true one. */
  lemma CompleteIsTrue(evs: seq<Event>, i: nat)
    requires i < |evs| && IndexComplete(evs, i)
    ensures IndexTrue(evs, i)
  {
    hide TakeIndex;
    var p := TakeIndex(evs[i].frame.payload);
    forall g, b | g in p.value && b in g.entries ensures Lands(evs, i, g.uuid, b) {
      var es := EntriesOf(evs[..i], g.uuid);
      var m :| 0 <= m < |g.entries| && g.entries[m] == b;
      var j := EntryComesFrom(evs[..i], g.uuid, m);
      assert evs[..i][j] == evs[j];
      assert es[m] == EntryOf(evs[j]);
    }
  }

  // --- the writer's index along a run ------------------------------------------------------------

  function IndexAt(ws: WState, u: bytes): seq<Entry> { if u in ws.index then ws.index[u] else [] }

  ghost predicate Indexed(ws: WState) {
    (forall u :: IndexAt(ws, u) == EntriesOf(ws.log, u)) &&
    (forall u :: u in ws.order ==> |u| == 16)
  }

  ghost predicate AllComplete(evs: seq<Event>) {
    forall i :: 0 <= i < |evs| && evs[i].frame.typ == FRAME_INDEX ==> IndexComplete(evs, i)
  }

  lemma CompleteSnoc(evs: seq<Event>, e: Event)
    requires AllComplete(evs) && (e.frame.typ == FRAME_INDEX ==> IndexComplete(evs + [e], |evs|))
    ensures AllComplete(evs + [e])
  {
    hide EntriesOf;
    hide TakeIndex;
    hide Matches;
    forall i | 0 <= i < |evs| && evs[i].frame.typ == FRAME_INDEX ensures IndexComplete(evs + [e], i) {
      assert (evs + [e])[..i] == evs[..i];
    }
  }

  lemma IndexedPlain(ws: WState, w: WState, e: Event)
    requires Indexed(ws) && w.log == ws.log + [e] && w.index == ws.index && w.order == ws.order && !e.out.Records?
    ensures Indexed(w)
  {
    forall u ensures IndexAt(w, u) == EntriesOf(w.log, u) {
      EntriesSnoc(ws.log, e, u);
      hide EntriesOf;
      assert IndexAt(w, u) == IndexAt(ws, u);
      assert EntriesOf(ws.log, u) + [] == EntriesOf(ws.log, u);
    }
  }

  lemma {:induction false} QuietIndexed(ws: WState, w: WState, add: seq<Event>)
    requires Indexed(ws) && w.log == ws.log + add && w.index == ws.index && w.order == ws.order && AllQuiet(add)
    requires AllComplete(ws.log)
    ensures Indexed(w) && AllComplete(w.log)
    decreases |add|
  {
    hide EntriesOf;
    hide IndexComplete;
    if add == [] {
      assert w.log == ws.log;
      forall u ensures IndexAt(w, u) == IndexAt(ws, u) { }
    } else {
      var e := add[0];
      assert e in add;
      var w1 := ws.(log := ws.log + [e]);
      IndexedPlain(ws, w1, e);
      CompleteSnoc(ws.log, e);
      assert ws.log + add == (ws.log + [e]) + add[1..];
      hide Indexed;
      hide AllComplete;
      QuietIndexed(w1, w, add[1..]);
    }
  }

  lemma IndexedSegment(ws: WState, wall: u64)
    requires Indexed(ws) && AllComplete(ws.log)
    ensures Indexed(BeginSegment(ws, wall)) && AllComplete(BeginSegment(ws, wall).log)
  {
    hide *;
    var sync, add := SegmentAdds(ws, wall);
    SegmentSettings(ws, wall);
    var w := BeginSegment(ws, wall);
    var w1 := ws.(log := ws.log + [sync]);
    SyncIsPlain(sync);
    IndexedPlain(ws, w1, sync);
    CompleteSnoc(ws.log, sync);
    QuietIndexed(w1, w, add);
  }

  lemma SyncIsPlain(e: Event)
    requires e.frame.typ == FRAME_SYNC
    ensures e.frame.typ != FRAME_INDEX
  {
  }

  lemma IndexedBatch(z: Zip, ws: WState, k: nat, base: u64, runID: u32, count: u32, records: bytes)
    requires Indexed(ws) && AllComplete(ws.log) && k < |ws.streams| && |ws.streams[k].uuid| == 16
    requires WriteBatch(z, ws, k, base, runID, count, records).Done?
    ensures var w := WriteBatch(z, ws, k, base, runID, count, records).ws;
      Indexed(w) && AllComplete(w.log)
  {
    hide *;
    BatchEmits(z, ws, k, base, runID, count, records);
    var s := ws.streams[k];
    var out := Batched(s, base, runID, count, records, ws.segRuns);
    var f := Frame(FRAME_DATA, 0, Id(k), DataFrame(z, s, base, runID, count, ws.codec, ws.filter, records));
    BatchedTells(s, base, runID, count, records, ws.segRuns);
    EmitTells(BatchState(ws, s, base, runID, count), FRAME_DATA, Id(k), f.payload, out);
    DataIsPlain();
    BatchIndexed(ws, s, base, runID, count, Event(ws.off, f, out), WriteBatch(z, ws, k, base, runID, count, records).ws);
  }

  lemma BatchedTells(s: Schema, base: u64, runID: u32, count: u32, records: bytes, runs: map<u32, Run>)
    ensures var o := Batched(s, base, runID, count, records, runs);
      o.Records? && o.batch.schema.uuid == s.uuid && o.batch.base == base && o.batch.count == count && o.batch.runID == runID
  {
    hide TailsOf;
  }

  lemma EmitTells(ws: WState, typ: byte, id: u16, payload: bytes, out: Outcome)
    ensures var w := Emit(ws, typ, id, payload, out);
      w.log == ws.log + [Event(ws.off, Frame(typ, 0, id, payload), out)] && w.index == ws.index && w.order == ws.order
  {
  }

  lemma DataIsPlain()
    ensures FRAME_DATA != FRAME_INDEX
  {
  }

  lemma BatchIndexed(ws: WState, s: Schema, base: u64, runID: u32, count: u32, e: Event, w: WState)
    requires Indexed(ws) && AllComplete(ws.log) && |s.uuid| == 16
    requires e.at == ws.off && e.frame.typ == FRAME_DATA && e.out.Records?
    requires var b := e.out.batch; b.schema.uuid == s.uuid && b.base == base && b.count == count && b.runID == runID
    requires var v := BatchState(ws, s, base, runID, count);
      w.log == ws.log + [e] && w.index == v.index && w.order == v.order
    ensures Indexed(w) && AllComplete(w.log)
  {
    hide IndexComplete;
    hide BatchState;
    hide EntriesOf;
    CompleteSnoc(ws.log, e);
    BatchEntry(ws, s, base, runID, count);
    forall u ensures IndexAt(w, u) == EntriesOf(w.log, u) {
      EntriesSnoc(ws.log, e, u);
    }
  }

  lemma BatchEntry(ws: WState, s: Schema, base: u64, runID: u32, count: u32)
    ensures var w := BatchState(ws, s, base, runID, count);
      (forall u :: IndexAt(w, u) == IndexAt(ws, u) + (if u == s.uuid then [Entry(ws.off, base, count, runID)] else [])) &&
      (forall u :: u in w.order ==> u in ws.order || u == s.uuid)
  {
    var w0 := NoteRun(ws, s.uuid, runID);
    assert w0.index == ws.index && w0.order == ws.order;
    hide NoteRun;
    hide NoteEntry;
    EntryNoted(w0, s.uuid, Entry(ws.off, base, count, runID));
  }

  lemma EntryNoted(ws: WState, u: bytes, e: Entry)
    ensures var w := NoteEntry(ws, u, e);
      (forall v :: IndexAt(w, v) == IndexAt(ws, v) + (if v == u then [e] else [])) &&
      (forall v :: v in w.order ==> v in ws.order || v == u)
  {
    forall v ensures IndexAt(NoteEntry(ws, u, e), v) == IndexAt(ws, v) + (if v == u then [e] else []) { NotedAt(ws, u, e, v); }
    hide IndexAt;
  }

  lemma NotedAt(ws: WState, u: bytes, e: Entry, v: bytes)
    ensures IndexAt(NoteEntry(ws, u, e), v) == IndexAt(ws, v) + (if v == u then [e] else [])
  {
    assert [] + [e] == [e];
    var rest: seq<Entry> := [];
    assert IndexAt(ws, v) + rest == IndexAt(ws, v);
  }

  lemma IndexedClose(ws: WState)
    requires Indexed(ws) && AllComplete(ws.log) && IndexSane(ws) && ws.off < Bytes.TWO64
    requires |IndexPayload(ws)| < TWO32
    ensures Indexed(Close(ws)) && AllComplete(Close(ws).log)
  {
    var e := Event(ws.off, Frame(FRAME_INDEX, 0, 0, IndexPayload(ws)), Nothing);
    var w1 := Emit(ws, FRAME_INDEX, 0, IndexPayload(ws), Nothing);
    var end := Event(w1.off, Frame(FRAME_END, 0, 0, []), Nothing);
    assert w1.log == ws.log + [e] && Close(ws).log == w1.log + [end];
    CloseComplete(ws, e);
    hide EntriesOf;
    hide IndexPayload;
    hide IndexComplete;
    IndexedPlain(ws, w1, e);
    CompleteSnoc(ws.log, e);
    IndexedPlain(w1, Close(ws), end);
    CompleteSnoc(w1.log, end);
  }

  lemma CloseComplete(ws: WState, e: Event)
    requires Indexed(ws) && IndexSane(ws) && ws.off < Bytes.TWO64 && |IndexPayload(ws)| < TWO32
    requires e.frame.payload == IndexPayload(ws) && e.at == ws.off
    ensures IndexComplete(ws.log + [e], |ws.log|)
  {
    IndexBack(ws);
    hide EntriesOf;
    hide IndexPayload;
    hide TakeIndex;
    var gs := GroupsOf(ws.order, ws.index, ws.off);
    GroupsListed(ws.order, ws.index, ws.off);
    var evs := ws.log + [e];
    assert evs[..|ws.log|] == ws.log;
    forall g | g in gs ensures Matches(g.entries, EntriesOf(ws.log, g.uuid), ws.off) {
      assert IndexAt(ws, g.uuid) == EntriesOf(ws.log, g.uuid);
      BackwardsMatches(ws.index[g.uuid], ws.off);
    }
    forall u | EntriesOf(ws.log, u) != [] ensures exists g :: g in gs && g.uuid == u {
      assert IndexAt(ws, u) != [];
      assert u in ws.order;
    }
  }

  lemma {:induction false} GroupsListed(order: seq<bytes>, index: map<bytes, seq<Entry>>, base: nat)
    requires base < Bytes.TWO64
    requires forall u :: u in order ==> u in index
    requires forall u, e :: u in index && e in index[u] ==> e.offset <= base
    ensures var gs := GroupsOf(order, index, base);
      (forall g :: g in gs ==> g.uuid in index && g.entries == Backwards(index[g.uuid], base)) &&
      (forall u :: u in order ==> exists g :: g in gs && g.uuid == u)
    decreases |order|
  {
    hide Backwards;
    if order != [] {
      GroupsListed(order[1..], index, base);
      assert order[0] in order;
      var gs, rest := GroupsOf(order, index, base), GroupsOf(order[1..], index, base);
      assert gs == [gs[0]] + rest;
      forall u | u in order ensures exists g :: g in gs && g.uuid == u {
        if u == order[0] {
          assert gs[0] in gs;
        } else {
          assert u in order[1..];
          var g :| g in rest && g.uuid == u;
          assert g in gs;
        }
      }
    }
  }

  lemma IndexedStep(z: Zip, ws: WState, op: Op)
    requires Sound(ws) && Indexed(ws) && AllComplete(ws.log) && IndexSane(ws) && Step(z, ws, op).Done?
    requires ws.off < Bytes.TWO64 && (op.OpClose? ==> |IndexPayload(ws)| < TWO32)
    ensures Indexed(Step(z, ws, op).ws) && AllComplete(Step(z, ws, op).ws.log)
  {
    hide Indexed;
    hide AllComplete;
    hide BeginSegment;
    hide WriteBatch;
    hide PutSchema;
    hide PutRun;
    hide Norm;
    hide IndexPayload;
    hide MetaPayload;
    hide AttachPayload;
    hide IndexSane;
    hide ValidSchema;
    hide Sound;
    var w := Step(z, ws, op).ws;
    match op {
      case OpAddStream(s) =>
        var w0 := ws.(streams := ws.streams + [s]);
        QuietIndexed(ws, w0, []);
        if ws.inSeg {
          var k := |ws.streams|;
          QuietIndexed(w0, w, [Event(ws.off, Frame(FRAME_SCHEMA, 0, Id(k), PutSchema(s)), Bound(Norm(s), Id(k)))]);
        }
      case OpAddRun(r) =>
        var w0 := ws.(runs := ws.runs + [r]);
        QuietIndexed(ws, w0, []);
        if ws.inSeg { QuietIndexed(w0, w, [Event(ws.off, Frame(FRAME_RUN, 0, 0, PutRun(r)), Nothing)]); }
      case OpBeginSegment(wall) => IndexedSegment(ws, wall);
      case OpWriteMeta(m) => QuietIndexed(ws, w, [Event(ws.off, Frame(FRAME_META, 0, 0, MetaPayload(m)), Nothing)]);
      case OpWriteAttach(m) => QuietIndexed(ws, w, [Event(ws.off, Frame(FRAME_ATTACH, 0, 0, AttachPayload(m)), Nothing)]);
      case OpWriteData(k, base, runID, count, records) => IndexedData(z, ws, k, base, runID, count, records);
      case OpClose => IndexedClose(ws);
      case _ => QuietIndexed(ws, w, []);
    }
  }

  lemma IndexedData(z: Zip, ws: WState, k: nat, base: u64, runID: u32, count: u32, records: bytes)
    requires Sound(ws) && Indexed(ws) && AllComplete(ws.log) && k < |ws.streams|
    requires WriteData(z, ws, k, base, runID, count, records).Done?
    ensures var w := WriteData(z, ws, k, base, runID, count, records).ws;
      Indexed(w) && AllComplete(w.log)
  {
    hide *;
    DataUnfold(z, ws, k, base, runID, count, records);
    UuidLength(ws, k);
    IndexedSegment(ws, 0);
    IndexedBatch(z, if ws.inSeg then ws else BeginSegment(ws, 0), k, base, runID, count, records);
  }

  lemma UuidLength(ws: WState, k: nat)
    requires Sound(ws) && k < |ws.streams|
    ensures |ws.streams[k].uuid| == 16
  {
    assert ws.streams[k] in ws.streams;
  }

  lemma {:induction false} IndexedRun(z: Zip, ws: WState, rs: RState, ops: seq<Op>)
    requires Inverse(z) && Sound(ws) && Sim(ws, rs) && Indexed(ws) && AllComplete(ws.log) && IndexSane(ws)
    requires AllOpsFit(z, ws, ops) && RunFrom(z, ws, ops).Done?
    requires RunFrom(z, ws, ops).ws.off < Bytes.TWO64 && AllFit(FramesOf(RunFrom(z, ws, ops).ws.log))
    ensures Indexed(RunFrom(z, ws, ops).ws) && AllComplete(RunFrom(z, ws, ops).ws.log)
    decreases |ops|
  {
    hide Step;
    hide Sound;
    hide Sim;
    hide OpFits;
    hide Inverse;
    hide Indexed;
    hide AllComplete;
    hide IndexSane;
    hide AllFit;
    if ops != [] {
      StepSane(z, ws, ops[0]);
      var w := Step(z, ws, ops[0]).ws;
      var r := StepFollows(z, ws, rs, ops[0]);
      var r' := RunFollowed(z, w, r, ops[1..]);
      var w' := RunFrom(z, ws, ops).ws;
      FollowsGrows(z, ws, rs, w, r);
      FollowsGrows(z, w, r, w', r');
      if ops[0].OpClose? { CloseFits(z, ws, w, w'); }
      IndexedStep(z, ws, ops[0]);
      IndexedRun(z, w, r, ops[1..]);
    }
  }

  lemma FollowsGrows(z: Zip, a: WState, ra: RState, b: WState, rb: RState)
    requires Follows(z, a, ra, b, rb)
    ensures a.off <= b.off && a.log <= b.log
  {
  }

  lemma CloseFits(z: Zip, ws: WState, w: WState, w': WState)
    requires IndexSane(ws) && Step(z, ws, OpClose) == Done(w) && w.log <= w'.log && AllFit(FramesOf(w'.log))
    ensures |IndexPayload(ws)| < TWO32
  {
    hide IndexPayload;
    var e := Event(ws.off, Frame(FRAME_INDEX, 0, 0, IndexPayload(ws)), Nothing);
    assert w.log[|ws.log|] == e;
    assert w'.log[|ws.log|] == e;
    assert FramesOf(w'.log)[|ws.log|] in FramesOf(w'.log);
  }

  /** While its calls succeed, the writer's index lists the batches of its log. */
  lemma RecordingIndexed(z: Zip, ops: seq<Op>, ws: WState)
    requires Recorded(z, ops, ws) && ws.off < Bytes.TWO64
    ensures Indexed(ws) && AllComplete(ws.log)
  {
    StartSound(FRESH);
    assert Indexed(START) && AllComplete(START.log);
    hide RunFrom;
    hide AllOpsFit;
    IndexedRun(z, START, FRESH, ops);
  }

  /** Every INDEX frame of a recording lists every batch before it, stream by
      stream and in order, at the right distance back. */
  lemma IndexIsComplete(z: Zip, ops: seq<Op>, ws: WState)
    requires Recorded(z, ops, ws) && ws.off < Bytes.TWO64
    ensures AllComplete(ws.log)
  {
    hide *;
    RecordingIndexed(z, ops, ws);
  }

  /** After one recording is appended to another, every entry of every INDEX frame
      of either still lands on the batch it describes. */
  lemma IndexSurvivesConcatenation(z: Zip, opsA: seq<Op>, a: WState, opsB: seq<Op>, b: WState, i: nat)
    requires Recorded(z, opsA, a) && Recorded(z, opsB, b) && a.off < Bytes.TWO64 && b.off < Bytes.TWO64
    ensures ScanFile(z, FileOf(a) + FileOf(b)[16..]).Some?
    ensures var evs := ScanFile(z, FileOf(a) + FileOf(b)[16..]).value.events;
      i < |evs| && evs[i].frame.typ == FRAME_INDEX ==> IndexTrue(evs, i)
  {
    hide *;
    Concatenation(z, opsA, a, opsB, b);
    IndexIsComplete(z, opsA, a);
    IndexIsComplete(z, opsB, b);
    JoinFiles(a, b);
    TrueWhenJoined(a.log, b.log, |FileOf(a)| - 16, i);
  }

  lemma TrueWhenJoined(a: seq<Event>, b: seq<Event>, d: int, i: nat)
    requires AllComplete(a) && AllComplete(b) && d >= 0
    ensures var evs := a + Shift(b, d);
      i < |evs| && evs[i].frame.typ == FRAME_INDEX ==> IndexTrue(evs, i)
  {
    hide IndexComplete;
    hide IndexTrue;
    var evs := a + Shift(b, d);
    if i < |a| && a[i].frame.typ == FRAME_INDEX {
      CompleteIsTrue(a, i);
      TrueInFront(a, Shift(b, d), i);
    } else if |a| <= i < |evs| && evs[i].frame.typ == FRAME_INDEX {
      CompleteIsTrue(b, i - |a|);
      TrueBehind(a, b, d, i - |a|);
    }
  }

  lemma TrueInFront(a: seq<Event>, b: seq<Event>, i: nat)
    requires i < |a| && IndexTrue(a, i)
    ensures IndexTrue(a + b, i)
  {
    hide TakeIndex;
    var p := TakeIndex(a[i].frame.payload);
    forall g, e | g in p.value && e in g.entries ensures Lands(a + b, i, g.uuid, e) {
      assert Lands(a, i, g.uuid, e);
      var j :| 0 <= j < i && IsBatchOf(a[j], g.uuid) && a[j].at + e.back == a[i].at &&
        a[j].out.batch.base == e.first && a[j].out.batch.count == e.records && a[j].out.batch.runID == e.runID;
      assert (a + b)[j] == a[j] && (a + b)[i] == a[i];
    }
  }

  lemma TrueBehind(a: seq<Event>, b: seq<Event>, d: nat, i: nat)
    requires i < |b| && IndexTrue(b, i)
    ensures IndexTrue(a + Shift(b, d), |a| + i)
  {
    hide TakeIndex;
    var evs := a + Shift(b, d);
    var n := |a|;
    var p := TakeIndex(b[i].frame.payload);
    assert evs[n + i] == Shift(b, d)[i];
    forall g, e | g in p.value && e in g.entries ensures Lands(evs, n + i, g.uuid, e) {
      assert Lands(b, i, g.uuid, e);
      var j :| 0 <= j < i && IsBatchOf(b[j], g.uuid) && b[j].at + e.back == b[i].at &&
        b[j].out.batch.base == e.first && b[j].out.batch.count == e.records && b[j].out.batch.runID == e.runID;
      assert evs[n + j] == Shift(b, d)[j];
    }
  }
}
