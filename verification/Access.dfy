/** Random access: any DATA frame decodes behind its segment's preamble. */
module Access {
  import opened Bytes
  import opened Wire
  import opened Format
  import opened Frames
  import opened Records
  import opened Reading
  import opened Stats
  import opened Indexing
  import opened Joining
  import Scanning
  import Guarantees
  import Resuming
  import Merging
  import Rd = Reader

  // --- what is put together ---------------------------------------------------------------------------

  /** The bytes of a frame, if the file has them. */
  function FrameAt(file: bytes, r: FrameRef): Option<bytes> {
    if r.offset + r.Size() > |file| then None else Some(file[r.offset..r.offset + r.Size()])
  }

  function FramesAt(file: bytes, rs: seq<FrameRef>): Option<bytes> {
    if rs == [] then Some([])
    else
      match (FrameAt(file, rs[0]), FramesAt(file, rs[1..]))
      case (Some(x), Some(y)) => Some(x + y)
      case _ => None
  }

  /** What must come before a DATA frame: the SYNC frame first, because it clears
      every binding, then the stream's schema and every run of the segment. */
  function Preamble(s: Segment, id: u16): seq<FrameRef>
    requires id in s.schemas
  {
    (if s.sync.typ == FRAME_SYNC then [s.sync] else []) + [s.schemas[id]] + s.runs
  }

  function Prefix(file: bytes, segs: seq<Segment>, k: nat, id: u16): Option<bytes> {
    if |file| < 16 || k >= |segs| || id !in segs[k].schemas then None
    else
      match FramesAt(file, Preamble(segs[k], id))
      case None => None
      case Some(b) => Some(file[..16] + b)
  }

  function Refs(ds: seq<DataFrame>): (r: seq<FrameRef>)
    ensures |r| == |ds|
    ensures forall i :: 0 <= i < |ds| ==> r[i] == ds[i].ref
  {
    seq(|ds|, i requires 0 <= i < |ds| => ds[i].ref)
  }

  predicate OneStream(ds: seq<DataFrame>) { forall i :: 0 <= i < |ds| ==> ds[i].ref.id == ds[0].ref.id }

  /** A group of frames of one segment. Anything but one batch a frame, cleanly read,
      means the index is wrong. */
  function DecodedGroup(z: Zip, file: bytes, segs: seq<Segment>, ds: seq<DataFrame>): Option<seq<Batch>>
    requires ds != []
  {
    if !OneStream(ds) then None
    else
      match (Prefix(file, segs, ds[0].segment, ds[0].ref.id), FramesAt(file, Refs(ds)))
      case (Some(p), Some(b)) =>
        (match ScanFile(z, p + b)
         case None => None
         case Some(s) => if s.truncated || |BatchesOf(s.events)| != |ds| then None else Some(BatchesOf(s.events)))
      case _ => None
  }

  /** Frames in runs that share a segment, in order. */
  function Grouped(ds: seq<DataFrame>): (g: seq<seq<DataFrame>>)
    ensures forall i :: 0 <= i < |g| ==> g[i] != []
  {
    if ds == [] then []
    else
      var g := Grouped(Init(ds));
      if g != [] && Last(g)[0].segment == Last(ds).segment then Init(g) + [Last(g) + [Last(ds)]] else g + [[Last(ds)]]
  }

  function DecodedGroups(z: Zip, file: bytes, segs: seq<Segment>, g: seq<seq<DataFrame>>): Option<seq<Batch>>
    requires forall i :: 0 <= i < |g| ==> g[i] != []
  {
    if g == [] then Some([])
    else
      match (DecodedGroup(z, file, segs, g[0]), DecodedGroups(z, file, segs, g[1..]))
      case (Some(x), Some(y)) => Some(x + y)
      case _ => None
  }

  function DecodedAll(z: Zip, file: bytes, segs: seq<Segment>, ds: seq<DataFrame>): Option<seq<Batch>> {
    DecodedGroups(z, file, segs, Grouped(ds))
  }

  // --- what a scan's events know of their segments -------------------------------------------------------

  /** The schemas of the segment being read. */
  function Current(evs: seq<Event>): map<u16, FrameRef> {
    if Segments(evs) == [] then map[] else Last(Segments(evs)).schemas
  }

  /** No segment binds a tag twice. */
  ghost predicate BoundOnce(evs: seq<Event>) {
    forall i :: 0 <= i < |evs| && evs[i].out.Bound? ==> evs[i].out.id !in Current(evs[..i])
  }

  ghost predicate Binding(evs: seq<Event>, s: Schema, id: u16, r: FrameRef) {
    exists j :: 0 <= j < |evs| && evs[j].out == Bound(s, id) && RefOf(evs[j]) == r
  }

  /** What the reader has bound is what the index has noted for this segment. */
  ghost predicate Linked(rs: RState, evs: seq<Event>) {
    forall id :: id in rs.streams ==> id in Current(evs) && Binding(evs, rs.streams[id], id, Current(evs)[id])
  }

  /** What an event says of its frame, after the events `pre`. */
  ghost predicate Fact(z: Zip, pre: seq<Event>, e: Event) {
    Paired(e) &&
    (e.out.Bound? ==> TakeSchema(e.frame.payload).Good? && TakeSchema(e.frame.payload).value == e.out.schema && e.out.schema.KnownMode()) &&
    (e.out.Records? ==>
      var b := e.out.batch;
      DecodeData(z, b.schema, e.frame.payload) == DataRead.Decoded(b) &&
      e.frame.id in Current(pre) && Binding(pre, b.schema, e.frame.id, Current(pre)[e.frame.id]))
  }

  ghost predicate Facts(z: Zip, pre: seq<Event>, evs: seq<Event>) {
    forall i :: 0 <= i < |evs| ==> Fact(z, pre + evs[..i], evs[i])
  }

  lemma CurrentNext(evs: seq<Event>, e: Event)
    ensures Current(evs + [e]) ==
      if e.frame.typ == FRAME_SYNC then map[]
      else if e.frame.typ != FRAME_RUN && e.out.Bound? then Current(evs)[e.out.id := RefOf(e)]
      else Current(evs)
  {
    Scanning.SnocParts(Meter((c, v) => None, v => None, x => 0, (a, b, c, d, i, x) => 0, x => 0.0), evs, e);
  }

  lemma BindingMore(evs: seq<Event>, e: Event, s: Schema, id: u16, r: FrameRef)
    requires Binding(evs, s, id, r)
    ensures Binding(evs + [e], s, id, r)
  {
    var j :| 0 <= j < |evs| && evs[j].out == Bound(s, id) && RefOf(evs[j]) == r;
    assert (evs + [e])[j] == evs[j];
  }

  lemma BindingLast(evs: seq<Event>, e: Event)
    requires e.out.Bound?
    ensures Binding(evs + [e], e.out.schema, e.out.id, RefOf(e))
  {
    assert (evs + [e])[|evs|] == e;
  }

  /** How a frame changes what is bound. */
  lemma BindingsAfter(z: Zip, rs: RState, f: Frame)
    requires Apply(z, rs, f).Go?
    ensures var g := Apply(z, rs, f);
      (f.typ == FRAME_SYNC ==> g.rs.streams == map[]) &&
      forall id :: id in g.rs.streams ==>
        (id in rs.streams && g.rs.streams[id] == rs.streams[id] && !(g.out.Bound? && g.out.id == id)) ||
        (g.out == Bound(g.rs.streams[id], id) && f.typ == FRAME_SCHEMA)
  {
    hide TakeSchema;
    hide DecodeData;
    hide DecodeHold;
    hide TakeRun;
    hide TakeMeta;
    hide TakeAttach;
    hide TakeSeqNo;
  }

  lemma LinkedNext(z: Zip, rs: RState, f: Frame, pre: seq<Event>, at: nat)
    requires Linked(rs, pre) && Apply(z, rs, f).Go?
    ensures Linked(Apply(z, rs, f).rs, pre + [Event(at, f, Apply(z, rs, f).out)])
  {
    var g := Apply(z, rs, f);
    var e := Event(at, f, g.out);
    BindingsAfter(z, rs, f);
    Scanning.ApplyPaired(z, rs, f, at);
    CurrentNext(pre, e);
    hide Apply;
    hide Current;
    forall id | id in g.rs.streams
      ensures id in Current(pre + [e]) && Binding(pre + [e], g.rs.streams[id], id, Current(pre + [e])[id])
    {
      if g.out.Bound? && g.out.id == id {
        BindingLast(pre, e);
      } else {
        BindingMore(pre, e, rs.streams[id], id, Current(pre)[id]);
      }
    }
  }

  lemma FactHere(z: Zip, rs: RState, f: Frame, pre: seq<Event>, at: nat)
    requires Linked(rs, pre) && Apply(z, rs, f).Go?
    ensures Fact(z, pre, Event(at, f, Apply(z, rs, f).out))
  {
    Scanning.ApplyPaired(z, rs, f, at);
    hide TakeSchema;
    hide DecodeData;
    hide DecodeHold;
    hide Current;
    hide Binding;
    hide Paired;
    hide OnSync;
    hide OnRun;
    hide OnMeta;
    hide OnAttach;
  }

  lemma FactsFirst(z: Zip, pre: seq<Event>, e: Event, rest: seq<Event>)
    requires Fact(z, pre, e) && Facts(z, pre + [e], rest)
    ensures Facts(z, pre, [e] + rest)
  {
    hide Fact;
    var evs := [e] + rest;
    forall i | 0 <= i < |evs| ensures Fact(z, pre + evs[..i], evs[i]) {
      if i == 0 {
        assert pre + evs[..0] == pre;
      } else {
        assert pre + evs[..i] == (pre + [e]) + rest[..i - 1];
      }
    }
  }

  lemma NoFacts(z: Zip, pre: seq<Event>)
    ensures Facts(z, pre, [])
  {
  }

  lemma StopFact(z: Zip, pre: seq<Event>, at: nat, f: Frame)
    ensures Fact(z, pre, Event(at, f, Nothing))
  {
  }

  lemma {:induction false} ReplayFacts(z: Zip, rs: RState, fs: seq<Frame>, at: nat, pre: seq<Event>)
    requires Linked(rs, pre)
    ensures Facts(z, pre, Replay(z, rs, fs, at).events)
    decreases |fs|
  {
    hide Apply;
    hide Linked;
    hide Facts;
    hide Fact;
    if fs == [] {
      NoFacts(z, pre);
    } else {
      match Apply(z, rs, fs[0]) {
        case Stop =>
          var e := Event(at, fs[0], Nothing);
          NoFacts(z, pre + [e]);
          StopFact(z, pre, at, fs[0]);
          FactsFirst(z, pre, e, []);
          assert [e] + [] == [e];
        case Go(rs', out) =>
          var e := Event(at, fs[0], out);
          FactHere(z, rs, fs[0], pre, at);
          LinkedNext(z, rs, fs[0], pre, at);
          ReplayFacts(z, rs', fs[1..], at + fs[0].Size(), pre + [e]);
          FactsFirst(z, pre, e, Replay(z, rs', fs[1..], at + fs[0].Size()).events);
      }
    }
  }

  lemma FreshLinked()
    ensures Linked(FRESH, [])
  {
  }

  // --- what an index knows of its events -----------------------------------------------------------------

  ghost predicate Met(evs: seq<Event>, r: FrameRef, typ: byte) {
    exists j :: 0 <= j < |evs| && RefOf(evs[j]) == r && evs[j].frame.typ == typ
  }

  lemma MetMore(evs: seq<Event>, e: Event, r: FrameRef, typ: byte)
    requires Met(evs, r, typ)
    ensures Met(evs + [e], r, typ)
  {
    var j :| 0 <= j < |evs| && RefOf(evs[j]) == r && evs[j].frame.typ == typ;
    assert (evs + [e])[j] == evs[j];
  }

  lemma MetLast(evs: seq<Event>, e: Event)
    ensures Met(evs + [e], RefOf(e), e.frame.typ)
  {
    assert (evs + [e])[|evs|] == e;
  }

  /** What a segment points at is there. */
  ghost predicate Backed(evs: seq<Event>, s: Segment) {
    (s.sync == NOWHERE || Met(evs, s.sync, FRAME_SYNC)) &&
    (forall i :: 0 <= i < |s.runs| ==> Met(evs, s.runs[i], FRAME_RUN)) &&
    (forall id :: id in s.schemas ==> Met(evs, s.schemas[id], FRAME_SCHEMA))
  }

  lemma BackedMore(evs: seq<Event>, e: Event, s: Segment)
    requires Backed(evs, s)
    ensures Backed(evs + [e], s)
  {
    if s.sync != NOWHERE { MetMore(evs, e, s.sync, FRAME_SYNC); }
    forall i | 0 <= i < |s.runs| ensures Met(evs + [e], s.runs[i], FRAME_RUN) { MetMore(evs, e, s.runs[i], FRAME_RUN); }
    forall id | id in s.schemas ensures Met(evs + [e], s.schemas[id], FRAME_SCHEMA) { MetMore(evs, e, s.schemas[id], FRAME_SCHEMA); }
  }

  lemma {:induction false} SegmentsBacked(evs: seq<Event>)
    requires forall i :: 0 <= i < |evs| ==> Paired(evs[i])
    ensures forall k :: 0 <= k < |Segments(evs)| ==> Backed(evs, Segments(evs)[k])
    decreases |evs|
  {
    if evs != [] {
      var pre, e := Init(evs), Last(evs);
      assert evs == pre + [e];
      SegmentsBacked(pre);
      BackedNext(pre, e, Segments(pre));
      hide NextSegments;
      hide Backed;
    }
  }

  lemma BackedNext(pre: seq<Event>, e: Event, segs: seq<Segment>)
    requires Paired(e) && forall k :: 0 <= k < |segs| ==> Backed(pre, segs[k])
    ensures forall k :: 0 <= k < |NextSegments(segs, e)| ==> Backed(pre + [e], NextSegments(segs, e)[k])
  {
    MetLast(pre, e);
    var next := NextSegments(segs, e);
    forall k | 0 <= k < |next| ensures Backed(pre + [e], next[k]) {
      var s := if k < |segs| then segs[k] else NewSegment(0, NOWHERE);
      assert k < |segs| ==> Backed(pre, segs[k]);
      BackedMore(pre, e, s);
      hide Met;
    }
  }

  /** Where a frame of the index was met, and in which segment. */
  ghost predicate MetIn(evs: seq<Event>, d: DataFrame, i: nat) {
    i < |evs| && evs[i].out.Records? && RefOf(evs[i]) == d.ref && d.segment == |Segments(evs[..i + 1])| - 1
  }

  lemma {:induction false} DataMet(m: Meter, evs: seq<Event>, q: nat) returns (i: nat)
    requires q < |Data(m, evs)|
    ensures MetIn(evs, Data(m, evs)[q], i)
    decreases |evs|
  {
    var pre := Init(evs);
    SegmentsSome(evs);
    if q < |Data(m, pre)| {
      i := DataMet(m, pre, q);
      assert pre[..i + 1] == evs[..i + 1];
      assert Data(m, evs)[q] == Data(m, pre)[q];
    } else {
      i := |evs| - 1;
      assert evs[..i + 1] == evs;
      assert Data(m, evs)[q] == FrameOf(m, Last(evs), |Segments(evs)| - 1);
    }
  }

  /** A tag bound in a segment stays bound to the same frame. */
  lemma {:induction false} SchemasStay(evs: seq<Event>, i: nat, id: u16)
    requires BoundOnce(evs) && i <= |evs| && id in Current(evs[..i])
    requires forall j :: 0 <= j < |evs| ==> Paired(evs[j])
    ensures var k := |Segments(evs[..i])| - 1;
      0 <= k < |Segments(evs)| && id in Segments(evs)[k].schemas && Segments(evs)[k].schemas[id] == Current(evs[..i])[id]
    decreases |evs|
  {
    if i == |evs| {
      assert evs[..i] == evs;
    } else {
      var pre, e := Init(evs), Last(evs);
      assert pre[..i] == evs[..i] && evs == pre + [e];
      BoundOnceInit(evs);
      SchemasStay(pre, i, id);
      assert e.out.Bound? ==> e.out.id !in Current(pre) by { assert evs[..|evs| - 1] == pre; }
      hide Current;
      StaysNext(Segments(pre), e, |Segments(evs[..i])| - 1, id);
    }
  }

  lemma BoundOnceInit(evs: seq<Event>)
    requires evs != [] && BoundOnce(evs)
    ensures BoundOnce(Init(evs))
  {
    hide Current;
    var pre := Init(evs);
    forall i | 0 <= i < |pre| && pre[i].out.Bound? ensures pre[i].out.id !in Current(pre[..i]) {
      assert pre[..i] == evs[..i] && pre[i] == evs[i];
    }
  }

  lemma StaysNext(segs: seq<Segment>, e: Event, k: nat, id: u16)
    requires k < |segs| && id in segs[k].schemas && Paired(e)
    requires e.out.Bound? ==> e.out.id !in Last(segs).schemas
    ensures k < |NextSegments(segs, e)| && id in NextSegments(segs, e)[k].schemas
    ensures NextSegments(segs, e)[k].schemas[id] == segs[k].schemas[id]
  {
  }

  // --- the bytes of the preamble -------------------------------------------------------------------------

  /** The events of a file's scan. */
  function EventsOf(z: Zip, file: bytes): seq<Event>
    requires |file| >= 16
  {
    Replay(z, FRESH, WholeFrames(file[16..]), 16).events
  }

  /** Each event's frame is in the file where it was met. */
  lemma FrameThere(z: Zip, file: bytes, j: nat)
    requires |file| >= 16 && j < |EventsOf(z, file)|
    ensures var e := EventsOf(z, file)[j];
      e.frame.Fits() && FrameAt(file, RefOf(e)) == Some(FrameBytes(e.frame))
  {
    hide *;
    var s := file[16..];
    var fs := WholeFrames(s);
    EventsAre(z, file);
    ReplayCount(z, FRESH, fs, 16);
    ReplayPlaces(z, FRESH, fs, 16);
    SplitWhole(s);
    Guarantees.FitsAt(fs, j);
    assert fs == fs[..j] + ([fs[j]] + fs[j + 1..]);
    FramesAppend(fs[..j], [fs[j]] + fs[j + 1..]);
    FramesLenBytes(fs[..j]);
    Guarantees.FramesOfOne(fs[j], fs[j + 1..]);
    Cut(file, FramesBytes(fs[..j]), FrameBytes(fs[j]), FramesBytes(fs[j + 1..]) + Leftover(s));
    Assoc(FramesBytes(fs[..j]), FrameBytes(fs[j]) + FramesBytes(fs[j + 1..]), Leftover(s));
    Assoc(FrameBytes(fs[j]), FramesBytes(fs[j + 1..]), Leftover(s));
    RefSizes(EventsOf(z, file)[j]);
    FrameAtIs(file, RefOf(EventsOf(z, file)[j]));
  }

  lemma EventsAre(z: Zip, file: bytes)
    requires |file| >= 16
    ensures EventsOf(z, file) == Replay(z, FRESH, WholeFrames(file[16..]), 16).events
  {
  }

  lemma RefSizes(e: Event)
    ensures RefOf(e).offset == e.at && RefOf(e).Size() == e.frame.Size() == |FrameBytes(e.frame)|
  {
  }

  lemma FrameAtIs(file: bytes, r: FrameRef)
    ensures r.offset + r.Size() <= |file| ==> FrameAt(file, r) == Some(file[r.offset..r.offset + r.Size()])
  {
  }

  lemma Cut(file: bytes, x: bytes, y: bytes, rest: bytes)
    requires |file| >= 16 && file[16..] == x + (y + rest)
    ensures 16 + |x| + |y| <= |file| && file[16 + |x|..16 + |x| + |y|] == y
  {
    assert file[16..][|x|..|x| + |y|] == y;
  }

  /** Frames that were met are there, one after the other. */
  lemma {:induction false} FramesThere(z: Zip, file: bytes, rs: seq<FrameRef>, js: seq<nat>) returns (fs: seq<Frame>)
    requires |file| >= 16 && |js| == |rs|
    requires forall i :: 0 <= i < |rs| ==> js[i] < |EventsOf(z, file)| && RefOf(EventsOf(z, file)[js[i]]) == rs[i]
    ensures |fs| == |rs| && forall i :: 0 <= i < |rs| ==> fs[i] == EventsOf(z, file)[js[i]].frame
    ensures FramesAt(file, rs) == Some(FramesBytes(fs)) && AllFit(fs)
    decreases |rs|
  {
    hide EventsOf;
    hide FrameAt;
    hide RefOf;
    hide FrameBytes;
    if rs == [] {
      fs := [];
    } else {
      FrameThere(z, file, js[0]);
      var f := EventsOf(z, file)[js[0]].frame;
      var rest := FramesThere(z, file, rs[1..], js[1..]);
      fs := [f] + rest;
      Guarantees.FramesOfOne(f, rest);
    }
  }

  lemma {:induction false} FramesAtJoin(file: bytes, a: seq<FrameRef>, b: seq<FrameRef>)
    requires FramesAt(file, a).Some? && FramesAt(file, b).Some?
    ensures FramesAt(file, a + b) == Some(FramesAt(file, a).value + FramesAt(file, b).value)
    decreases |a|
  {
    hide FrameAt;
    if a == [] {
      assert a + b == b && [] + FramesAt(file, b).value == FramesAt(file, b).value;
    } else {
      assert (a + b)[1..] == a[1..] + b;
      FramesAtJoin(file, a[1..], b);
      Assoc(FrameAt(file, a[0]).value, FramesAt(file, a[1..]).value, FramesAt(file, b).value);
    }
  }

  // --- what is read behind it ------------------------------------------------------------------------------

  /** Runs bind no stream. */
  lemma {:induction false} RunsRead(z: Zip, rs: RState, fs: seq<Frame>, at: nat)
    requires forall i :: 0 <= i < |fs| ==> fs[i].typ == FRAME_RUN
    ensures var r := Replay(z, rs, fs, at);
      !r.stopped && BatchesOf(r.events) == [] && r.rs.streams == rs.streams
    decreases |fs|
  {
    if fs != [] {
      RunRead(z, rs, fs[0]);
      hide Apply;
      RunsRead(z, Apply(z, rs, fs[0]).rs, fs[1..], at + fs[0].Size());
      FirstEvent(Event(at, fs[0], Nothing), Replay(z, Apply(z, rs, fs[0]).rs, fs[1..], at + fs[0].Size()).events);
    }
  }

  lemma RunRead(z: Zip, rs: RState, f: Frame)
    requires f.typ == FRAME_RUN
    ensures Apply(z, rs, f).Go? && Apply(z, rs, f).out == Nothing && Apply(z, rs, f).rs.streams == rs.streams
  {
    hide TakeRun;
  }

  lemma FirstEvent(e: Event, rest: seq<Event>)
    ensures BatchesOf([e] + rest) == (if e.out.Records? then [e.out.batch] else []) + BatchesOf(rest)
  {
    assert ([e] + rest)[1..] == rest;
    if !e.out.Records? { assert [] + BatchesOf(rest) == BatchesOf(rest); }
  }

  lemma DataReads(z: Zip, rs: RState, f: Frame, s: Schema, b: Batch)
    requires f.typ == FRAME_DATA && f.id in rs.streams && rs.streams[f.id] == s
    requires DecodeData(z, s, f.payload) == DataRead.Decoded(b)
    ensures Apply(z, rs, f).Go? && Apply(z, rs, f).rs == rs
    ensures Apply(z, rs, f).out.Records? && Apply(z, rs, f).out.batch == b
  {
    hide DecodeData;
  }

  /** Frames of one stream decode to their batches whatever stood between them. */
  lemma {:induction false} DatasRead(z: Zip, rs: RState, fs: seq<Frame>, at: nat, id: u16, s: Schema, bs: seq<Batch>)
    requires id in rs.streams && rs.streams[id] == s && |bs| == |fs|
    requires forall i :: 0 <= i < |fs| ==>
      fs[i].typ == FRAME_DATA && fs[i].id == id && DecodeData(z, s, fs[i].payload) == DataRead.Decoded(bs[i])
    ensures var r := Replay(z, rs, fs, at);
      !r.stopped && BatchesOf(r.events) == bs
    decreases |fs|
  {
    hide DecodeData;
    hide Apply;
    if fs != [] {
      DataReads(z, rs, fs[0], s, bs[0]);
      DatasRead(z, rs, fs[1..], at + fs[0].Size(), id, s, bs[1..]);
      FirstEvent(Event(at, fs[0], Apply(z, rs, fs[0]).out), Replay(z, rs, fs[1..], at + fs[0].Size()).events);
      assert [bs[0]] + bs[1..] == bs;
    }
  }

  lemma SchemaReads(z: Zip, rs: RState, f: Frame, s: Schema)
    requires f.typ == FRAME_SCHEMA && TakeSchema(f.payload).Good? && TakeSchema(f.payload).value == s && s.KnownMode()
    ensures Apply(z, rs, f) == Go(rs.(streams := rs.streams[f.id := s]), Bound(s, f.id))
  {
    hide TakeSchema;
  }

  lemma SyncReads(z: Zip, rs: RState, f: Frame)
    requires f.typ == FRAME_SYNC
    ensures Apply(z, rs, f).Go? && Apply(z, rs, f).out == Nothing
  {
    hide TakeSeqNo;
  }

  lemma {:induction false} OneFrame(z: Zip, rs: RState, f: Frame, at: nat)
    requires Apply(z, rs, f).Go?
    ensures Replay(z, rs, [f], at) == Replayed([Event(at, f, Apply(z, rs, f).out)], Apply(z, rs, f).rs, false)
  {
    hide Apply;
    assert [f][1..] == [];
    assert [Event(at, f, Apply(z, rs, f).out)] + [] == [Event(at, f, Apply(z, rs, f).out)];
  }

  /** A schema behind an optional SYNC frame is bound. */
  lemma HeadReads(z: Zip, sync: seq<Frame>, f: Frame, s: Schema)
    requires |sync| <= 1 && (sync != [] ==> sync[0].typ == FRAME_SYNC)
    requires f.typ == FRAME_SCHEMA && TakeSchema(f.payload).Good? && TakeSchema(f.payload).value == s && s.KnownMode()
    ensures var r := Replay(z, FRESH, sync + [f], 16);
      !r.stopped && BatchesOf(r.events) == [] && f.id in r.rs.streams && r.rs.streams[f.id] == s
  {
    hide TakeSchema;
    var rs := FRESH;
    if sync != [] {
      assert sync == [sync[0]];
      SyncReads(z, FRESH, sync[0]);
      OneFrame(z, FRESH, sync[0], 16);
      rs := Apply(z, FRESH, sync[0]).rs;
    }
    var at := 16 + FramesLen(sync);
    SchemaReads(z, rs, f, s);
    OneFrame(z, rs, f, at);
    ReplayAppend(z, FRESH, sync, [f], 16);
    hide Apply;
    var q := Replay(z, FRESH, sync, 16);
    assert sync == [] ==> q == Replayed([], FRESH, false);
    FirstEvent(Event(at, f, Bound(s, f.id)), []);
    if sync != [] { FirstEvent(Event(16, sync[0], Nothing), [Event(at, f, Bound(s, f.id))]); }
    assert [Event(at, f, Bound(s, f.id))] + [] == [Event(at, f, Bound(s, f.id))];
  }

  // --- one group -------------------------------------------------------------------------------------------

  /** A preamble and the DATA frames behind it, as frames. */
  lemma GroupReads(z: Zip, sync: seq<Frame>, f: Frame, s: Schema, runs: seq<Frame>, datas: seq<Frame>, bs: seq<Batch>)
    requires |sync| <= 1 && (sync != [] ==> sync[0].typ == FRAME_SYNC)
    requires f.typ == FRAME_SCHEMA && TakeSchema(f.payload).Good? && TakeSchema(f.payload).value == s && s.KnownMode()
    requires forall i :: 0 <= i < |runs| ==> runs[i].typ == FRAME_RUN
    requires |bs| == |datas| && forall i :: 0 <= i < |datas| ==>
      datas[i].typ == FRAME_DATA && datas[i].id == f.id && DecodeData(z, s, datas[i].payload) == DataRead.Decoded(bs[i])
    ensures var r := Replay(z, FRESH, ((sync + [f]) + runs) + datas, 16);
      !r.stopped && BatchesOf(r.events) == bs
  {
    hide *;
    HeadReads(z, sync, f, s);
    var r0 := Replay(z, FRESH, sync + [f], 16);
    var at1 := 16 + FramesLen(sync + [f]);
    RunsRead(z, r0.rs, runs, at1);
    ReplayAppend(z, FRESH, sync + [f], runs, 16);
    var r1 := Replay(z, FRESH, (sync + [f]) + runs, 16);
    BatchesAppend(r0.events, Replay(z, r0.rs, runs, at1).events);
    assert BatchesOf(r1.events) == [];
    var at2 := 16 + FramesLen((sync + [f]) + runs);
    DatasRead(z, r1.rs, datas, at2, f.id, s, bs);
    ReplayAppend(z, FRESH, (sync + [f]) + runs, datas, 16);
    BatchesAppend(r1.events, Replay(z, r1.rs, datas, at2).events);
    assert [] + bs == bs;
  }

  /** A header and whole frames scan to what the frames replay to. */
  lemma SynthesizedScan(z: Zip, file: bytes, fs: seq<Frame>)
    requires |file| >= 16 && HeaderOk(file[..16]) && AllFit(fs)
    ensures var r := Replay(z, FRESH, fs, 16);
      ScanFile(z, file[..16] + FramesBytes(fs)) == Some(Scanned(r.events, r.rs, r.stopped))
  {
    FramesBack(fs, []);
    NothingWhole();
    assert FramesBytes(fs) + [] == FramesBytes(fs) && fs + [] == fs;
    var f := file[..16] + FramesBytes(fs);
    assert f[..16] == file[..16] && f[16..] == FramesBytes(fs);
    hide Replay;
    hide HeaderOk;
    hide FramesBytes;
    hide WholeFrames;
    hide Leftover;
  }

  lemma MetAt(evs: seq<Event>, r: FrameRef, typ: byte) returns (j: nat)
    requires Met(evs, r, typ)
    ensures j < |evs| && RefOf(evs[j]) == r && evs[j].frame.typ == typ
  {
    j :| 0 <= j < |evs| && RefOf(evs[j]) == r && evs[j].frame.typ == typ;
  }

  lemma MetAll(evs: seq<Event>, rs: seq<FrameRef>, typ: byte) returns (js: seq<nat>)
    requires forall i :: 0 <= i < |rs| ==> Met(evs, rs[i], typ)
    ensures |js| == |rs|
    ensures forall i :: 0 <= i < |rs| ==> js[i] < |evs| && RefOf(evs[js[i]]) == rs[i] && evs[js[i]].frame.typ == typ
  {
    js := [];
    for i := 0 to |rs|
      invariant |js| == i
      invariant forall q :: 0 <= q < i ==> js[q] < |evs| && RefOf(evs[js[q]]) == rs[q] && evs[js[q]].frame.typ == typ
    {
      var j := MetAt(evs, rs[i], typ);
      js := js + [j];
    }
  }

  /** What a frame of the index decodes to, and the SCHEMA frame it needs. */
  lemma FrameNeeds(z: Zip, file: bytes, d: DataFrame, i: nat) returns (j: nat)
    requires |file| >= 16 && BoundOnce(EventsOf(z, file)) && MetIn(EventsOf(z, file), d, i)
    ensures var evs := EventsOf(z, file);
      var segs := Segments(evs);
      d.segment < |segs| && d.ref.id in segs[d.segment].schemas &&
      j < |evs| && RefOf(evs[j]) == segs[d.segment].schemas[d.ref.id] &&
      evs[i].frame.typ == FRAME_DATA && evs[i].frame.id == d.ref.id && evs[i].out.Records? &&
      evs[j].out == Bound(evs[i].out.batch.schema, d.ref.id) &&
      DecodeData(z, evs[i].out.batch.schema, evs[i].frame.payload) == DataRead.Decoded(evs[i].out.batch) &&
      SchemaFrame(evs[j].frame, d.ref.id, evs[i].out.batch.schema)
  {
    hide *;
    var evs := EventsOf(z, file);
    AllFacts(z, file);
    MetIs(evs, d, i);
    var id := d.ref.id;
    RecordsFact(z, evs[..i], evs[i]);
    RefIds(evs[i]);
    SchemasStay(evs, i, id);
    CurrentSome(evs[..i], id);
    SameSegment(evs, i);
    MetSegment(evs, d, i);
    var r := Current(evs[..i])[id];
    j := BindingAt(evs[..i], evs[i].out.batch.schema, id, r);
    assert evs[..i][j] == evs[j];
    BoundFact(z, evs[..j], evs[j]);
  }

  lemma RefIds(e: Event)
    ensures RefOf(e).id == e.frame.id
  {
  }

  lemma CurrentSome(evs: seq<Event>, id: u16)
    requires id in Current(evs)
    ensures Segments(evs) != []
  {
    hide Segments;
  }

  lemma MetSegment(evs: seq<Event>, d: DataFrame, i: nat)
    requires MetIn(evs, d, i)
    ensures d.segment == |Segments(evs[..i + 1])| - 1
  {
    hide Segments;
    hide RefOf;
  }

  lemma RecordsFact(z: Zip, pre: seq<Event>, e: Event)
    requires Fact(z, pre, e) && e.out.Records?
    ensures e.frame.typ == FRAME_DATA && DecodeData(z, e.out.batch.schema, e.frame.payload) == DataRead.Decoded(e.out.batch)
    ensures e.frame.id in Current(pre) && Binding(pre, e.out.batch.schema, e.frame.id, Current(pre)[e.frame.id])
  {
    hide DecodeData;
    hide Current;
    hide Binding;
  }

  lemma BindingAt(evs: seq<Event>, s: Schema, id: u16, r: FrameRef) returns (j: nat)
    requires Binding(evs, s, id, r)
    ensures j < |evs| && evs[j].out == Bound(s, id) && RefOf(evs[j]) == r
  {
    j :| 0 <= j < |evs| && evs[j].out == Bound(s, id) && RefOf(evs[j]) == r;
  }

  lemma BoundFact(z: Zip, pre: seq<Event>, e: Event)
    requires Fact(z, pre, e) && e.out.Bound?
    ensures SchemaFrame(e.frame, e.out.id, e.out.schema)
  {
    hide TakeSchema;
    hide DecodeData;
  }

  predicate SchemaFrame(f: Frame, id: u16, s: Schema) {
    f.typ == FRAME_SCHEMA && f.id == id && TakeSchema(f.payload).Good? && TakeSchema(f.payload).value == s && s.KnownMode()
  }

  lemma AllFacts(z: Zip, file: bytes)
    requires |file| >= 16
    ensures var evs := EventsOf(z, file);
      (forall i :: 0 <= i < |evs| ==> Fact(z, evs[..i], evs[i])) && (forall i :: 0 <= i < |evs| ==> Paired(evs[i]))
  {
    hide Fact;
    FreshLinked();
    var evs := EventsOf(z, file);
    ReplayFacts(z, FRESH, WholeFrames(file[16..]), 16, []);
    forall i | 0 <= i < |evs| ensures Fact(z, evs[..i], evs[i]) { assert [] + evs[..i] == evs[..i]; }
    forall i | 0 <= i < |evs| ensures Paired(evs[i]) { FactPaired(z, evs[..i], evs[i]); }
  }

  lemma FactPaired(z: Zip, pre: seq<Event>, e: Event)
    requires Fact(z, pre, e)
    ensures Paired(e)
  {
  }

  lemma SameSegment(evs: seq<Event>, i: nat)
    requires i < |evs| && evs[i].out.Records? && Segments(evs[..i]) != [] && Paired(evs[i])
    ensures |Segments(evs[..i + 1])| == |Segments(evs[..i])|
  {
    assert evs[..i + 1] == evs[..i] + [evs[i]];
    assert Init(evs[..i + 1]) == evs[..i] && Last(evs[..i + 1]) == evs[i];
  }

  /** Events are met in different places. */
  lemma SameEvent(z: Zip, file: bytes, i: nat, j: nat)
    requires |file| >= 16 && i < |EventsOf(z, file)| && j < |EventsOf(z, file)|
    requires RefOf(EventsOf(z, file)[i]) == RefOf(EventsOf(z, file)[j])
    ensures i == j
  {
    Resuming.EventsOrdered(z, file[16..]);
    hide Replay;
  }

  ghost predicate DataFits(z: Zip, evs: seq<Event>, i: nat, id: u16, s: Schema) {
    i < |evs| && evs[i].out.Records? && evs[i].frame.typ == FRAME_DATA && evs[i].frame.id == id &&
    DecodeData(z, s, evs[i].frame.payload) == DataRead.Decoded(evs[i].out.batch)
  }

  lemma MetIs(evs: seq<Event>, d: DataFrame, i: nat)
    requires MetIn(evs, d, i)
    ensures i < |evs| && evs[i].out.Records? && RefOf(evs[i]) == d.ref
  {
    hide RefOf;
    hide Segments;
  }

  lemma OneStreamIs(ds: seq<DataFrame>)
    requires OneStream(ds)
    ensures forall q :: 0 <= q < |ds| ==> ds[q].ref.id == ds[0].ref.id
  {
  }

  function SyncRefs(s: Segment): seq<FrameRef> { if s.sync.typ == FRAME_SYNC then [s.sync] else [] }

  lemma PreambleFrames(z: Zip, file: bytes, s: Segment) returns (sync: seq<Frame>, runs: seq<Frame>)
    requires |file| >= 16 && Backed(EventsOf(z, file), s)
    ensures |sync| <= 1 && (sync != [] ==> sync[0].typ == FRAME_SYNC) && AllFit(sync)
    ensures (forall i :: 0 <= i < |runs| ==> runs[i].typ == FRAME_RUN) && AllFit(runs)
    ensures FramesAt(file, SyncRefs(s)) == Some(FramesBytes(sync)) && FramesAt(file, s.runs) == Some(FramesBytes(runs))
  {
    var evs := EventsOf(z, file);
    hide EventsOf;
    hide Met;
    hide FramesAt;
    hide RefOf;
    hide FramesBytes;
    var js := MetAll(evs, SyncRefs(s), FRAME_SYNC);
    sync := FramesThere(z, file, SyncRefs(s), js);
    js := MetAll(evs, s.runs, FRAME_RUN);
    runs := FramesThere(z, file, s.runs, js);
  }

  function BatchesAt(evs: seq<Event>, at: seq<nat>): (bs: seq<Batch>)
    requires forall q :: 0 <= q < |at| ==> at[q] < |evs| && evs[at[q]].out.Records?
    ensures |bs| == |at|
    ensures forall q :: 0 <= q < |at| ==> bs[q] == evs[at[q]].out.batch
  {
    seq(|at|, q requires 0 <= q < |at| => evs[at[q]].out.batch)
  }

  /** The preamble's bytes are its frames. */
  lemma PrefixIs(file: bytes, segs: seq<Segment>, k: nat, id: u16, sync: seq<Frame>, f: Frame, runs: seq<Frame>)
    requires |file| >= 16 && k < |segs| && id in segs[k].schemas
    requires FramesAt(file, SyncRefs(segs[k])) == Some(FramesBytes(sync))
    requires FrameAt(file, segs[k].schemas[id]) == Some(FrameBytes(f))
    requires FramesAt(file, segs[k].runs) == Some(FramesBytes(runs))
    ensures Prefix(file, segs, k, id) == Some(file[..16] + FramesBytes((sync + [f]) + runs))
  {
    hide FrameAt;
    hide FrameBytes;
    var r := segs[k].schemas[id];
    assert FramesAt(file, [r]) == Some(FrameBytes(f)) by {
      assert [r][1..] == [] && FrameBytes(f) + [] == FrameBytes(f);
    }
    Guarantees.FramesOfOne(f, []);
    assert [f] + [] == [f] && FrameBytes(f) + [] == FrameBytes(f);
    assert FramesBytes([f]) == FrameBytes(f);
    hide FramesAt;
    hide FramesBytes;
    FramesAtJoin(file, SyncRefs(segs[k]), [r]);
    FramesAppend(sync, [f]);
    FramesAtJoin(file, SyncRefs(segs[k]) + [r], segs[k].runs);
    FramesAppend(sync + [f], runs);
    assert Preamble(segs[k], id) == (SyncRefs(segs[k]) + [r]) + segs[k].runs;
  }

  lemma FitsJoin(a: seq<Frame>, b: seq<Frame>)
    requires AllFit(a) && AllFit(b)
    ensures AllFit(a + b)
  {
  }

  lemma FitsOne(f: Frame)
    requires f.Fits()
    ensures AllFit([f])
  {
  }

  lemma GroupUnfold(z: Zip, file: bytes, segs: seq<Segment>, ds: seq<DataFrame>, p: bytes, b: bytes, s: Scanned)
    requires ds != [] && OneStream(ds)
    requires Prefix(file, segs, ds[0].segment, ds[0].ref.id) == Some(p) && FramesAt(file, Refs(ds)) == Some(b)
    requires ScanFile(z, p + b) == Some(s) && !s.truncated && |BatchesOf(s.events)| == |ds|
    ensures DecodedGroup(z, file, segs, ds) == Some(BatchesOf(s.events))
  {
    hide Prefix;
    hide FramesAt;
    hide ScanFile;
    hide BatchesOf;
    hide OneStream;
  }

  lemma FitParts(f: Frame, id: u16, s: Schema, evs: seq<Event>, z: Zip, i: nat)
    requires SchemaFrame(f, id, s) && DataFits(z, evs, i, id, s)
    ensures f.typ == FRAME_SCHEMA && f.id == id && TakeSchema(f.payload).Good? && TakeSchema(f.payload).value == s && s.KnownMode()
    ensures i < |evs| && evs[i].out.Records? && evs[i].frame.typ == FRAME_DATA && evs[i].frame.id == id
    ensures DecodeData(z, s, evs[i].frame.payload) == DataRead.Decoded(evs[i].out.batch)
  {
    hide TakeSchema;
    hide DecodeData;
  }

  /** Frames of one segment and one tag decode to the batches the scan gave. */
  lemma GroupDecodes(z: Zip, file: bytes, ds: seq<DataFrame>, at: seq<nat>)
    requires |file| >= 16 && HeaderOk(file[..16]) && BoundOnce(EventsOf(z, file))
    requires ds != [] && OneStream(ds) && |at| == |ds|
    requires forall q :: 0 <= q < |ds| ==> ds[q].segment == ds[0].segment && MetIn(EventsOf(z, file), ds[q], at[q])
    ensures var evs := EventsOf(z, file);
      (forall q :: 0 <= q < |at| ==> at[q] < |evs| && evs[at[q]].out.Records?) &&
      DecodedGroup(z, file, Segments(evs), ds) == Some(BatchesAt(evs, at))
  {
    hide *;
    var evs := EventsOf(z, file);
    var segs := Segments(evs);
    OneStreamIs(ds);
    forall q | 0 <= q < |ds| ensures at[q] < |evs| && evs[at[q]].out.Records? && RefOf(evs[at[q]]) == Refs(ds)[q] {
      MetIs(evs, ds[q], at[q]);
    }
    var j := FrameNeeds(z, file, ds[0], at[0]);
    var k, id := ds[0].segment, ds[0].ref.id;
    var f, s := evs[j].frame, evs[at[0]].out.batch.schema;
    var bs := BatchesAt(evs, at);
    AllFacts(z, file);
    SegmentsBacked(evs);
    var sync, runs := PreambleFrames(z, file, segs[k]);
    FrameThere(z, file, j);
    PrefixIs(file, segs, k, id, sync, f, runs);
    var datas := FramesThere(z, file, Refs(ds), at);
    forall q | 0 <= q < |ds|
      ensures datas[q].typ == FRAME_DATA && datas[q].id == f.id && DecodeData(z, s, datas[q].payload) == DataRead.Decoded(bs[q])
    {
      var jq := FrameNeeds(z, file, ds[q], at[q]);
      SameEvent(z, file, jq, j);
      DataFitsMake(z, evs, at[q], id, s);
      FitParts(f, id, s, evs, z, at[q]);
    }
    DataFitsMake(z, evs, at[0], id, s);
    FitParts(f, id, s, evs, z, at[0]);
    GroupReads(z, sync, f, s, runs, datas, bs);
    FitsOne(f);
    FitsJoin(sync, [f]);
    FitsJoin(sync + [f], runs);
    FitsJoin((sync + [f]) + runs, datas);
    var pre := (sync + [f]) + runs;
    SynthesizedScan(z, file, pre + datas);
    FramesAppend(pre, datas);
    Assoc(file[..16], FramesBytes(pre), FramesBytes(datas));
    var r := Replay(z, FRESH, pre + datas, 16);
    GroupUnfold(z, file, segs, ds, file[..16] + FramesBytes(pre), FramesBytes(datas), Scanned(r.events, r.rs, r.stopped));
  }

  lemma DataFitsMake(z: Zip, evs: seq<Event>, i: nat, id: u16, s: Schema)
    requires i < |evs| && evs[i].out.Records? && evs[i].frame.typ == FRAME_DATA && evs[i].frame.id == id
    requires DecodeData(z, s, evs[i].frame.payload) == DataRead.Decoded(evs[i].out.batch)
    ensures DataFits(z, evs, i, id, s)
  {
    hide DecodeData;
  }

  // --- any selection ---------------------------------------------------------------------------------------

  function Flat(g: seq<seq<DataFrame>>): seq<DataFrame> { if g == [] then [] else g[0] + Flat(g[1..]) }

  lemma {:induction false} FlatJoin(g: seq<seq<DataFrame>>, h: seq<seq<DataFrame>>)
    ensures Flat(g + h) == Flat(g) + Flat(h)
    decreases |g|
  {
    if g == [] {
      assert g + h == h;
    } else {
      assert (g + h)[1..] == g[1..] + h;
      FlatJoin(g[1..], h);
      assert g[0] + (Flat(g[1..]) + Flat(h)) == (g[0] + Flat(g[1..])) + Flat(h);
    }
  }

  lemma FlatOne(d: seq<DataFrame>)
    ensures Flat([d]) == d
  {
    assert [d][1..] == [];
    assert d + [] == d;
  }

  predicate OneSegment(ds: seq<DataFrame>) { ds != [] && forall i :: 0 <= i < |ds| ==> ds[i].segment == ds[0].segment }

  /** Grouping loses nothing and keeps the order. */
  lemma {:induction false} GroupedIs(ds: seq<DataFrame>)
    ensures Flat(Grouped(ds)) == ds
    ensures forall i :: 0 <= i < |Grouped(ds)| ==> OneSegment(Grouped(ds)[i])
    decreases |ds|
  {
    if ds != [] {
      GroupedIs(Init(ds));
      var g: seq<seq<DataFrame>> := Grouped(Init(ds));
      var d: DataFrame := Last(ds);
      assert ds == Init(ds) + [d];
      if g != [] && Last(g)[0].segment == d.segment {
        assert g == Init(g) + [Last(g)];
        FlatJoin(Init(g), [Last(g)]);
        FlatOne(Last(g));
        FlatJoin(Init(g), [Last(g) + [d]]);
        FlatOne(Last(g) + [d]);
        assert OneSegment(Last(g));
        assert OneSegment(Last(g) + [d]);
        assert (Flat(Init(g)) + Last(g)) + [d] == Flat(Init(g)) + (Last(g) + [d]);
      } else {
        FlatJoin(g, [[d]]);
        FlatOne([d]);
        assert OneSegment([d]);
      }
    }
  }

  /** In each segment the frames have one tag. */
  ghost predicate OneTag(ds: seq<DataFrame>) {
    forall i, j :: 0 <= i < |ds| && 0 <= j < |ds| && ds[i].segment == ds[j].segment ==> ds[i].ref.id == ds[j].ref.id
  }

  ghost predicate AllMet(evs: seq<Event>, ds: seq<DataFrame>, at: seq<nat>) {
    |at| == |ds| && forall q :: 0 <= q < |ds| ==> MetIn(evs, ds[q], at[q])
  }

  lemma AllMetAt(evs: seq<Event>, ds: seq<DataFrame>, at: seq<nat>)
    requires AllMet(evs, ds, at)
    ensures |at| == |ds| && forall q :: 0 <= q < |ds| ==> MetIn(evs, ds[q], at[q]) && at[q] < |evs| && evs[at[q]].out.Records?
  {
    forall q | 0 <= q < |ds| ensures at[q] < |evs| && evs[at[q]].out.Records? { MetIs(evs, ds[q], at[q]); }
    hide MetIn;
  }

  lemma AllMetSplit(evs: seq<Event>, x: seq<DataFrame>, y: seq<DataFrame>, at: seq<nat>)
    requires AllMet(evs, x + y, at)
    ensures AllMet(evs, x, at[..|x|]) && AllMet(evs, y, at[|x|..])
  {
    hide MetIn;
    forall q | 0 <= q < |x| ensures MetIn(evs, x[q], at[..|x|][q]) { assert (x + y)[q] == x[q]; }
    forall q | 0 <= q < |y| ensures MetIn(evs, y[q], at[|x|..][q]) { assert (x + y)[|x| + q] == y[q]; }
  }

  lemma OneTagSplit(x: seq<DataFrame>, y: seq<DataFrame>)
    requires OneTag(x + y)
    ensures OneTag(x) && OneTag(y)
  {
    var z := x + y;
    forall i, j | 0 <= i < |x| && 0 <= j < |x| && x[i].segment == x[j].segment ensures x[i].ref.id == x[j].ref.id {
      assert z[i] == x[i] && z[j] == x[j];
    }
    forall i, j | 0 <= i < |y| && 0 <= j < |y| && y[i].segment == y[j].segment ensures y[i].ref.id == y[j].ref.id {
      assert z[|x| + i] == y[i] && z[|x| + j] == y[j];
    }
  }

  lemma TagsAlike(ds: seq<DataFrame>)
    requires OneTag(ds) && OneSegment(ds)
    ensures OneStream(ds)
  {
  }

  lemma {:induction false} GroupsDecode(z: Zip, file: bytes, g: seq<seq<DataFrame>>, at: seq<nat>)
    requires |file| >= 16 && HeaderOk(file[..16]) && BoundOnce(EventsOf(z, file))
    requires forall i :: 0 <= i < |g| ==> g[i] != [] && OneSegment(g[i])
    requires AllMet(EventsOf(z, file), Flat(g), at) && OneTag(Flat(g))
    ensures var evs := EventsOf(z, file);
      (forall q :: 0 <= q < |at| ==> at[q] < |evs| && evs[at[q]].out.Records?) &&
      DecodedGroups(z, file, Segments(evs), g) == Some(BatchesAt(evs, at))
    decreases |g|
  {
    hide DecodedGroup;
    hide EventsOf;
    hide Segments;
    hide BoundOnce;
    hide HeaderOk;
    hide AllMet;
    hide OneTag;
    hide OneStream;
    hide MetIn;
    var evs := EventsOf(z, file);
    AllMetAt(evs, Flat(g), at);
    if g == [] {
      assert BatchesAt(evs, at) == [];
    } else {
      var n := |g[0]|;
      AllMetSplit(evs, g[0], Flat(g[1..]), at);
      OneTagSplit(g[0], Flat(g[1..]));
      TagsAlike(g[0]);
      AllMetAt(evs, g[0], at[..n]);
      SegmentsAlike(g[0]);
      GroupDecodes(z, file, g[0], at[..n]);
      GroupsDecode(z, file, g[1..], at[n..]);
      assert BatchesAt(evs, at) == BatchesAt(evs, at[..n]) + BatchesAt(evs, at[n..]);
    }
  }

  lemma SegmentsAlike(ds: seq<DataFrame>)
    requires OneSegment(ds)
    ensures forall q :: 0 <= q < |ds| ==> ds[q].segment == ds[0].segment
  {
  }

  /** Any selection of an index's frames, in any order and from any segments, decodes
      to the batches the full scan gave, one for one. */
  lemma AccessAgrees(z: Zip, m: Meter, file: bytes, ds: seq<DataFrame>) returns (at: seq<nat>)
    requires IndexFile(z, m, file).Some? && |file| >= 16 && BoundOnce(EventsOf(z, file))
    requires (forall d :: d in ds ==> d in IndexFile(z, m, file).value.data) && OneTag(ds)
    ensures var evs := EventsOf(z, file);
      |at| == |ds| &&
      (forall q :: 0 <= q < |ds| ==> at[q] < |evs| && evs[at[q]].at == ds[q].ref.offset && evs[at[q]].out.Records?) &&
      DecodedAll(z, file, IndexFile(z, m, file).value.segments, ds) == Some(BatchesAt(evs, at))
  {
    hide *;
    IndexedHeader(z, m, file);
    var evs := EventsOf(z, file);
    Resuming.IndexFileIs(z, m, file);
    EventsAre(z, file);
    var r := Replay(z, FRESH, WholeFrames(file[16..]), 16);
    Merging.IndexParts(m, evs, r.stopped || Leftover(file[16..]) != []);
    at := FramesMet(m, evs, ds, IndexFile(z, m, file).value.data, -Origin(Epoch(m, evs)));
    GroupedIs(ds);
    AllMetAt(evs, ds, at);
    DecodedIs(z, file, Segments(evs), ds);
    GroupsDecode(z, file, Grouped(ds), at);
    forall q | 0 <= q < |ds| ensures evs[at[q]].at == ds[q].ref.offset {
      MetIs(evs, ds[q], at[q]);
      RefSizes(evs[at[q]]);
    }
  }

  lemma IndexedHeader(z: Zip, m: Meter, file: bytes)
    requires IndexFile(z, m, file).Some?
    ensures |file| >= 16
  {
    hide Scan;
    hide IndexOf;
  }

  lemma DecodedIs(z: Zip, file: bytes, segs: seq<Segment>, ds: seq<DataFrame>)
    ensures DecodedAll(z, file, segs, ds) == DecodedGroups(z, file, segs, Grouped(ds))
  {
  }

  lemma FramesMet(m: Meter, evs: seq<Event>, ds: seq<DataFrame>, data: seq<DataFrame>, delta: int) returns (at: seq<nat>)
    requires data == MovedAll(Data(m, evs), delta) && forall d :: d in ds ==> d in data
    ensures AllMet(evs, ds, at)
  {
    hide Data;
    hide MetIn;
    at := [];
    for q := 0 to |ds|
      invariant |at| == q && forall p :: 0 <= p < q ==> MetIn(evs, ds[p], at[p])
    {
      assert ds[q] in data;
      var k :| 0 <= k < |data| && data[k] == ds[q];
      var i := DataMet(m, evs, k);
      MovedMet(evs, Data(m, evs)[k], delta, i);
      at := at + [i];
    }
  }

  lemma MovedMet(evs: seq<Event>, d: DataFrame, delta: int, i: nat)
    requires MetIn(evs, d, i)
    ensures MetIn(evs, Moved(d, delta), i)
  {
    hide Segments;
    hide RefOf;
  }

  // --- the accessor ------------------------------------------------------------------------------------------

  /** Decodes frames of an index without scanning again. Preambles are kept once
      they are built. */
  class Accessor {
    const z: Zip
    const file: bytes
    const segs: seq<Segment>
    var header: Option<bytes>
    var prefix: map<(nat, u16), bytes>

    /** What is kept is what would be built. */
    ghost predicate Valid()
      reads this
    {
      (header.Some? ==> |file| >= 16 && header.value == file[..16]) &&
      forall k :: k in prefix ==> Prefix(file, segs, k.0, k.1) == Some(prefix[k])
    }

    constructor (zip: Zip, source: bytes, segments: seq<Segment>)
      ensures Valid() && z == zip && file == source && segs == segments
    {
      z, file, segs := zip, source, segments;
      header, prefix := None, map[];
    }

    method EnsureHeader() returns (ok: bool)
      requires Valid()
      modifies this`header
      ensures Valid() && (ok <==> |file| >= 16) && (ok ==> header.Some?)
    {
      hide Prefix;
      if header.Some? { return true; }
      if |file| < 16 { return false; }
      header := Some(file[..16]);
      return true;
    }

    method AppendFrame(buf: bytes, r: FrameRef) returns (b: Option<bytes>)
      ensures b == match FrameAt(file, r) case None => None case Some(x) => Some(buf + x)
    {
      if r.offset + r.Size() > |file| { return None; }
      return Some(buf + file[r.offset..r.offset + r.Size()]);
    }

    /** The order is load-bearing: a SYNC frame clears every binding before it. */
    method PrefixFor(segment: nat, id: u16) returns (p: Option<bytes>)
      requires Valid()
      modifies this`header, this`prefix
      ensures Valid() && p == Prefix(file, segs, segment, id)
    {
      hide FrameAt;
      var ok := EnsureHeader();
      if !ok { return None; }
      if (segment, id) in prefix { return Some(prefix[(segment, id)]); }
      if segment >= |segs| || id !in segs[segment].schemas { return None; }
      var seg := segs[segment];
      var refs := (if seg.sync.typ == FRAME_SYNC then [seg.sync] else []) + [seg.schemas[id]] + seg.runs;
      var buf := AppendFrames(header.value, refs);
      if buf == None { return None; }
      prefix := prefix[(segment, id) := buf.value];
      return buf;
    }

    method AppendFrames(start: bytes, refs: seq<FrameRef>) returns (b: Option<bytes>)
      ensures b == match FramesAt(file, refs) case None => None case Some(x) => Some(start + x)
    {
      hide FrameAt;
      var buf := start;
      assert refs[0..] == refs;
      for i := 0 to |refs|
        invariant (match FramesAt(file, refs) case None => None case Some(x) => Some(start + x))
               == (match FramesAt(file, refs[i..]) case None => None case Some(x) => Some(buf + x))
      {
        assert refs[i..][0] == refs[i] && refs[i..][1..] == refs[i + 1..];
        var more := AppendFrame(buf, refs[i]);
        if more == None { return None; }
        if FramesAt(file, refs[i + 1..]).Some? {
          Assoc(buf, FrameAt(file, refs[i]).value, FramesAt(file, refs[i + 1..]).value);
        }
        buf := more.value;
      }
      assert refs[|refs|..] == [] && buf + [] == buf;
      return Some(buf);
    }

    method DecodeGroup(group: seq<DataFrame>) returns (bs: Option<seq<Batch>>)
      requires Valid() && group != []
      modifies this`header, this`prefix
      ensures Valid() && bs == DecodedGroup(z, file, segs, group)
    {
      hide Prefix;
      hide FrameAt;
      var id := group[0].ref.id;
      for i := 0 to |group|
        invariant Valid() && forall k :: 0 <= k < i ==> group[k].ref.id == id
      {
        if group[i].ref.id != id { return None; }
      }
      var p := PrefixFor(group[0].segment, id);
      if p == None { return None; }
      var stream := AppendFrames(p.value, Refs(group));
      if stream == None { return None; }
      var r := Rd.ReadAll(z, stream.value);
      if r == None || r.value.1 || |r.value.0| != |group| { return None; }
      return Some(r.value.0);
    }

    /** The batches of the given frames, in the order given. */
    method Decode(frames: seq<DataFrame>) returns (bs: Option<seq<Batch>>)
      requires Valid()
      modifies this`header, this`prefix
      ensures Valid() && bs == DecodedAll(z, file, segs, frames)
    {
      hide DecodedGroup;
      hide Valid;
      var groups := GroupBySegment(frames);
      var out := [];
      assert groups[0..] == groups;
      NothingYet(DecodedGroups(z, file, segs, groups));
      for i := 0 to |groups|
        invariant Valid()
        invariant DecodedGroups(z, file, segs, groups) == After(out, DecodedGroups(z, file, segs, groups[i..]))
      {
        assert groups[i..][0] == groups[i] && groups[i..][1..] == groups[i + 1..];
        var more := DecodeGroup(groups[i]);
        if more == None { return None; }
        AfterMore(out, more.value, DecodedGroups(z, file, segs, groups[i + 1..]));
        out := out + more.value;
      }
      assert groups[|groups|..] == [] && out + [] == out;
      return Some(out);
    }

    method GroupBySegment(frames: seq<DataFrame>) returns (g: seq<seq<DataFrame>>)
      ensures g == Grouped(frames)
    {
      g := [];
      for i := 0 to |frames|
        invariant g == Grouped(frames[..i])
      {
        assert Init(frames[..i + 1]) == frames[..i] && Last(frames[..i + 1]) == frames[i];
        var n := |g|;
        if n > 0 && g[n - 1][0].segment == frames[i].segment {
          g := g[n - 1 := g[n - 1] + [frames[i]]];
        } else {
          g := g + [[frames[i]]];
        }
      }
      assert frames[..|frames|] == frames;
    }
  }

  function After(x: seq<Batch>, y: Option<seq<Batch>>): Option<seq<Batch>> {
    match y
    case None => None
    case Some(b) => Some(x + b)
  }

  lemma NothingYet(y: Option<seq<Batch>>)
    ensures After([], y) == y
  {
    if y.Some? { assert [] + y.value == y.value; }
  }

  lemma AfterMore(x: seq<Batch>, m: seq<Batch>, y: Option<seq<Batch>>)
    ensures After(x, After(m, y)) == After(x + m, y)
  {
    if y.Some? { assert x + (m + y.value) == (x + m) + y.value; }
  }
}
