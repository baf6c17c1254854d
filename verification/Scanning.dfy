/** One pass over a file that builds its index, as the reader's hooks fire. */
module Scanning {
  import opened Bytes
  import opened Format
  import opened Frames
  import opened Records
  import opened Reading
  import opened Stats
  import opened Indexing
  import opened Joining
  import opened Growing
  import opened Merging
  import opened Guarantees
  import opened Resuming

  /** What a frame's records span, told from the first and the last of them. */
  method Describe(m: Meter, b: Batch, ref: FrameRef, segment: nat) returns (d: DataFrame)
    ensures d == FrameOf(m, Event(0, Frame(0, 0, 0, []), Reading.Records(b, None)), segment).(ref := ref)
  {
    assert Ticks(0) == 0;
    hide Axis;
    hide Ticks;
    d := DataFrame(ref, segment, b.schema.uuid, b.runID, b.count, b.schema.axisKind == AXIS_TIME, 0, 0, 0, 0);
    if b.count > 0 {
      var first := Axis(m, b, 0);
      if first.Some? {
        d := if d.time then d.(firstTick := Ticks(first.value)) else d.(firstFloat := first.value);
      }
      var last := Axis(m, b, b.count - 1);
      if last.Some? {
        d := if d.time then d.(lastTick := Ticks(last.value)) else d.(lastFloat := last.value);
      }
    }
  }

  /** Accumulates the frame index: a frame's place is latched when it is met and
      paired with what it turns out to be. */
  class Builder {
    const bias: nat
    var segs: seq<Segment>
    var data: seq<DataFrame>
    var pending: FrameRef
    var lastData: FrameRef
    var haveData: bool

    constructor (offsetBias: nat)
      ensures segs == [] && data == [] && bias == offsetBias
    {
      bias := offsetBias;
      segs, data := [], [];
      pending, lastData, haveData := NOWHERE, NOWHERE, false;
    }

    method NewSegment(sync: FrameRef)
      modifies this`segs
      ensures segs == old(segs) + [Indexing.NewSegment(|old(segs)|, sync)]
    {
      segs := segs + [Segment(|segs|, sync, map[], map[], [])];
    }

    /** A file that does not begin with a segment still needs one. */
    method NeedSegment()
      modifies this`segs
      ensures segs == SomeSegment(old(segs))
    {
      if segs == [] { NewSegment(NOWHERE); }
    }

    function Placed(at: nat, f: Frame): FrameRef
      reads this
    {
      FrameRef(at + bias, |f.payload|, f.typ, f.id)
    }

    method OnFrame(at: nat, f: Frame)
      modifies this
      ensures data == old(data)
      ensures segs ==
        if f.typ == FRAME_SYNC then old(segs) + [Indexing.NewSegment(|old(segs)|, Placed(at, f))]
        else if f.typ == FRAME_RUN then
          Init(SomeSegment(old(segs))) + [WithRun(Last(SomeSegment(old(segs))), Placed(at, f))]
        else old(segs)
      ensures f.typ == FRAME_SCHEMA ==> pending == Placed(at, f)
      ensures f.typ == FRAME_DATA ==> haveData && lastData == Placed(at, f)
    {
      var ref := FrameRef(at + bias, |f.payload|, f.typ, f.id);
      if f.typ == FRAME_SYNC {
        NewSegment(ref);
      } else if f.typ == FRAME_SCHEMA {
        pending := ref;
      } else if f.typ == FRAME_RUN {
        NeedSegment();
        var s := segs[|segs| - 1];
        segs := segs[|segs| - 1 := s.(runs := s.runs + [ref])];
      } else if f.typ == FRAME_DATA {
        lastData, haveData := ref, true;
      }
    }

    method OnSchema(s: Schema, id: u16)
      modifies this`segs
      ensures var some := SomeSegment(old(segs)); segs == Init(some) + [WithSchema(Last(some), id, pending, s.uuid)]
    {
      NeedSegment();
      var seg := segs[|segs| - 1];
      segs := segs[|segs| - 1 := seg.(schemas := seg.schemas[id := pending], uuids := seg.uuids[id := s.uuid])];
    }

    method OnBatch(m: Meter, b: Batch)
      modifies this
      ensures !old(haveData) ==> segs == old(segs) && data == old(data)
      ensures old(haveData) ==> segs == SomeSegment(old(segs))
      ensures old(haveData) ==>
        data == old(data) + [FrameOf(m, Event(0, Frame(0, 0, 0, []), Reading.Records(b, None)), |segs| - 1).(ref := old(lastData))]
    {
      hide FrameOf;
      if !haveData { return; }
      haveData := false;
      NeedSegment();
      var d := Describe(m, b, lastData, |segs| - 1);
      data := data + [d];
    }
  }

  /** Moves time bounds onto an epoch, in place. */
  method RebaseFrames(ds: seq<DataFrame>, epoch: int) returns (r: seq<DataFrame>)
    ensures r == MovedAll(ds, -epoch)
  {
    r := ds;
    for i := 0 to |ds|
      invariant |r| == |ds|
      invariant forall k :: 0 <= k < |ds| ==> r[k] == if k < i then Moved(ds[k], -epoch) else ds[k]
    {
      if r[i].time {
        r := r[i := r[i].(firstTick := r[i].firstTick - epoch, lastTick := r[i].lastTick - epoch)];
      }
    }
  }

  /** One restatement as a stream keeps it, if it holds anything. */
  method NoteHold(m: Meter, model: Schema, h: Held, offset: nat) returns (r: Option<Restated>)
    ensures r == if HoldsSomething(model) then Some(RestatedOf(m, model, h, offset)) else None
  {
    hide Drawn;
    hide Raw;
    var held := false;
    var i := 0;
    while i < |model.fields|
      invariant i <= |model.fields| && !held
      invariant forall k :: 0 <= k < i ==> !model.fields[k].hold
    {
      if model.fields[i].hold {
        held := true;
        break;
      }
      i := i + 1;
    }
    if !held { return None; }
    var ticks := 0;
    var axis := 0.0;
    if model.axisKind == AXIS_TIME {
      ticks := Ticks(h.base);
      axis := ticks as real;
    } else {
      axis := m.float(h.base);
    }
    var vals: seq<Option<real>> := [];
    for f := 0 to |model.fields|
      invariant vals == Values(m, model, h)[..f]
    {
      var v: Option<real> := None;
      if f < |h.present| && h.present[f] {
        v := Drawn(m, model.fields[f], Raw(Batch(h.schema, h.runID, h.base, 1, h.record, h.tails), 0, f));
      }
      vals := vals + [v];
    }
    assert vals == Values(m, model, h);
    r := Some(Restated(axis, h.runID, offset, vals, ticks));
  }

  // --- what a scan keeps of each stream before it knows the epoch ----------------------------------------

  /** A stream in absolute ticks, without its frames. */
  function Gathered(m: Meter, evs: seq<Event>, u: bytes): Stream
    requires u in Models(evs)
  {
    Stream(Models(evs)[u], Total(FramesFor(Data(m, evs), u)), [], Rows(m, evs, u), Holds(m, evs, u))
  }

  function Declared(ss: map<bytes, Stream>, s: Schema): map<bytes, Stream> {
    if s.uuid in ss then ss else ss[s.uuid := Stream(Model(s), 0, [], [], [])]
  }

  function NextStreams(m: Meter, ss: map<bytes, Stream>, e: Event): map<bytes, Stream> {
    match e.out
    case Nothing => ss
    case Bound(s, _) => Declared(ss, s)
    case HeldValues(h) =>
      var u := h.schema.uuid;
      if u in ss && HoldsSomething(ss[u].model) then
        ss[u := ss[u].(holds := ss[u].holds + [RestatedOf(m, ss[u].model, h, e.at)])]
      else ss
    case Records(b, _) =>
      var u := b.schema.uuid;
      var st := Declared(ss, b.schema)[u];
      Declared(ss, b.schema)[u := st.(records := st.records + b.count, stats := st.stats + [StatRow(m, st.model, b)])]
  }

  /** A restatement that may have been moved onto an epoch already: it keeps its
      absolute ticks. */
  predicate SameHold(model: Schema, h: Restated, g: Restated) {
    h == g || (OnTime(model) && h.(axis := g.axis) == g)
  }

  /** What is kept of a stream, but for its frames, which are given to it anew each
      time the index is taken. */
  ghost predicate Keeps(s: Stream, g: Stream, unmoved: bool) {
    s.model == g.model && s.records == g.records && s.stats == g.stats && |s.holds| == |g.holds| &&
    (forall i :: 0 <= i < |g.holds| ==> SameHold(g.model, s.holds[i], g.holds[i])) && (unmoved ==> s.holds == g.holds)
  }

  ghost predicate Gathers(m: Meter, ss: map<bytes, Stream>, evs: seq<Event>) {
    ss.Keys == Models(evs).Keys && forall u :: u in ss ==> Keeps(ss[u], Gathered(m, evs, u), Epoch(m, evs) == None)
  }

  lemma KeepsAmended(m: Meter, s: Stream, g: Stream, e: Event, u: bytes, was: bool, now: bool)
    requires Keeps(s, g, was) && (now ==> was)
    ensures Keeps(Amended(m, s, e, u), Amended(m, g, e, u), now)
  {
    hide HoldsSomething;
    hide RestatedOf;
    hide StatRow;
  }

  lemma KeepsItself(s: Stream)
    ensures Keeps(s, s, true)
  {
  }

  lemma BasedKeeps(s: Stream, g: Stream, epoch: Option<int>)
    requires Keeps(s, g, epoch == None)
    ensures BasedAll(s.model, epoch, s.holds) == BasedAll(g.model, epoch, g.holds)
  {
    hide OnTime;
  }

  lemma SnocParts(m: Meter, evs: seq<Event>, e: Event)
    ensures Init(evs + [e]) == evs && Last(evs + [e]) == e
    ensures Models(evs + [e]) == NextModels(Models(evs), e)
  {
    hide NextModels;
  }

  /** An event changes what is kept of its own stream only. */
  lemma GatheredNext(m: Meter, evs: seq<Event>, e: Event, u: bytes)
    requires u in Models(evs + [e])
    ensures u in Models(evs) ==> Models(evs + [e])[u] == Models(evs)[u]
    ensures u !in Models(evs) ==> Shows(e).Some? && u == Shows(e).value.uuid && Models(evs + [e])[u] == Model(Shows(e).value)
    ensures var was := if u in Models(evs) then Gathered(m, evs, u) else Stream(Models(evs + [e])[u], 0, [], [], []);
      Gathered(m, evs + [e], u) == was.(
        records := was.records + (if IsOf(e, u) then e.out.batch.count else 0),
        stats := was.stats + (if IsOf(e, u) then [StatRow(m, was.model, e.out.batch)] else []),
        holds := was.holds + (if e.out.HeldValues? && e.out.held.schema.uuid == u && HoldsSomething(was.model)
                              then [RestatedOf(m, was.model, e.out.held, e.at)] else []))
  {
    SnocParts(m, evs, e);
    if u !in Models(evs) { UnknownHasNothing(m, evs, u); }
    hide StatRow;
    hide RestatedOf;
    hide HoldsSomething;
    hide Model;
    TotalNext(m, evs, e, u);
    hide Models;
    hide FramesFor;
    hide Data;
    hide Total;
  }

  lemma TotalNext(m: Meter, evs: seq<Event>, e: Event, u: bytes)
    ensures Total(FramesFor(Data(m, evs + [e]), u))
         == Total(FramesFor(Data(m, evs), u)) + (if IsOf(e, u) then e.out.batch.count else 0)
  {
    SnocParts(m, evs, e);
    SegmentsSome(evs + [e]);
    var x := Data(m, evs);
    if e.out.Records? {
      var d := FrameOf(m, e, |Segments(evs + [e])| - 1);
      assert d.uuid == e.out.batch.schema.uuid && d.count == e.out.batch.count;
      hide FrameOf;
      assert Init(x + [d]) == x && Last(x + [d]) == d;
      var fs := FramesFor(x, u);
      assert Init(fs + [d]) == fs && Last(fs + [d]) == d;
      assert fs + [] == fs;
    } else {
      assert x + [] == x;
    }
  }

  /** What an event does to a stream's record. */
  function Amended(m: Meter, was: Stream, e: Event, u: bytes): Stream {
    was.(records := was.records + (if IsOf(e, u) then e.out.batch.count else 0),
         stats := was.stats + (if IsOf(e, u) then [StatRow(m, was.model, e.out.batch)] else []),
         holds := was.holds + (if e.out.HeldValues? && e.out.held.schema.uuid == u && HoldsSomething(was.model)
                               then [RestatedOf(m, was.model, e.out.held, e.at)] else []))
  }

  function Shown(ss: map<bytes, Stream>, e: Event): map<bytes, Stream> {
    match Shows(e)
    case None => ss
    case Some(s) => Declared(ss, s)
  }

  lemma NextStreamAt(m: Meter, ss: map<bytes, Stream>, e: Event, u: bytes)
    requires u in Shown(ss, e)
    ensures u in NextStreams(m, ss, e) && NextStreams(m, ss, e)[u] == Amended(m, Shown(ss, e)[u], e, u)
  {
    hide StatRow;
    hide RestatedOf;
    hide HoldsSomething;
    hide Model;
    var was := Shown(ss, e)[u];
    assert was.stats + [] == was.stats && was.holds + [] == was.holds;
  }

  lemma NextStreamKeys(m: Meter, ss: map<bytes, Stream>, e: Event)
    ensures NextStreams(m, ss, e).Keys == Shown(ss, e).Keys
  {
    hide StatRow;
    hide RestatedOf;
    hide HoldsSomething;
    hide Model;
  }

  lemma ShownIs(m: Meter, ss: map<bytes, Stream>, evs: seq<Event>, e: Event)
    requires ss.Keys == Models(evs).Keys
    ensures Shown(ss, e).Keys == Models(evs + [e]).Keys
    ensures forall u :: u in Shown(ss, e) ==>
      Shown(ss, e)[u] == (if u in ss then ss[u] else Stream(Models(evs + [e])[u], 0, [], [], []))
  {
    SnocParts(m, evs, e);
    hide Model;
    hide Models;
  }

  lemma GatheredIs(m: Meter, evs: seq<Event>, e: Event, u: bytes)
    requires u in Models(evs + [e])
    ensures Gathered(m, evs + [e], u) ==
      Amended(m, if u in Models(evs) then Gathered(m, evs, u) else Stream(Models(evs + [e])[u], 0, [], [], []), e, u)
  {
    GatheredNext(m, evs, e, u);
    hide Models;
    hide Gathered;
    hide StatRow;
    hide RestatedOf;
    hide HoldsSomething;
  }

  lemma GathersNext(m: Meter, ss: map<bytes, Stream>, evs: seq<Event>, e: Event)
    requires Gathers(m, ss, evs)
    ensures Gathers(m, NextStreams(m, ss, e), evs + [e])
  {
    hide NextStreams;
    hide Shown;
    hide Models;
    hide Gathered;
    hide Amended;
    hide Keeps;
    ShownIs(m, ss, evs, e);
    NextStreamKeys(m, ss, e);
    EpochNext(m, evs, e);
    hide Epoch;
    forall u | u in Models(evs + [e])
      ensures u in NextStreams(m, ss, e) && Keeps(NextStreams(m, ss, e)[u], Gathered(m, evs + [e], u), Epoch(m, evs + [e]) == None)
    {
      NextStreamAt(m, ss, e, u);
      GatheredIs(m, evs, e, u);
      var s := Shown(ss, e)[u];
      var g := if u in Models(evs) then Gathered(m, evs, u) else Stream(Models(evs + [e])[u], 0, [], [], []);
      if u in ss {
        KeepsAmended(m, s, g, e, u, Epoch(m, evs) == None, Epoch(m, evs + [e]) == None);
      } else {
        KeepsItself(g);
        KeepsAmended(m, s, g, e, u, true, Epoch(m, evs + [e]) == None);
      }
    }
  }

  ghost predicate Lists(order: seq<bytes>, ks: set<bytes>) {
    (forall u :: u in order <==> u in ks) && forall i, j :: 0 <= i < j < |order| ==> order[i] != order[j]
  }

  /** The earliest tick so far: the largest there is stands for none. */
  predicate Earliest(epoch: int, have: bool, e: Option<int>) {
    e == (if have then Some(epoch) else None) && (have ==> epoch < MAX_TICK) && (!have ==> epoch == MAX_TICK)
  }

  lemma EpochNext(m: Meter, evs: seq<Event>, e: Event)
    ensures Epoch(m, evs + [e]) == Earlier(Epoch(m, evs), EpochOf(m, e))
  {
    SnocParts(m, evs, e);
  }

  lemma FramesNext(m: Meter, evs: seq<Event>, e: Event)
    ensures Segments(evs + [e]) == NextSegments(Segments(evs), e)
    ensures e.out.Records? ==> |Segments(evs + [e])| > 0
    ensures e.out.Records? ==> Data(m, evs + [e]) == Data(m, evs) + [FrameOf(m, e, |Segments(evs + [e])| - 1)]
    ensures !e.out.Records? ==> Data(m, evs + [e]) == Data(m, evs)
  {
    SnocParts(m, evs, e);
    SegmentsSome(evs + [e]);
    hide NextSegments;
    hide FrameOf;
  }

  /** A frame is told from its records, but for its place. */
  lemma FrameIs(m: Meter, e: Event, k: nat)
    requires e.out.Records?
    ensures FrameOf(m, e, k)
         == FrameOf(m, Event(0, Frame(0, 0, 0, []), Reading.Records(e.out.batch, None)), k).(ref := RefOf(e))
  {
    hide Axis;
    hide Ticks;
  }

  // --- finishing ------------------------------------------------------------------------------------------

  /** Moves restatements onto an epoch; those off the time axis stay. */
  method RebaseHolds(model: Schema, hs: seq<Restated>, epoch: int) returns (r: seq<Restated>)
    ensures r == BasedAll(model, Some(epoch), hs)
  {
    r := hs;
    if model.axisKind != AXIS_TIME { return; }
    for i := 0 to |hs|
      invariant |r| == |hs|
      invariant forall k :: 0 <= k < |hs| ==> r[k] == if k < i then Based(model, Some(epoch), hs[k]) else hs[k]
    {
      r := r[i := r[i].(axis := (r[i].ticks - epoch) as real)];
    }
  }

  method RebaseStreams(order: seq<bytes>, ss: map<bytes, Stream>, epoch: int) returns (r: map<bytes, Stream>)
    requires Lists(order, ss.Keys)
    ensures r.Keys == ss.Keys
    ensures forall u :: u in ss ==> r[u] == ss[u].(holds := BasedAll(ss[u].model, Some(epoch), ss[u].holds))
  {
    hide BasedAll;
    r := ss;
    for i := 0 to |order|
      invariant r.Keys == ss.Keys
      invariant forall u :: u in ss ==>
        r[u] == if u in order[..i] then ss[u].(holds := BasedAll(ss[u].model, Some(epoch), ss[u].holds)) else ss[u]
    {
      var u := order[i];
      assert u !in order[..i];
      var hs := RebaseHolds(r[u].model, r[u].holds, epoch);
      r := r[u := r[u].(holds := hs)];
      assert order[..i + 1] == order[..i] + [u];
    }
    assert order[..|order|] == order;
  }

  /** A stream's frames are given to it anew. */
  method ForgetFrames(order: seq<bytes>, ss: map<bytes, Stream>) returns (r: map<bytes, Stream>)
    requires Lists(order, ss.Keys)
    ensures r.Keys == ss.Keys
    ensures forall u :: u in ss ==> r[u] == ss[u].(frames := [])
  {
    r := ss;
    for i := 0 to |order|
      invariant r.Keys == ss.Keys
      invariant forall u :: u in ss ==> r[u] == if u in order[..i] then ss[u].(frames := []) else ss[u]
    {
      var u := order[i];
      r := r[u := r[u].(frames := [])];
      assert order[..i + 1] == order[..i] + [u];
    }
    assert order[..|order|] == order;
  }

  /** Gives each stream its frames, in file order. */
  method GroupFrames(order: seq<bytes>, ss: map<bytes, Stream>, data: seq<DataFrame>) returns (r: map<bytes, Stream>)
    requires Lists(order, ss.Keys)
    ensures r.Keys == ss.Keys
    ensures forall u :: u in ss ==> r[u] == ss[u].(frames := FramesFor(data, u))
  {
    r := ForgetFrames(order, ss);
    assert forall u :: FramesFor(data[..0], u) == [];
    hide FramesFor;
    hide Lists;
    for i := 0 to |data|
      invariant r.Keys == ss.Keys
      invariant forall u :: u in ss ==> r[u] == ss[u].(frames := FramesFor(data[..i], u))
    {
      var d := data[i];
      forall u | u in ss
        ensures FramesFor(data[..i + 1], u)
             == (if d.uuid == u then FramesFor(data[..i], u) + [d] else FramesFor(data[..i], u))
      {
        OneMoreFrame(data, i, u);
      }
      if d.uuid in r { r := r[d.uuid := r[d.uuid].(frames := r[d.uuid].frames + [d])]; }
    }
    assert data[..|data|] == data;
  }

  lemma OneMoreFrame(data: seq<DataFrame>, i: nat, u: bytes)
    requires i < |data|
    ensures FramesFor(data[..i + 1], u) == if data[i].uuid == u then FramesFor(data[..i], u) + [data[i]] else FramesFor(data[..i], u)
  {
    assert Init(data[..i + 1]) == data[..i] && Last(data[..i + 1]) == data[i];
    var fs := FramesFor(data[..i], u);
    assert fs + [] == fs;
  }

  /** Whether every stream has a summary for each of its frames. */
  method Parallel(order: seq<bytes>, ss: map<bytes, Stream>) returns (ok: bool)
    requires Lists(order, ss.Keys)
    ensures ok <==> forall u :: u in ss ==> |ss[u].frames| == |ss[u].stats|
  {
    var i := 0;
    while i < |order|
      invariant i <= |order|
      invariant forall k :: 0 <= k < i ==> |ss[order[k]].frames| == |ss[order[k]].stats|
    {
      if |ss[order[i]].frames| != |ss[order[i]].stats| { return false; }
      i := i + 1;
    }
    return true;
  }

  /** Streams rebased and given their frames are the streams of the index. */
  lemma StreamsFinished(m: Meter, evs: seq<Event>, ss: map<bytes, Stream>, data: seq<DataFrame>, rs: map<bytes, Stream>)
    requires Gathers(m, ss, evs) && data == MovedAll(Data(m, evs), -Origin(Epoch(m, evs)))
    requires rs.Keys == ss.Keys
    requires forall u :: u in ss ==>
      rs[u] == ss[u].(holds := BasedAll(ss[u].model, Epoch(m, evs), ss[u].holds), frames := FramesFor(data, u))
    ensures rs == IndexOf(m, evs, false).streams
    ensures forall u :: u in rs ==> |rs[u].frames| == |rs[u].stats|
  {
    hide *;
    IndexParts(m, evs, false);
    GathersParts(m, ss, evs);
    forall u | u in ss ensures rs[u] == StreamOf(m, evs, u) && |rs[u].frames| == |rs[u].stats| {
      var o := -Origin(Epoch(m, evs));
      StreamParts(m, evs, u);
      FramesForMoved(Data(m, evs), o, u);
      TotalMoved(Data(m, evs), o, u);
      RowsParallel(m, evs, u);
      BasedKeeps(ss[u], Gathered(m, evs, u), Epoch(m, evs));
    }
  }

  lemma GathersParts(m: Meter, ss: map<bytes, Stream>, evs: seq<Event>)
    requires Gathers(m, ss, evs)
    ensures ss.Keys == Models(evs).Keys
    ensures forall u :: u in ss ==>
      Keeps(ss[u], Gathered(m, evs, u), Epoch(m, evs) == None) &&
      Gathered(m, evs, u) == Stream(Models(evs)[u], Total(FramesFor(Data(m, evs), u)), [], Rows(m, evs, u), Holds(m, evs, u)) &&
      ss[u].model == Models(evs)[u] && ss[u].records == Total(FramesFor(Data(m, evs), u)) && ss[u].stats == Rows(m, evs, u)
  {
    hide Total;
    hide FramesFor;
    hide Models;
    hide Rows;
    hide Holds;
    hide Data;
    hide Epoch;
  }

  lemma {:induction false} TotalMoved(ds: seq<DataFrame>, delta: int, u: bytes)
    ensures Total(FramesFor(MovedAll(ds, delta), u)) == Total(FramesFor(ds, u))
    decreases |ds|
  {
    if ds != [] {
      TotalMoved(Init(ds), delta, u);
      assert Init(MovedAll(ds, delta)) == MovedAll(Init(ds), delta);
      var d := Last(ds);
      var fs, gs := FramesFor(Init(ds), u), FramesFor(MovedAll(Init(ds), delta), u);
      assert Init(fs + [d]) == fs && Init(gs + [Moved(d, delta)]) == gs;
      assert fs + [] == fs && gs + [] == gs;
    }
  }

  lemma KeepsBased(s: Stream, g: Stream, epoch: Option<int>, frames: seq<DataFrame>)
    requires Keeps(s, g, epoch == None)
    ensures Keeps(s.(holds := BasedAll(s.model, epoch, s.holds), frames := frames), g, epoch == None)
  {
    hide OnTime;
  }

  /** Giving streams their frames, and moving what stands on time, loses nothing. */
  lemma StillGathers(m: Meter, ss: map<bytes, Stream>, evs: seq<Event>, rs: map<bytes, Stream>)
    requires Gathers(m, ss, evs) && rs.Keys == ss.Keys
    requires forall u :: u in ss ==>
      rs[u] == ss[u].(holds := BasedAll(ss[u].model, Epoch(m, evs), ss[u].holds), frames := rs[u].frames)
    ensures Gathers(m, rs, evs)
  {
    hide *;
    GathersParts(m, ss, evs);
    forall u | u in rs ensures Keeps(rs[u], Gathered(m, evs, u), Epoch(m, evs) == None) {
      KeepsBased(ss[u], Gathered(m, evs, u), Epoch(m, evs), rs[u].frames);
    }
    GathersMake(m, rs, evs);
  }

  lemma GathersMake(m: Meter, ss: map<bytes, Stream>, evs: seq<Event>)
    requires ss.Keys == Models(evs).Keys
    requires forall u :: u in ss ==> Keeps(ss[u], Gathered(m, evs, u), Epoch(m, evs) == None)
    ensures Gathers(m, ss, evs)
  {
    hide Keeps;
    hide Gathered;
    hide Models;
    hide Epoch;
  }

  lemma EpochIs(epoch: int, have: bool, e: Option<int>)
    requires Earliest(epoch, have, e)
    ensures e == (if have then Some(epoch) else None) && Origin(e) == if have then epoch else 0
  {
  }

  lemma UnmovedFrames(ds: seq<DataFrame>)
    ensures MovedAll(ds, 0) == ds
  {
  }

  lemma UnmovedHolds()
    ensures forall model: Schema, hs: seq<Restated> :: BasedAll(model, None, hs) == hs
  {
  }

  /** The scan's state: the frame index, the streams in first-seen order, and the
      earliest tick so far. `seen` is what it has been shown. */
  class Scanner {
    const m: Meter
    const idx: Builder
    var order: seq<bytes>
    var streams: map<bytes, Stream>
    var holdOffset: nat
    var epoch: int
    var haveEpoch: bool
    ghost var seen: seq<Event>

    ghost predicate Valid()
      reads this, idx
    {
      idx.segs == Segments(seen) && idx.data == Data(m, seen) &&
      Lists(order, streams.Keys) && Gathers(m, streams, seen) && Earliest(epoch, haveEpoch, Epoch(m, seen))
    }

    constructor (meter: Meter, offsetBias: nat)
      ensures Valid() && fresh(idx) && m == meter && idx.bias == offsetBias && seen == []
    {
      m := meter;
      idx := new Builder(offsetBias);
      order, streams, holdOffset := [], map[], 0;
      epoch, haveEpoch, seen := MAX_TICK, false, [];
    }

    /** A stream declared but never written still belongs to what the file says. */
    method Declare(s: Schema)
      requires Lists(order, streams.Keys)
      modifies this`order, this`streams
      ensures Lists(order, streams.Keys) && streams == Declared(old(streams), s)
    {
      if s.uuid !in streams {
        streams := streams[s.uuid := Stream(Model(s), 0, [], [], [])];
        order := order + [s.uuid];
      }
    }

    method OnHold(h: Held, ghost e: Event)
      requires Lists(order, streams.Keys) && e.out == HeldValues(h) && e.at == holdOffset
      modifies this`streams
      ensures Lists(order, streams.Keys) && streams == NextStreams(m, old(streams), e)
    {
      hide HoldsSomething;
      hide RestatedOf;
      var u := h.schema.uuid;
      if u !in streams { return; }
      var st := streams[u];
      var r := NoteHold(m, st.model, h, holdOffset);
      if r.Some? { streams := streams[u := st.(holds := st.holds + [r.value])]; }
    }

    method OnRecords(b: Batch, ghost e: Event)
      requires Lists(order, streams.Keys) && e.out.Records? && e.out.batch == b
      requires exists o: Option<int> :: Earliest(epoch, haveEpoch, o)
      modifies this`order, this`streams, this`epoch, this`haveEpoch
      ensures Lists(order, streams.Keys) && streams == NextStreams(m, old(streams), e)
      ensures forall o: Option<int> :: Earliest(old(epoch), old(haveEpoch), o) ==>
        Earliest(epoch, haveEpoch, Earlier(o, EpochOf(m, e)))
    {
      hide StatRow;
      hide Axis;
      Declare(b.schema);
      var u := b.schema.uuid;
      var st := streams[u];
      var row := StatsFor(m, st.model, b);
      streams := streams[u := st.(records := st.records + b.count, stats := st.stats + [row])];
      if b.schema.axisKind == AXIS_TIME {
        var first := Axis(m, b, 0);
        if first.Some? && b.count > 0 {
          var t := Ticks(first.value);
          if t < epoch { epoch, haveEpoch := t, true; }
        }
      }
    }

    /** Takes one frame and what the reader made of it. */
    method Take(e: Event)
      requires Valid() && Paired(e)
      modifies this, idx
      ensures Valid() && seen == old(seen) + [e.(at := e.at + idx.bias)]
    {
      hide Segments;
      hide Data;
      hide Gathers;
      hide Lists;
      hide FrameOf;
      hide Declared;
      hide Epoch;
      hide Earliest;
      hide Model;
      ghost var evs, ss := seen, streams;
      ghost var e' := e.(at := e.at + idx.bias);
      FramesNext(m, evs, e');
      GathersNext(m, ss, evs, e');
      EpochNext(m, evs, e');
      if e.frame.typ == FRAME_HOLD { holdOffset := e.at + idx.bias; }
      idx.OnFrame(e.at, e.frame);
      match e.out {
        case Nothing =>
        case Bound(s, id) =>
          idx.OnSchema(s, id);
          Declare(s);
        case HeldValues(h) => OnHold(h, e');
        case Records(b, _) =>
          idx.OnBatch(m, b);
          FrameIs(m, e', |idx.segs| - 1);
          OnRecords(b, e');
      }
      seen := seen + [e'];
    }

    /** The index, once the epoch is known: frames and restatements are moved onto
        it and each stream is given its frames. */
    method Finish(truncated: bool, closed: bool) returns (r: Option<File>)
      requires Valid() && closed == Closed(seen)
      modifies this, idx
      ensures r == Some(IndexOf(m, old(seen), truncated))
    {
      hide *;
      ghost var evs, ss := seen, streams;
      IndexParts(m, evs, truncated);
      IndexParts(m, evs, false);
      ValidParts();
      EpochIs(epoch, haveEpoch, Epoch(m, evs));
      if haveEpoch {
        idx.data := RebaseFrames(idx.data, epoch);
        streams := RebaseStreams(order, streams, epoch);
      } else {
        UnmovedFrames(idx.data);
        UnmovedHolds();
      }
      streams := GroupFrames(order, streams, idx.data);
      StreamsFinished(m, evs, ss, idx.data, streams);
      assert streams == IndexOf(m, evs, truncated).streams;
      var ok := Parallel(order, streams);
      if !ok { return None; }
      r := Some(File(idx.segs, idx.data, streams, if haveEpoch then Some(epoch) else None, truncated, closed));
    }

    /** The index of everything taken so far. The frames are copied before they are
        moved, and restatements keep their ticks, so no call disturbs the next. */
    method Snapshot() returns (r: File)
      requires Valid()
      modifies this`streams
      ensures Valid() && r == IndexOf(m, seen, false).(closed := false)
    {
      hide *;
      ghost var ss := streams;
      IndexParts(m, seen, false);
      ValidParts();
      EpochIs(epoch, haveEpoch, Epoch(m, seen));
      var data := idx.data;
      if haveEpoch {
        data := RebaseFrames(data, epoch);
        streams := RebaseStreams(order, streams, epoch);
      } else {
        UnmovedFrames(data);
        UnmovedHolds();
      }
      streams := GroupFrames(order, streams, data);
      StreamsFinished(m, seen, ss, data, streams);
      StillGathers(m, ss, seen, streams);
      ValidAgain();
      r := File(idx.segs, data, streams, if haveEpoch then Some(epoch) else None, false, false);
    }

    lemma ValidAgain()
      requires idx.segs == Segments(seen) && idx.data == Data(m, seen) && Lists(order, streams.Keys)
      requires Gathers(m, streams, seen) && Earliest(epoch, haveEpoch, Epoch(m, seen))
      ensures Valid()
    {
      hide Segments;
      hide Data;
      hide Lists;
      hide Gathers;
      hide Epoch;
    }

    lemma ValidParts()
      requires Valid()
      ensures idx.segs == Segments(seen) && idx.data == Data(m, seen) && Lists(order, streams.Keys)
      ensures Gathers(m, streams, seen) && Earliest(epoch, haveEpoch, Epoch(m, seen))
    {
      hide Segments;
      hide Data;
      hide Lists;
      hide Models;
      hide Gathers;
    }
  }


  // --- a whole scan ---------------------------------------------------------------------------------------

  /** Builds the index of a scan as its events arrive. */
  method IndexEvents(m: Meter, evs: seq<Event>, truncated: bool, closed: bool, bias: nat) returns (r: Option<File>)
    requires (forall e :: e in evs ==> Paired(e)) && closed == Closed(evs)
    ensures r == Some(IndexOf(m, Shift(evs, bias), truncated))
  {
    hide IndexOf;
    hide Paired;
    hide Closed;
    var sc := new Scanner(m, bias);
    for i := 0 to |evs|
      invariant sc.Valid() && fresh(sc) && fresh(sc.idx) && sc.idx.bias == bias && sc.m == m
      invariant sc.seen == Shift(evs, bias)[..i]
    {
      assert evs[i] in evs;
      sc.Take(evs[i]);
      assert Shift(evs, bias)[..i + 1] == Shift(evs, bias)[..i] + [Shift(evs, bias)[i]];
    }
    assert Shift(evs, bias)[..|evs|] == Shift(evs, bias);
    ClosedShift(evs, bias);
    r := sc.Finish(truncated, closed);
  }

  lemma ClosedShift(evs: seq<Event>, d: nat)
    ensures Closed(Shift(evs, d)) == Closed(evs)
  {
    if Closed(evs) {
      var i :| 0 <= i < |evs| && evs[i].frame.typ == FRAME_END;
      assert Shift(evs, d)[i].frame.typ == FRAME_END;
    }
  }

  lemma ApplyPaired(z: Zip, rs: RState, f: Frame, at: nat)
    requires Apply(z, rs, f).Go?
    ensures Paired(Event(at, f, Apply(z, rs, f).out))
    ensures Apply(z, rs, f).rs.closed == (rs.closed || f.typ == FRAME_END)
  {
    hide TakeSchema;
    hide DecodeData;
    hide DecodeHold;
    hide TakeRun;
    hide TakeMeta;
    hide TakeAttach;
    hide TakeSeqNo;
  }

  /** What a replay reports fits its frames, and it reports the file closed when it
      has met an END frame. */
  lemma {:induction false} ReplayPaired(z: Zip, rs: RState, fs: seq<Frame>, at: nat)
    ensures var r := Replay(z, rs, fs, at);
      (forall e :: e in r.events ==> Paired(e)) && (r.rs.closed <==> rs.closed || Closed(r.events))
    decreases |fs|
  {
    hide Apply;
    if fs != [] {
      match Apply(z, rs, fs[0]) {
        case Stop => StopIsNotEnd(z, rs, fs[0]);
        case Go(rs', out) =>
          ApplyPaired(z, rs, fs[0], at);
          ReplayPaired(z, rs', fs[1..], at + fs[0].Size());
          var rest := Replay(z, rs', fs[1..], at + fs[0].Size()).events;
          ClosedFirst(Event(at, fs[0], out), rest);
          hide Paired;
      }
    }
  }

  lemma ClosedFirst(e: Event, rest: seq<Event>)
    ensures Closed([e] + rest) <==> e.frame.typ == FRAME_END || Closed(rest)
  {
    if e.frame.typ == FRAME_END { assert ([e] + rest)[0] == e; }
    if Closed(rest) {
      var i :| 0 <= i < |rest| && rest[i].frame.typ == FRAME_END;
      assert ([e] + rest)[i + 1] == rest[i];
    }
  }

  lemma StopIsNotEnd(z: Zip, rs: RState, f: Frame)
    requires Apply(z, rs, f).Stop?
    ensures f.typ != FRAME_END
  {
    hide OnData;
    hide OnHold;
    hide OnSchema;
  }

  /** A full scan builds the index the file has. */
  method ScanToIndex(z: Zip, m: Meter, file: bytes) returns (r: Option<File>)
    ensures r == IndexFile(z, m, file)
  {
    hide IndexOf;
    hide Replay;
    var s := ScanFile(z, file);
    if s == None { return None; }
    ReplayPaired(z, FRESH, WholeFrames(file[16..]), 16);
    FreshOpen();
    assert Shift(s.value.events, 0) == s.value.events;
    r := IndexEvents(m, s.value.events, s.value.truncated, s.value.rs.closed, 0);
  }

  /** A scan of the tail, its places put back. */
  method ScanTail(z: Zip, m: Meter, file: bytes, from: nat) returns (r: Option<File>)
    requires 16 <= from <= |file|
    ensures r == IndexTail(z, m, file, from)
  {
    hide IndexOf;
    hide Replay;
    var f := file[..16] + file[from..];
    var s := ScanFile(z, f);
    if s == None { return None; }
    ReplayPaired(z, FRESH, WholeFrames(f[16..]), 16);
    FreshOpen();
    r := IndexEvents(m, s.value.events, s.value.truncated, s.value.rs.closed, from - 16);
  }

  lemma FreshOpen()
    ensures !FRESH.closed
  {
  }
}
