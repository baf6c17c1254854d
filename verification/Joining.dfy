/** The index of two stretches of a scan, the second opening with a SYNC frame, is
    the first's index with the second's behind it. */
module Joining {
  import opened Bytes
  import opened Format
  import opened Frames
  import opened Records
  import opened Reading
  import opened Stats
  import opened Indexing

  predicate OpensSegment(evs: seq<Event>) { evs != [] && evs[0].frame.typ == FRAME_SYNC }

  lemma LastOfJoin<T>(a: seq<T>, b: seq<T>)
    requires b != []
    ensures Last(a + b) == Last(b) && Init(a + b) == a + Init(b)
  {
  }

  lemma InitOpens(b: seq<Event>)
    requires OpensSegment(b) && |b| > 1
    ensures OpensSegment(Init(b))
  {
  }

  lemma OnlyOne(b: seq<Event>)
    requires |b| == 1
    ensures Init(b) == [] && Last(b) == b[0] && b == [b[0]]
  {
  }

  // --- segments and frames --------------------------------------------------------------------

  function Renumbered(segs: seq<Segment>, n: nat): (r: seq<Segment>)
    ensures |r| == |segs|
    ensures forall i :: 0 <= i < |segs| ==> r[i] == segs[i].(index := segs[i].index + n)
  {
    seq(|segs|, i requires 0 <= i < |segs| => segs[i].(index := segs[i].index + n))
  }

  function Placed(ds: seq<DataFrame>, n: nat): (r: seq<DataFrame>)
    ensures |r| == |ds|
    ensures forall i :: 0 <= i < |ds| ==> r[i] == ds[i].(segment := ds[i].segment + n)
  {
    seq(|ds|, i requires 0 <= i < |ds| => ds[i].(segment := ds[i].segment + n))
  }

  /** The last segment is put another in place of, after renumbering as before it. */
  lemma ReplaceLast(s: seq<Segment>, t: seq<Segment>, n: nat, x: Segment)
    requires t != []
    ensures Init(s + Renumbered(t, n)) + [x.(index := x.index + n)] == s + Renumbered(Init(t) + [x], n)
    ensures Last(s + Renumbered(t, n)) == Last(t).(index := Last(t).index + n)
  {
    var r := Renumbered(t, n);
    assert Init(s + r) == s + Init(r) && Last(s + r) == Last(r);
    assert Init(r) == Renumbered(Init(t), n);
  }

  lemma NextJoin(s: seq<Segment>, t: seq<Segment>, n: nat, e: Event)
    requires t != [] && |s| == n
    ensures NextSegments(s + Renumbered(t, n), e) == s + Renumbered(NextSegments(t, e), n)
    ensures NextSegments(t, e) != []
  {
    hide Renumbered;
    hide RefOf;
    hide Init;
    hide Last;
    var all := s + Renumbered(t, n);
    if e.frame.typ == FRAME_SYNC {
      var x := NewSegment(|t|, RefOf(e));
      AddLast(s, t, n, x);
    } else if e.frame.typ == FRAME_RUN {
      ReplaceLast(s, t, n, WithRun(Last(t), RefOf(e)));
    } else if e.out.Bound? {
      ReplaceLast(s, t, n, WithSchema(Last(t), e.out.id, RefOf(e), e.out.schema.uuid));
    }
  }

  lemma AddLast(s: seq<Segment>, t: seq<Segment>, n: nat, x: Segment)
    ensures s + Renumbered(t, n) + [x.(index := x.index + n)] == s + Renumbered(t + [x], n)
  {
  }

  lemma {:induction false} SegmentsJoin(a: seq<Event>, b: seq<Event>)
    requires OpensSegment(b)
    ensures Segments(a + b) == Segments(a) + Renumbered(Segments(b), |Segments(a)|)
    ensures Segments(b) != []
    decreases |b|
  {
    LastOfJoin(a, b);
    if |b| == 1 {
      OnlyOne(b);
      assert a + [] == a;
    } else {
      InitOpens(b);
      SegmentsJoin(a, Init(b));
      NextJoin(Segments(a), Segments(Init(b)), |Segments(a)|, Last(b));
    }
  }

  /** What an event adds to the frames when it is in the last of `k` segments. */
  function Newest(m: Meter, e: Event, k: nat): seq<DataFrame>
    requires e.out.Records? ==> k > 0
  {
    if e.out.Records? then [FrameOf(m, e, k - 1)] else []
  }

  lemma DataGrows(m: Meter, evs: seq<Event>)
    requires evs != []
    ensures Last(evs).out.Records? ==> |Segments(evs)| > 0
    ensures Data(m, evs) == Data(m, Init(evs)) + Newest(m, Last(evs), |Segments(evs)|)
  {
    SegmentsSome(evs);
  }

  lemma NoData(m: Meter)
    ensures Data(m, []) == []
  {
  }

  lemma NewestShift(m: Meter, e: Event, k: nat, n: nat)
    requires e.out.Records? ==> k > 0
    ensures Newest(m, e, n + k) == Placed(Newest(m, e, k), n)
  {
    hide FrameOf;
    hide Placed;
    PlacedFew(Newest(m, e, k), n);
    if e.out.Records? { FrameShift(m, e, k - 1, n); }
  }

  lemma FrameShift(m: Meter, e: Event, k: nat, n: nat)
    requires e.out.Records?
    ensures FrameOf(m, e, n + k) == FrameOf(m, e, k).(segment := FrameOf(m, e, k).segment + n)
  {
    hide AxisOr;
    hide Ticks;
  }

  lemma PlacedFew(ds: seq<DataFrame>, n: nat)
    ensures ds == [] ==> Placed(ds, n) == []
    ensures |ds| == 1 ==> Placed(ds, n) == [ds[0].(segment := ds[0].segment + n)]
  {
  }

  lemma PlacedJoin(x: seq<DataFrame>, y: seq<DataFrame>, n: nat)
    ensures Placed(x + y, n) == Placed(x, n) + Placed(y, n)
  {
  }

  lemma SegmentsSum(a: seq<Event>, b: seq<Event>)
    requires OpensSegment(b)
    ensures |Segments(a + b)| == |Segments(a)| + |Segments(b)|
  {
    hide Segments;
    SegmentsJoin(a, b);
  }

  lemma {:induction false} DataJoin(m: Meter, a: seq<Event>, b: seq<Event>)
    requires OpensSegment(b)
    ensures Data(m, a + b) == Data(m, a) + Placed(Data(m, b), |Segments(a)|)
    decreases |b|
  {
    hide Data;
    hide Segments;
    hide Newest;
    hide Placed;
    var n := |Segments(a)|;
    if |b| == 1 {
      OnlyOne(b);
      NoData(m);
      assert a + [] == a && Data(m, a) + [] == Data(m, a);
      assert Data(m, a + Init(b)) == Data(m, a) + Placed(Data(m, Init(b)), n);
    } else {
      InitOpens(b);
      DataJoin(m, a, Init(b));
    }
    DataStep(m, a, b);
  }

  lemma DataStep(m: Meter, a: seq<Event>, b: seq<Event>)
    requires OpensSegment(b) && Data(m, a + Init(b)) == Data(m, a) + Placed(Data(m, Init(b)), |Segments(a)|)
    ensures Data(m, a + b) == Data(m, a) + Placed(Data(m, b), |Segments(a)|)
  {
    hide Data;
    hide Segments;
    hide Newest;
    hide Placed;
    var n := |Segments(a)|;
    LastOfJoin(a, b);
    SegmentsSum(a, b);
    DataGrows(m, a + b);
    DataGrows(m, b);
    NewestShift(m, Last(b), |Segments(b)|, n);
    var x, y := Data(m, Init(b)), Newest(m, Last(b), |Segments(b)|);
    PlacedJoin(x, y, n);
    assert (Data(m, a) + Placed(x, n)) + Placed(y, n) == Data(m, a) + (Placed(x, n) + Placed(y, n));
  }

  // --- epochs and models -----------------------------------------------------------------------

  lemma {:induction false} EpochJoin(m: Meter, a: seq<Event>, b: seq<Event>)
    ensures Epoch(m, a + b) == Earlier(Epoch(m, a), Epoch(m, b))
    decreases |b|
  {
    hide EpochOf;
    if b == [] {
      assert a + b == a;
    } else {
      LastOfJoin(a, b);
      EpochJoin(m, a, Init(b));
    }
  }

  lemma {:induction false} ModelsJoin(a: seq<Event>, b: seq<Event>)
    ensures Models(a + b).Keys == Models(a).Keys + Models(b).Keys
    ensures forall u :: u in Models(a + b) ==>
      Models(a + b)[u] == if u in Models(a) then Models(a)[u] else Models(b)[u]
    decreases |b|
  {
    hide Shows;
    hide Model;
    if b == [] {
      assert a + b == a;
    } else {
      LastOfJoin(a, b);
      ModelsJoin(a, Init(b));
    }
  }

  /** A model once seen stays. */
  lemma {:induction false} ModelsGrow(evs: seq<Event>, i: nat)
    requires i <= |evs|
    ensures forall u :: u in Models(evs[..i]) ==> u in Models(evs) && Models(evs)[u] == Models(evs[..i])[u]
  {
    ModelsJoin(evs[..i], evs[i..]);
    assert evs[..i] + evs[i..] == evs;
  }

  /** No stream is known by two models. */
  ghost predicate Agree(a: map<bytes, Schema>, b: map<bytes, Schema>) {
    forall u :: u in a && u in b ==> a[u] == b[u]
  }

  // --- summaries and restatements -----------------------------------------------------------------

  lemma {:induction false} RowsJoin(m: Meter, a: seq<Event>, b: seq<Event>, u: bytes)
    requires Agree(Models(a), Models(b))
    ensures Rows(m, a + b, u) == Rows(m, a, u) + Rows(m, b, u)
    decreases |b|
  {
    if b == [] {
      assert a + b == a && Rows(m, a, u) + [] == Rows(m, a, u);
    } else {
      LastOfJoin(a, b);
      ModelsJoin(a, b);
      ModelsGrow(b, |b| - 1);
      ModelKnown(b, u);
      hide StatRow;
      hide Models;
      RowsJoin(m, a, Init(b), u);
      var more := if IsOf(Last(b), u) then [StatRow(m, Models(b)[u], Last(b).out.batch)] else [];
      assert Rows(m, a, u) + (Rows(m, Init(b), u) + more) == (Rows(m, a, u) + Rows(m, Init(b), u)) + more;
    }
  }

  /** What is summarised is never taken back. */
  lemma {:induction false} RowsGrow(m: Meter, a: seq<Event>, b: seq<Event>, u: bytes)
    ensures Rows(m, a, u) <= Rows(m, a + b, u)
    decreases |b|
  {
    if b == [] {
      assert a + b == a;
    } else {
      LastOfJoin(a, b);
      RowsGrow(m, a, Init(b), u);
      hide StatRow;
    }
  }

  /** A restatement is of a stream that has been declared. */
  ghost predicate HeldKnown(evs: seq<Event>) {
    forall i :: 0 <= i < |evs| && evs[i].out.HeldValues? ==> evs[i].out.held.schema.uuid in Models(evs[..i + 1])
  }

  lemma KnownInit(b: seq<Event>)
    requires b != [] && HeldKnown(b)
    ensures HeldKnown(Init(b))
    ensures Last(b).out.HeldValues? ==> Last(b).out.held.schema.uuid in Models(b)
  {
    hide Models;
    assert b[..|b|] == b;
    forall i | 0 <= i < |b| - 1 && Init(b)[i].out.HeldValues?
      ensures Init(b)[i].out.held.schema.uuid in Models(Init(b)[..i + 1])
    {
      assert Init(b)[..i + 1] == b[..i + 1];
    }
  }

  lemma {:induction false} HoldsJoin(m: Meter, a: seq<Event>, b: seq<Event>, u: bytes)
    requires Agree(Models(a), Models(b)) && HeldKnown(b)
    ensures Holds(m, a + b, u) == Holds(m, a, u) + Holds(m, b, u)
    decreases |b|
  {
    if b == [] {
      assert a + b == a && Holds(m, a, u) + [] == Holds(m, a, u);
    } else {
      LastOfJoin(a, b);
      ModelsJoin(a, b);
      ModelsGrow(b, |b| - 1);
      KnownInit(b);
      hide RestatedOf;
      hide Models;
      hide HoldsSomething;
      hide HeldKnown;
      HoldsJoin(m, a, Init(b), u);
      var more := if Restates(b, u) then [RestatedOf(m, Models(b)[u], Last(b).out.held, Last(b).at)] else [];
      assert Holds(m, a, u) + (Holds(m, Init(b), u) + more) == (Holds(m, a, u) + Holds(m, Init(b), u)) + more;
    }
  }

  lemma {:induction false} HoldsGrow(m: Meter, a: seq<Event>, b: seq<Event>, u: bytes)
    ensures Holds(m, a, u) <= Holds(m, a + b, u)
    decreases |b|
  {
    if b == [] {
      assert a + b == a;
    } else {
      LastOfJoin(a, b);
      HoldsGrow(m, a, Init(b), u);
      hide RestatedOf;
      hide Restates;
    }
  }

  // --- where things are ------------------------------------------------------------------------------

  ghost predicate Within(evs: seq<Event>, lo: nat, hi: nat) {
    forall i :: 0 <= i < |evs| ==> lo <= evs[i].at < hi
  }

  lemma WithinInit(evs: seq<Event>, lo: nat, hi: nat)
    requires evs != [] && Within(evs, lo, hi)
    ensures Within(Init(evs), lo, hi) && lo <= Last(evs).at < hi
  {
  }

  lemma SyncsComeFrom(segs: seq<Segment>, e: Event)
    ensures forall i :: 0 <= i < |NextSegments(segs, e)| ==>
      NextSegments(segs, e)[i].sync == if i < |segs| then segs[i].sync else if e.frame.typ == FRAME_SYNC then RefOf(e) else NOWHERE
    ensures |NextSegments(segs, e)| >= |segs|
    ensures segs != [] && e.frame.typ != FRAME_SYNC ==> |NextSegments(segs, e)| == |segs|
  {
  }

  lemma {:induction false} SegmentsWithin(evs: seq<Event>, lo: nat, hi: nat)
    requires Within(evs, lo, hi)
    ensures forall i :: 0 <= i < |Segments(evs)| ==> Segments(evs)[i].sync.offset < hi || Segments(evs)[i].sync == NOWHERE
    ensures OpensSegment(evs) ==> forall i :: 0 <= i < |Segments(evs)| ==> lo <= Segments(evs)[i].sync.offset
    ensures OpensSegment(evs) ==> Segments(evs) != [] && Segments(evs)[0].sync == RefOf(evs[0])
    decreases |evs|
  {
    if evs != [] {
      WithinInit(evs, lo, hi);
      if |evs| > 1 && OpensSegment(evs) { InitOpens(evs); }
      SegmentsWithin(Init(evs), lo, hi);
      SyncsComeFrom(Segments(Init(evs)), Last(evs));
      hide NextSegments;
    }
  }

  lemma {:induction false} DataWithin(m: Meter, evs: seq<Event>, lo: nat, hi: nat)
    requires Within(evs, lo, hi)
    ensures forall i :: 0 <= i < |Data(m, evs)| ==> lo <= Data(m, evs)[i].ref.offset < hi
    decreases |evs|
  {
    if evs != [] {
      WithinInit(evs, lo, hi);
      DataWithin(m, Init(evs), lo, hi);
    }
  }

  lemma {:induction false} HoldsWithin(m: Meter, evs: seq<Event>, u: bytes, lo: nat, hi: nat)
    requires Within(evs, lo, hi)
    ensures forall i :: 0 <= i < |Holds(m, evs, u)| ==> lo <= Holds(m, evs, u)[i].offset < hi
    decreases |evs|
  {
    if evs != [] {
      WithinInit(evs, lo, hi);
      HoldsWithin(m, Init(evs), u, lo, hi);
      hide Restates;
      hide Values;
    }
  }

  /** Events come in file order. */
  ghost predicate Ordered(evs: seq<Event>) {
    forall i, j :: 0 <= i < j < |evs| ==> evs[i].at < evs[j].at
  }

  ghost predicate InOrder(ds: seq<DataFrame>) {
    forall i, j :: 0 <= i < j < |ds| ==> ds[i].ref.offset < ds[j].ref.offset
  }

  lemma {:induction false} DataInOrder(m: Meter, evs: seq<Event>)
    requires Ordered(evs)
    ensures InOrder(Data(m, evs))
    decreases |evs|
  {
    if evs != [] {
      DataInOrder(m, Init(evs));
      if Last(evs).out.Records? {
        DataWithin(m, Init(evs), 0, Last(evs).at);
        hide Data;
        SegmentsSome(evs);
        assert FrameOf(m, Last(evs), |Segments(evs)| - 1).ref.offset == Last(evs).at;
      }
    }
  }

  /** As many frames as summaries. */
  lemma {:induction false} RowsParallel(m: Meter, evs: seq<Event>, u: bytes)
    ensures |Rows(m, evs, u)| == |FramesFor(Data(m, evs), u)|
    decreases |evs|
  {
    if evs != [] {
      RowsParallel(m, Init(evs), u);
      hide StatRow;
      ModelKnown(evs, u);
      SegmentsSome(evs);
      if Last(evs).out.Records? {
        var d := FrameOf(m, Last(evs), |Segments(evs)| - 1);
        assert d.uuid == Last(evs).out.batch.schema.uuid;
        LastOfJoin(Data(m, Init(evs)), [d]);
        assert Init([d]) == [];
        assert Data(m, Init(evs)) + [] == Data(m, Init(evs));
      } else {
        assert Data(m, evs) == Data(m, Init(evs));
      }
    }
  }
}
