/** Where records stand on a time axis, told of the base, the step and the scale a stream
    declares, and what an index then says of its frames. */
module Positions {
  import opened Bytes
  import opened Format
  import opened Frames
  import opened Records
  import opened Reading
  import opened Stats
  import opened Indexing
  import opened Query
  import opened Paging
  import BitOps
  import Sample
  import Access
  import Merging
  import Resuming

  const MIN_TICK := -0x8000_0000_0000_0000

  /** A tick count a word can hold. */
  predicate Tickable(t: int) { MIN_TICK <= t <= MAX_TICK }

  predicate OnClock(b: Batch) { b.schema.axisKind == AXIS_TIME && b.schema.axisMode == AXIS_IMPLICIT }

  // --- one record ------------------------------------------------------------------------------------

  /** The first record of a clocked batch is at its base. */
  lemma ClockStarts(m: Meter, b: Batch)
    requires OnClock(b)
    ensures Axis(m, b, 0) == Some(b.base)
  {
    BitOps.DivUnique(b.base, TWO64, 0, b.base);
  }

  /** And each next one is a step later, in a word. */
  lemma ClockSteps(m: Meter, b: Batch, i: nat)
    requires OnClock(b)
    ensures Axis(m, b, i).Some? && Axis(m, b, i + 1) == Some((Axis(m, b, i).value + b.schema.axisStep) % TWO64)
  {
    var s := b.schema.axisStep;
    assert (i + 1) * s == i * s + s;
    ModAdd(b.base + i * s, s);
  }

  lemma ModAdd(x: nat, y: nat)
    ensures (x % TWO64 + y) % TWO64 == (x + y) % TWO64
  {
    var q, r := x / TWO64, x % TWO64;
    var k, t := (r + y) / TWO64, (r + y) % TWO64;
    assert x + y == TWO64 * (q + k) + t;
    BitOps.DivUnique(x + y, TWO64, q + k, t);
  }

  /** A word is read as the tick count that is its like modulo 2^64. */
  lemma TicksUnique(v: u64, t: int, k: int)
    requires Tickable(t) && v - t == TWO64 * k
    ensures Ticks(v) == t
  {
  }

  lemma TicksLike(v: u64) returns (k: int)
    ensures Ticks(v) == v - TWO64 * k
  {
    k := if v < TWO64 / 2 then 0 else 1;
  }

  /** So the word that `a + b * c` wraps to is read as that number of ticks. */
  lemma TicksLinear(a: u64, b: nat, c: u64, tb: int, kb: int)
    requires b == tb + TWO64 * kb && Tickable(Ticks(a) + tb * Ticks(c))
    ensures Ticks((a + b * c) % TWO64) == Ticks(a) + tb * Ticks(c)
  {
    hide Ticks;
    var ka := TicksLike(a);
    var kc := TicksLike(c);
    var x := a + b * c;
    var q, r := x / TWO64, x % TWO64;
    var t := Ticks(a) + tb * Ticks(c);
    Wraps(a, b, c, Ticks(a), tb, Ticks(c), ka, kb, kc);
    TicksUnique(r, t, ka + tb * kc + kb * c - q);
  }

  lemma Wraps(a: int, b: int, c: int, ta: int, tb: int, tc: int, ka: int, kb: int, kc: int)
    requires a == ta + TWO64 * ka && b == tb + TWO64 * kb && c == tc + TWO64 * kc
    ensures a + b * c - (ta + tb * tc) == TWO64 * (ka + tb * kc + kb * c)
  {
    assert b * c == tb * c + (TWO64 * kb) * c;
    assert tb * c == tb * tc + tb * (TWO64 * kc);
    assert tb * (TWO64 * kc) == TWO64 * (tb * kc) && (TWO64 * kb) * c == TWO64 * (kb * c);
  }

  /** Record `i` of a clocked batch stands `i` steps after the base. */
  lemma ClockAt(m: Meter, b: Batch, i: nat)
    requires OnClock(b) && Tickable(Ticks(b.base) + i * Ticks(b.schema.axisStep))
    ensures Axis(m, b, i).Some? && Ticks(Axis(m, b, i).value) == Ticks(b.base) + i * Ticks(b.schema.axisStep)
  {
    hide Ticks;
    TicksLinear(b.base, i, b.schema.axisStep, i, 0);
  }

  /** A record with a time of its own stands that many scales after the base. */
  lemma ExplicitAt(m: Meter, b: Batch, i: nat, v: Value, x: u64)
    requires b.schema.axisKind == AXIS_TIME && b.schema.axisMode == AXIS_EXPLICIT
    requires Raw(b, i, b.schema.axisField) == Answer.Value(v) && m.explicit(v) == Some(x)
    requires Tickable(Ticks(b.base) + Ticks(m.whole(x)) * Ticks(b.schema.axisScale))
    ensures Axis(m, b, i).Some?
    ensures Ticks(Axis(m, b, i).value) == Ticks(b.base) + Ticks(m.whole(x)) * Ticks(b.schema.axisScale)
  {
    hide Ticks;
    hide Raw;
    var k := TicksLike(m.whole(x));
    TicksLinear(b.base, m.whole(x), b.schema.axisScale, Ticks(m.whole(x)), k);
  }

  // --- off time --------------------------------------------------------------------------------------

  function Power(x: real, i: nat): real { if i == 0 then 1.0 else x * Power(x, i - 1) }

  function Stepped(base: real, i: nat, step: real): real { base + i as real * step }

  function Raised(base: real, i: nat, ratio: real): real { base * Power(ratio, i) }

  function Along(base: real, x: real, scale: real): real { base + x * scale }

  /** Where a record is to stand: steps are added, ratios multiplied, and its own value
      scaled. */
  function Place(m: Meter, mode: byte, step: u64, scale: u64, base: u64, i: nat, x: u64): real {
    if mode == AXIS_IMPLICIT then Stepped(m.float(base), i, m.float(step))
    else if mode == AXIS_LOG then Raised(m.float(base), i, m.float(step))
    else Along(m.float(base), m.float(x), m.float(scale))
  }

  /** Floats add and multiply as the numbers they stand for. */
  ghost predicate Exactly(m: Meter) {
    forall mode: byte, step: u64, scale: u64, base: u64, i: nat, x: u64 ::
      m.float(m.position(mode, step, scale, base, i, x)) == Place(m, mode, step, scale, base, i, x)
  }

  lemma PlaceIs(m: Meter, mode: byte, step: u64, scale: u64, base: u64, i: nat, x: u64)
    requires Exactly(m)
    ensures m.float(m.position(mode, step, scale, base, i, x)) == Place(m, mode, step, scale, base, i, x)
  {
    hide Place;
  }

  /** Off time a record is so many steps, or so many times the ratio, from the base. */
  lemma FloatAt(m: Meter, b: Batch, i: nat, epoch: int)
    requires Exactly(m) && b.schema.axisKind != AXIS_TIME
    ensures b.schema.axisMode == AXIS_IMPLICIT ==> At(m, b, i, epoch) == Some(Stepped(m.float(b.base), i, m.float(b.schema.axisStep)))
    ensures b.schema.axisMode == AXIS_LOG ==> At(m, b, i, epoch) == Some(Raised(m.float(b.base), i, m.float(b.schema.axisStep)))
  {
    hide Raw;
    hide Stepped;
    hide Raised;
    hide Along;
    var s := b.schema;
    PlaceIs(m, s.axisMode, s.axisStep, s.axisScale, b.base, i, 0);
    hide Exactly;
    assert AXIS_LOG != AXIS_EXPLICIT && AXIS_IMPLICIT != AXIS_EXPLICIT && AXIS_LOG != AXIS_IMPLICIT;
  }

  /** Or as far as it says itself. */
  lemma OwnAt(m: Meter, b: Batch, i: nat, epoch: int, v: Value, x: u64)
    requires Exactly(m) && b.schema.axisKind != AXIS_TIME && b.schema.axisMode == AXIS_EXPLICIT
    requires Raw(b, i, b.schema.axisField) == Answer.Value(v) && m.explicit(v) == Some(x)
    ensures At(m, b, i, epoch) == Some(Along(m.float(b.base), m.float(x), m.float(b.schema.axisScale)))
  {
    hide Raw;
    hide Stepped;
    hide Raised;
    hide Along;
    var s := b.schema;
    PlaceIs(m, s.axisMode, s.axisStep, s.axisScale, b.base, i, x);
    hide Exactly;
    assert AXIS_LOG != AXIS_EXPLICIT && AXIS_IMPLICIT != AXIS_EXPLICIT;
  }

  /** On time it is the ticks since the epoch. */
  lemma TickAt(m: Meter, b: Batch, i: nat, epoch: int)
    requires OnClock(b) && Tickable(Ticks(b.base) + i * Ticks(b.schema.axisStep))
    ensures At(m, b, i, epoch) == Some((Ticks(b.base) + i * Ticks(b.schema.axisStep) - epoch) as real)
  {
    ClockAt(m, b, i);
    hide Ticks;
    hide Axis;
  }

  // --- a frame and its index -----------------------------------------------------------------------------

  /** A frame of an index whose batch is clocked and stays within a word begins at its
      base, counted from the epoch, and ends a step for each further record later. */
  lemma ClockedFrame(z: Zip, m: Meter, file: bytes, f: DataFrame, b: Batch)
    requires IndexFile(z, m, file).Some? && f in IndexFile(z, m, file).value.data
    requires BatchAt(z, file, f.ref.offset, b) && OnClock(b) && b.count > 0
    requires Tickable(Ticks(b.base) + (b.count - 1) * Ticks(b.schema.axisStep))
    ensures f.time && f.count == b.count
    ensures f.firstTick == Ticks(b.base) - Origin(IndexFile(z, m, file).value.epoch)
    ensures f.lastTick - f.firstTick == (b.count - 1) * Ticks(b.schema.axisStep)
  {
    hide *;
    var epoch := Origin(IndexFile(z, m, file).value.epoch);
    IndexDescribes(z, m, file, f, b);
    ClockIsTime(b);
    DescribedTicks(m, f, b, epoch);
    ClockStarts(m, b);
    ClockAt(m, b, b.count - 1);
  }

  lemma ClockIsTime(b: Batch)
    requires OnClock(b)
    ensures b.schema.axisKind == AXIS_TIME
  {
  }

  /** The ticks of an entry are those of its first and last records. */
  lemma DescribedTicks(m: Meter, f: DataFrame, b: Batch, epoch: int)
    requires Describes(m, f, b, epoch) && b.schema.axisKind == AXIS_TIME && b.count > 0
    ensures f.time && f.count == b.count
    ensures Axis(m, b, 0).Some? ==> f.firstTick == Ticks(Axis(m, b, 0).value) - epoch
    ensures Axis(m, b, b.count - 1).Some? ==> f.lastTick == Ticks(Axis(m, b, b.count - 1).value) - epoch
  {
    hide Axis;
    hide Ticks;
  }

  // --- the epoch -------------------------------------------------------------------------------------------

  /** A frame on time whose first record stands somewhere before the last tick there is. */
  predicate Begins(m: Meter, b: Batch) {
    b.schema.axisKind == AXIS_TIME && b.count > 0 && Axis(m, b, 0).Some? && Ticks(Axis(m, b, 0).value) < MAX_TICK
  }

  lemma {:induction false} EpochLeast(m: Meter, evs: seq<Event>)
    ensures forall i :: 0 <= i < |evs| && EpochOf(m, evs[i]).Some? ==>
      Epoch(m, evs).Some? && Epoch(m, evs).value <= EpochOf(m, evs[i]).value
    ensures Epoch(m, evs).Some? ==> exists i :: 0 <= i < |evs| && EpochOf(m, evs[i]) == Epoch(m, evs)
    decreases |evs|
  {
    hide EpochOf;
    if evs != [] {
      var pre := Init(evs);
      EpochLeast(m, pre);
      forall i | 0 <= i < |evs| && EpochOf(m, evs[i]).Some?
        ensures Epoch(m, evs).Some? && Epoch(m, evs).value <= EpochOf(m, evs[i]).value
      {
        if i < |pre| { assert pre[i] == evs[i]; }
      }
      if Epoch(m, evs).Some? {
        if Epoch(m, evs) == EpochOf(m, Last(evs)) {
          assert EpochOf(m, evs[|evs| - 1]) == Epoch(m, evs);
        } else {
          var i :| 0 <= i < |pre| && EpochOf(m, pre[i]) == Epoch(m, pre);
          assert EpochOf(m, evs[i]) == Epoch(m, evs);
        }
      }
    }
  }

  lemma BeginsAre(m: Meter, e: Event)
    ensures EpochOf(m, e).Some? <==> e.out.Records? && Begins(m, e.out.batch)
    ensures EpochOf(m, e).Some? ==> EpochOf(m, e).value == Ticks(Axis(m, e.out.batch, 0).value)
  {
    hide Axis;
    hide Ticks;
  }

  /** Every batch has its entry. */
  lemma {:induction false} EventEntry(m: Meter, evs: seq<Event>, i: nat) returns (q: nat, k: nat)
    requires i < |evs| && evs[i].out.Records?
    ensures q < |Data(m, evs)| && Data(m, evs)[q] == FrameOf(m, evs[i], k)
    decreases |evs|
  {
    hide FrameOf;
    hide Segments;
    SegmentsSome(evs);
    var n := |evs| - 1;
    if i == n {
      q, k := |Data(m, evs)| - 1, |Segments(evs)| - 1;
    } else {
      q, k := EventEntry(m, Init(evs), i);
    }
  }

  lemma IndexedEvents(z: Zip, m: Meter, file: bytes) returns (evs: seq<Event>)
    requires IndexFile(z, m, file).Some?
    ensures |file| >= 16 && evs == Access.EventsOf(z, file) && IndexFile(z, m, file).value.epoch == Epoch(m, evs)
    ensures IndexFile(z, m, file).value.data == MovedAll(Data(m, evs), -Origin(Epoch(m, evs)))
  {
    hide *;
    Access.IndexedHeader(z, m, file);
    evs := Access.EventsOf(z, file);
    Resuming.IndexFileIs(z, m, file);
    Access.EventsAre(z, file);
    var r := Replay(z, FRESH, WholeFrames(file[16..]), 16);
    Merging.IndexParts(m, evs, r.stopped || Leftover(file[16..]) != []);
  }

  /** No frame of an index begins before its epoch. */
  lemma NoneBeforeEpoch(z: Zip, m: Meter, file: bytes, f: DataFrame, b: Batch)
    requires IndexFile(z, m, file).Some? && f in IndexFile(z, m, file).value.data
    requires BatchAt(z, file, f.ref.offset, b) && Begins(m, b)
    ensures IndexFile(z, m, file).value.epoch.Some? && f.time && f.firstTick >= 0
  {
    hide *;
    var epoch := Origin(IndexFile(z, m, file).value.epoch);
    IndexDescribes(z, m, file, f, b);
    BeginsOnTime(m, b);
    DescribedTicks(m, f, b, epoch);
    var evs := IndexedEvents(z, m, file);
    var i := GivenEvent(z, file, f.ref.offset, b);
    BeginsAre(m, evs[i]);
    EpochLeast(m, evs);
    OriginIs(Epoch(m, evs));
  }

  lemma OriginIs(e: Option<int>)
    ensures e.Some? ==> Origin(e) == e.value
  {
  }

  lemma BeginsOnTime(m: Meter, b: Batch)
    requires Begins(m, b)
    ensures b.schema.axisKind == AXIS_TIME && b.count > 0 && Axis(m, b, 0).Some?
  {
    hide Axis;
  }

  lemma GivenEvent(z: Zip, file: bytes, offset: nat, b: Batch) returns (i: nat)
    requires BatchAt(z, file, offset, b)
    ensures |file| >= 16 && i < |Access.EventsOf(z, file)|
    ensures Access.EventsOf(z, file)[i].out.Records? && Access.EventsOf(z, file)[i].out.batch == b
  {
    hide Access.EventsOf;
    i :| 0 <= i < |Access.EventsOf(z, file)| && GaveAt(Access.EventsOf(z, file)[i], offset, b);
  }

  /** And one begins at it. */
  lemma EpochAttained(z: Zip, m: Meter, file: bytes) returns (f: DataFrame, b: Batch)
    requires IndexFile(z, m, file).Some? && IndexFile(z, m, file).value.epoch.Some?
    ensures f in IndexFile(z, m, file).value.data && BatchAt(z, file, f.ref.offset, b) && Begins(m, b)
    ensures f.time && f.firstTick == 0
  {
    hide *;
    var evs := IndexedEvents(z, m, file);
    EpochLeast(m, evs);
    var i :| 0 <= i < |evs| && EpochOf(m, evs[i]) == Epoch(m, evs);
    BeginsAre(m, evs[i]);
    b := evs[i].out.batch;
    var q, k := EventEntry(m, evs, i);
    var epoch := Origin(Epoch(m, evs));
    f := MovedAll(Data(m, evs), -epoch)[q];
    MovedIs(m, evs[i], k, epoch);
    EntryHere(m, f, evs[i], k, epoch);
    Access.RefSizes(evs[i]);
    EntryGave(z, m, file, f, evs[i], k, epoch, i);
    OriginIs(Epoch(m, evs));
  }

  lemma MovedIs(m: Meter, e: Event, k: nat, epoch: int)
    requires e.out.Records? && Begins(m, e.out.batch)
    ensures var f := Moved(FrameOf(m, e, k), -epoch);
      f.time && f.firstTick == Ticks(Axis(m, e.out.batch, 0).value) - epoch
  {
    hide Axis;
    hide Ticks;
  }

  // --- how many records a stream has ---------------------------------------------------------------------

  /** The records and the batches of a stream, among the first `n` events of a scan. */
  function RecordsMet(evs: seq<Event>, u: bytes, n: nat): (nat, nat)
    requires n <= |evs|
  {
    if n == 0 then (0, 0)
    else
      var was, out := RecordsMet(evs, u, n - 1), evs[n - 1].out;
      if out.Records? && out.batch.schema.uuid == u then (was.0 + out.batch.count, was.1 + 1) else was
  }

  lemma {:induction false} RecordsMetPrefix(evs: seq<Event>, u: bytes, n: nat)
    requires n < |evs|
    ensures RecordsMet(evs[..n], u, n) == RecordsMet(evs, u, n)
  {
    RecordsMetOn(evs, u, n, n);
  }

  lemma {:induction false} RecordsMetOn(evs: seq<Event>, u: bytes, n: nat, k: nat)
    requires k <= n < |evs|
    ensures RecordsMet(evs[..n], u, k) == RecordsMet(evs, u, k)
  {
    if k > 0 { RecordsMetOn(evs, u, n, k - 1); }
  }

  lemma MovedEntry(d: DataFrame, delta: int)
    ensures Moved(d, delta).uuid == d.uuid && Moved(d, delta).count == d.count
  {
  }

  lemma EntrySays(m: Meter, e: Event, k: nat)
    requires e.out.Records?
    ensures FrameOf(m, e, k).uuid == e.out.batch.schema.uuid && FrameOf(m, e, k).count == e.out.batch.count
  {
  }

  lemma TotalMore(ds: seq<DataFrame>, d: DataFrame, u: bytes)
    ensures var was, now := FramesFor(ds, u), FramesFor(ds + [d], u);
      if d.uuid == u then now == was + [d] && Total(now) == Total(was) + d.count else now == was
  {
    assert Init(ds + [d]) == ds;
    var was := FramesFor(ds, u);
    assert Init(was + [d]) == was;
  }

  lemma {:induction false} TotalIs(m: Meter, evs: seq<Event>, u: bytes, delta: int)
    ensures var fs := FramesFor(MovedAll(Data(m, evs), delta), u);
      (Total(fs), |fs|) == RecordsMet(evs, u, |evs|)
  {
    hide FrameOf;
    hide Moved;
    hide Segments;
    hide FramesFor;
    hide Total;
    if evs == [] {
      NoFramesFor(u);
    } else {
      var n := |evs| - 1;
      TotalIs(m, Init(evs), u, delta);
      RecordsMetPrefix(evs, u, n);
      if evs[n].out.Records? {
        SegmentsSome(evs);
        var d := FrameOf(m, evs[n], |Segments(evs)| - 1);
        EntrySays(m, evs[n], |Segments(evs)| - 1);
        MovedEntry(d, delta);
        TotalMore(MovedAll(Data(m, Init(evs)), delta), Moved(d, delta), u);
        assert MovedAll(Data(m, evs), delta) == MovedAll(Data(m, Init(evs)), delta) + [Moved(d, delta)];
      } else {
        assert Data(m, evs) == Data(m, Init(evs));
      }
    }
  }

  lemma NoFramesFor(u: bytes)
    ensures FramesFor([], u) == [] && Total([]) == 0
  {
  }

  lemma IndexedStream(z: Zip, m: Meter, file: bytes, u: bytes)
    requires IndexFile(z, m, file).Some? && u in IndexFile(z, m, file).value.streams
    ensures |file| >= 16 && u in Models(Access.EventsOf(z, file))
    ensures IndexFile(z, m, file).value.streams[u] == StreamOf(m, Access.EventsOf(z, file), u)
  {
    hide *;
    Access.IndexedHeader(z, m, file);
    var evs := Access.EventsOf(z, file);
    Resuming.IndexFileIs(z, m, file);
    Access.EventsAre(z, file);
    var r := Replay(z, FRESH, WholeFrames(file[16..]), 16);
    Merging.IndexParts(m, evs, r.stopped || Leftover(file[16..]) != []);
  }

  /** What an index counts of a stream is what its scan meets. */
  lemma StreamCounts(z: Zip, m: Meter, file: bytes, u: bytes)
    requires IndexFile(z, m, file).Some? && u in IndexFile(z, m, file).value.streams
    ensures |file| >= 16
    ensures var st, evs := IndexFile(z, m, file).value.streams[u], Access.EventsOf(z, file);
      (st.records, |st.frames|) == RecordsMet(evs, u, |evs|)
  {
    hide *;
    IndexedStream(z, m, file, u);
    var evs := Access.EventsOf(z, file);
    StreamFrames(m, evs, u);
    TotalIs(m, evs, u, -Origin(Epoch(m, evs)));
  }

  lemma StreamFrames(m: Meter, evs: seq<Event>, u: bytes)
    requires u in Models(evs)
    ensures var st, fs := StreamOf(m, evs, u), FramesFor(MovedAll(Data(m, evs), -Origin(Epoch(m, evs))), u);
      st.frames == fs && st.records == Total(fs)
  {
    hide Models;
    hide Data;
    hide Holds;
    hide Rows;
    hide Total;
    hide FramesFor;
  }
}
