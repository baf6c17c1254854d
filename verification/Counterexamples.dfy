/** Where extending a cached index goes wrong: three recordings, one for each way it
    can. */
module Counterexamples {
  import opened Bytes
  import opened Format
  import opened Frames
  import opened Records
  import opened Reading
  import opened Stats
  import opened Indexing
  import opened Joining
  import opened Growing
  import opened Merging
  import opened Programs
  import Wr = Writing
  import Runs
  import Guarantees
  import Resync
  import Resuming

  /** The file's first `n` bytes have an index that can be extended, what the tail
      declares is what was declared, and the extended index is not the file's. */
  ghost predicate Fails(z: Zip, m: Meter, file: bytes, n: nat) {
    16 <= n <= |file| < NO_LIMIT && IndexFile(z, m, file[..n]).Some? &&
    var cached := IndexFile(z, m, file[..n]).value;
    ResumePoint(cached).Some? &&
    var r := ResumePoint(cached).value;
    16 <= r <= |file| && Resuming.IndexTail(z, m, file, r).Some? &&
    var tail := Resuming.IndexTail(z, m, file, r).value;
    SameModels(cached, tail) && !EpochsAgree(cached, tail, r) && Merged(cached, tail, r) != IndexFile(z, m, file)
  }

  // --- from a recording's log to its file ---------------------------------------------------------------------

  /** Cut where event `k` begins, a recording's index is that of the events before. */
  lemma CutIndex(z: Zip, m: Meter, ops: seq<Wr.Op>, ws: Wr.WState, k: nat)
    requires Runs.Recorded(z, ops, ws) && k < |ws.log|
    ensures var n := ws.log[k].at;
      16 <= n <= |Runs.FileOf(ws)| && exists tr :: IndexFile(z, m, Runs.FileOf(ws)[..n]) == Some(IndexOf(m, ws.log[..k], tr))
  {
    hide *;
    Resync.FileFrom(z, ops, ws, k);
    var n := ws.log[k].at;
    Guarantees.CutAnywhere(z, ops, ws, n);
    Guarantees.WhollyBefore(z, ops, ws, n);
    var at := WholeBefore(FramesOf(ws.log), n - 16);
    var s := ScanFile(z, Runs.FileOf(ws)[..n]).value;
    assert at == k by { CutIs(z, ops, ws, k, at); }
    IndexFileOf(z, m, Runs.FileOf(ws)[..n]);
    assert IndexFile(z, m, Runs.FileOf(ws)[..n]) == Some(IndexOf(m, ws.log[..k], s.truncated));
  }

  lemma CutIs(z: Zip, ops: seq<Wr.Op>, ws: Wr.WState, k: nat, at: nat)
    requires Runs.Recorded(z, ops, ws) && k < |ws.log| && at <= |ws.log|
    requires forall i :: 0 <= i < |ws.log| ==> (i < at <==> ws.log[i].at + ws.log[i].frame.Size() <= ws.log[k].at)
    ensures at == k
  {
    hide *;
    Resync.FileFrom(z, ops, ws, k);
    var fs := FramesOf(ws.log);
    SizePositive(ws.log[k].frame);
    if k > 0 {
      Resync.FileFrom(z, ops, ws, k - 1);
      Guarantees.FramesLenNext(fs, k - 1);
    }
  }

  lemma SizePositive(f: Frame)
    ensures f.Size() > 0
  {
  }

  lemma IndexFileOf(z: Zip, m: Meter, file: bytes)
    ensures ScanFile(z, file).Some? ==>
      IndexFile(z, m, file) == Some(IndexOf(m, ScanFile(z, file).value.events, ScanFile(z, file).value.truncated))
  {
    hide ScanFile;
    hide IndexOf;
  }

  /** From a SYNC event on, a recording's tail has the index of the events from there. */
  lemma TailIndex(z: Zip, m: Meter, ops: seq<Wr.Op>, ws: Wr.WState, s: nat)
    requires Runs.Recorded(z, ops, ws) && s < |ws.log| && ws.log[s].frame.typ == FRAME_SYNC
    ensures var r := ws.log[s].at;
      16 <= r <= |Runs.FileOf(ws)| &&
      exists tr :: Resuming.IndexTail(z, m, Runs.FileOf(ws), r) == Some(IndexOf(m, ws.log[s..], tr))
  {
    hide *;
    Resync.FileFrom(z, ops, ws, s);
    var file := Runs.FileOf(ws);
    Guarantees.RoundTrip(z, ops, ws);
    Resuming.IndexFileIs(z, m, file);
    ScanHeader(z, file);
    ScanEvents(z, file);
    Resuming.TailIndexIs(z, m, file, s);
    var p := Replay(z, FRESH, WholeFrames(file[16..]), 16);
    assert Resuming.IndexTail(z, m, file, ws.log[s].at) == Some(IndexOf(m, ws.log[s..], p.stopped || Leftover(file[16..]) != []));
  }

  lemma ScanHeader(z: Zip, file: bytes)
    requires |file| >= 16 && ScanFile(z, file).Some?
    ensures HeaderOk(file[..16])
  {
    hide HeaderOk;
    hide Scan;
  }

  lemma ScanEvents(z: Zip, file: bytes)
    requires |file| >= 16 && ScanFile(z, file).Some?
    ensures ScanFile(z, file).value.events == Replay(z, FRESH, WholeFrames(file[16..]), 16).events
  {
    hide HeaderOk;
    hide Replay;
    hide WholeFrames;
    hide Leftover;
  }

  /** The last segment of a log is the one its last SYNC event opened. */
  lemma {:induction false} LastOpened(evs: seq<Event>, s: nat)
    requires s < |evs| && evs[s].frame.typ == FRAME_SYNC
    requires forall i :: s < i < |evs| ==> evs[i].frame.typ != FRAME_SYNC
    ensures Segments(evs) != [] && Last(Segments(evs)).sync == RefOf(evs[s])
    decreases |evs|
  {
    var pre := Init(evs);
    if s < |evs| - 1 {
      LastOpened(pre, s);
      assert pre[s] == evs[s];
      SyncKept(Segments(pre), Last(evs));
    }
    hide RefOf;
  }

  lemma SyncKept(segs: seq<Segment>, e: Event)
    requires segs != [] && e.frame.typ != FRAME_SYNC
    ensures NextSegments(segs, e) != [] && Last(NextSegments(segs, e)).sync == Last(segs).sync
  {
  }

  lemma ResumeAt(m: Meter, evs: seq<Event>, s: nat, tr: bool)
    requires s < |evs| && evs[s].frame.typ == FRAME_SYNC
    requires forall i :: s < i < |evs| ==> evs[i].frame.typ != FRAME_SYNC
    ensures ResumePoint(IndexOf(m, evs, tr)) == Some(evs[s].at)
  {
    LastOpened(evs, s);
    IndexParts(m, evs, tr);
    hide IndexOf;
    hide Segments;
  }

  /** What makes a recording fail, said of its log. */
  lemma FailsWhen(z: Zip, m: Meter, ops: seq<Wr.Op>, ws: Wr.WState, s: nat, k: nat)
    requires Runs.Recorded(z, ops, ws) && s < k < |ws.log| && |Runs.FileOf(ws)| < NO_LIMIT
    requires ws.log[s].frame.typ == FRAME_SYNC && forall i :: s < i < k ==> ws.log[i].frame.typ != FRAME_SYNC
    requires forall a, b :: SameModels(IndexOf(m, ws.log[..k], a), IndexOf(m, ws.log[s..], b))
    requires forall a, b :: !EpochsAgree(IndexOf(m, ws.log[..k], a), IndexOf(m, ws.log[s..], b), ws.log[s].at)
    ensures Fails(z, m, Runs.FileOf(ws), ws.log[k].at)
  {
    hide *;
    var file, n, r := Runs.FileOf(ws), ws.log[k].at, ws.log[s].at;
    CutIndex(z, m, ops, ws, k);
    var a :| IndexFile(z, m, file[..n]) == Some(IndexOf(m, ws.log[..k], a));
    var log := ws.log[..k];
    assert log[s] == ws.log[s] && forall i :: s < i < |log| ==> log[i] == ws.log[i];
    ResumeAt(m, log, s, a);
    TailIndex(z, m, ops, ws, s);
    var b :| Resuming.IndexTail(z, m, file, r) == Some(IndexOf(m, ws.log[s..], b));
    Resuming.GrownIndexIsWhole(z, m, file, n);
    FailsIs(z, m, file, n, IndexOf(m, log, a), IndexOf(m, ws.log[s..], b), r);
  }

  lemma FailsIs(z: Zip, m: Meter, file: bytes, n: nat, cached: File, tail: File, r: nat)
    requires 16 <= n <= |file| < NO_LIMIT && IndexFile(z, m, file[..n]) == Some(cached) && ResumePoint(cached) == Some(r)
    requires 16 <= r <= |file| && Resuming.IndexTail(z, m, file, r) == Some(tail)
    requires SameModels(cached, tail) && !EpochsAgree(cached, tail, r) && Merged(cached, tail, r) != IndexFile(z, m, file)
    ensures Fails(z, m, file, n)
  {
    hide IndexFile;
    hide ResumePoint;
    hide Resuming.IndexTail;
    hide SameModels;
    hide EpochsAgree;
    hide Merged;
  }

  // --- what the recordings' events say ---------------------------------------------------------------------------

  const CLOCK_MODEL := Model(Norm(CLOCK))
  const DIAL_MODEL := Model(Norm(DIAL))

  lemma TickSays(m: Meter, e: Event, t: u64)
    requires IsTick(e, t) && t < 1000
    ensures EpochOf(m, e) == Some(t) && Shows(e) == Some(Norm(CLOCK)) && e.out.Records? && FrameOf(m, e, 0).time
    ensures FrameOf(m, e, 0).ref.offset == e.at
  {
    hide NormFields;
  }

  lemma OthersSay(m: Meter, e: Event)
    ensures IsSync(e) ==> EpochOf(m, e) == None && Shows(e) == None && !e.out.Records?
    ensures IsBound(e, CLOCK) ==> EpochOf(m, e) == None && Shows(e) == Some(Norm(CLOCK)) && !e.out.Records?
    ensures IsBound(e, DIAL) ==> EpochOf(m, e) == None && Shows(e) == Some(Norm(DIAL)) && !e.out.Records?
    ensures IsHold(e, CLOCK) || IsHold(e, DIAL) ==> EpochOf(m, e) == None && Shows(e) == None && !e.out.Records?
  {
    hide Norm;
    hide Wr.Restated;
  }

  /** What one more event adds to an epoch and to the streams known. */
  lemma NextEvent(m: Meter, evs: seq<Event>, e: Event)
    ensures Epoch(m, evs + [e]) == Earlier(Epoch(m, evs), EpochOf(m, e))
    ensures Models(evs + [e]) == NextModels(Models(evs), e)
  {
    assert Init(evs + [e]) == evs && Last(evs + [e]) == e;
  }

  lemma NothingSeen(m: Meter)
    ensures Epoch(m, []) == None && Models([]) == map[]
  {
  }

  lemma EarlierNone()
    ensures forall x: Option<int> :: Earlier(None, x) == x && Earlier(x, None) == x
  {
  }

  function Both(): map<bytes, Schema> { map[CLOCK_UUID := CLOCK_MODEL, DIAL_UUID := DIAL_MODEL] }

  lemma ModelsNext(e: Event)
    ensures forall ms :: Shows(e) == None ==> NextModels(ms, e) == ms
    ensures Shows(e) == Some(Norm(CLOCK)) ==> NextModels(map[], e) == map[CLOCK_UUID := CLOCK_MODEL] && NextModels(Both(), e) == Both()
    ensures Shows(e) == Some(Norm(DIAL)) ==> NextModels(map[CLOCK_UUID := CLOCK_MODEL], e) == Both()
  {
    UuidsDiffer();
    hide NormFields;
    hide Model;
    assert Norm(CLOCK).uuid == CLOCK_UUID && Norm(DIAL).uuid == DIAL_UUID;
    assert map[CLOCK_UUID := CLOCK_MODEL][DIAL_UUID := DIAL_MODEL] == Both();
  }

  /** A segment's opening: both streams, and no place on time. */
  lemma OpeningSays(m: Meter, x: Event, y: Event, w: Event)
    requires IsSync(x) && IsBound(y, CLOCK) && IsBound(w, DIAL)
    ensures Epoch(m, [x, y, w]) == None && Models([x, y, w]) == Both()
  {
    hide *;
    NothingSeen(m);
    EarlierNone();
    OthersSay(m, x);
    OthersSay(m, y);
    OthersSay(m, w);
    ModelsNext(x);
    ModelsNext(y);
    ModelsNext(w);
    assert [] + [x] == [x] && [x] + [y] == [x, y] && [x, y] + [w] == [x, y, w];
    NextEvent(m, [], x);
    NextEvent(m, [x], y);
    NextEvent(m, [x, y], w);
  }

  /** What was cached: the first segment, and the SYNC frame of the second. */
  lemma CachedSays(m: Meter, log: seq<Event>)
    requires Common(log)
    ensures Epoch(m, log[..5]) == Some(10) && Models(log[..5]) == Both()
  {
    CommonParts(log);
    hide *;
    EarlierNone();
    OpeningSays(m, log[0], log[1], log[2]);
    TickSays(m, log[3], 10);
    OthersSay(m, log[4]);
    ModelsNext(log[3]);
    ModelsNext(log[4]);
    var a := [log[0], log[1], log[2]];
    assert log[..5] == a + [log[3]] + [log[4]];
    NextEvent(m, a, log[3]);
    NextEvent(m, a + [log[3]], log[4]);
  }

  lemma CommonParts(log: seq<Event>)
    requires Common(log)
    ensures |log| >= 7 && IsSync(log[0]) && IsBound(log[1], CLOCK) && IsBound(log[2], DIAL) && IsTick(log[3], 10)
    ensures IsSync(log[4]) && IsBound(log[5], CLOCK) && IsBound(log[6], DIAL)
    ensures log[4].frame.typ == FRAME_SYNC
  {
  }

  /** Its record stands on time, before the second segment. */
  lemma CachedTimed(m: Meter, log: seq<Event>, tr: bool)
    requires Common(log) && log[3].at < log[4].at
    ensures KeptTimed(IndexOf(m, log[..5], tr), log[4].at)
  {
    CommonParts(log);
    hide Common;
    TickSays(m, log[3], 10);
    OthersSay(m, log[4]);
    var evs, pre := log[..5], log[..4];
    IndexParts(m, evs, tr);
    hide IndexOf;
    hide Data;
    hide FrameOf;
    hide Epoch;
    var f := IndexOf(m, evs, tr);
    var i, g := DataHas(m, log);
    assert f.data[i].time && f.data[i].ref.offset < log[4].at;
  }

  /** The cached record's frame is in the index. */
  lemma DataHas(m: Meter, log: seq<Event>) returns (i: nat, g: nat)
    requires Common(log)
    ensures i < |Data(m, log[..5])| && log[3].out.Records? && Data(m, log[..5])[i] == FrameOf(m, log[3], g)
  {
    CommonParts(log);
    hide Common;
    TickSays(m, log[3], 10);
    OthersSay(m, log[4]);
    hide IsTick;
    hide IsSync;
    hide IsBound;
    var evs, pre := log[..5], log[..4];
    SegmentsSome(pre);
    hide Segments;
    hide FrameOf;
    assert Init(evs) == pre && Last(evs) == log[4] && Last(pre) == log[3];
    i, g := |Data(m, Init(pre))|, |Segments(pre)| - 1;
    assert Data(m, pre) == Data(m, Init(pre)) + [FrameOf(m, log[3], g)];
    assert Data(m, evs) == Data(m, pre) + [];
  }

  // --- the indexes ----------------------------------------------------------------------------------------------------

  lemma ModelsSame(m: Meter, a: seq<Event>, b: seq<Event>, trA: bool, trB: bool)
    requires Models(a) == Models(b)
    ensures SameModels(IndexOf(m, a, trA), IndexOf(m, b, trB))
  {
    IndexParts(m, a, trA);
    IndexParts(m, b, trB);
    hide IndexOf;
    forall u | u in Models(a) ensures StreamOf(m, a, u).model == StreamOf(m, b, u).model {
      StreamModel(m, a, u);
      StreamModel(m, b, u);
    }
    hide Models;
    hide StreamOf;
  }

  lemma StreamModel(m: Meter, evs: seq<Event>, u: bytes)
    requires u in Models(evs)
    ensures StreamOf(m, evs, u).model == Models(evs)[u] && StreamOf(m, evs, u).holds == BasedAll(Models(evs)[u], Epoch(m, evs), Holds(m, evs, u))
  {
    hide Models;
    hide Data;
    hide Rows;
    hide Holds;
    hide Epoch;
    hide BasedAll;
  }

  lemma EpochIs(m: Meter, evs: seq<Event>, tr: bool)
    ensures IndexOf(m, evs, tr).epoch == Epoch(m, evs)
  {
    hide Epoch;
    hide Data;
    hide Models;
    hide StreamOf;
  }

  /** The three ways, said of two indexes. */
  lemma Disagree(cached: File, tail: File, r: nat)
    ensures KeptTimed(cached, r) && cached.epoch == Some(10) && tail.epoch == Some(5) ==> !EpochsAgree(cached, tail, r)
    ensures TailPlain(tail) && cached.epoch == Some(10) && tail.epoch == Some(12) ==> !EpochsAgree(cached, tail, r)
    ensures TailTimed(tail) && cached.epoch == Some(10) && tail.epoch == None ==> !EpochsAgree(cached, tail, r)
  {
    hide KeptTimed;
    hide TailTimed;
    hide TailPlain;
  }

  lemma FileSize(ws: Wr.WState)
    requires FramesLen(FramesOf(ws.log)) <= 10000
    ensures |Runs.FileOf(ws)| < NO_LIMIT
  {
    Guarantees.FileParts(ws);
    Guarantees.HeaderIsOk();
    FramesLenBytes(FramesOf(ws.log));
    HeaderSize();
    hide Runs.FileOf;
  }

  lemma HeaderSize()
    ensures |FileHeader()| == 16
  {
  }

  // --- the recordings --------------------------------------------------------------------------------------------------

  /** The tail's record stands before the cached one: what was kept stays on the old
      epoch. */
  lemma EarlierTail(z: Zip, m: Meter) returns (ws: Wr.WState, n: nat)
    requires Inverse(z)
    ensures Runs.Recorded(z, EARLIER, ws) && Fails(z, m, Runs.FileOf(ws), n)
  {
    hide *;
    ws := RecordsEarlier(z);
    var log := ws.log;
    n := log[5].at;
    CommonParts(log);
    FileSize(ws);
    Resync.LaterIsFurther(z, EARLIER, ws, 3, 4);
    CachedSays(m, log);
    var t := log[4..];
    var open := [log[4], log[5], log[6]];
    assert t == open + [log[7]];
    OpeningSays(m, log[4], log[5], log[6]);
    TickSays(m, log[7], 5);
    ModelsNext(log[7]);
    EarlierNone();
    NextEvent(m, open, log[7]);
    forall a, b
      ensures SameModels(IndexOf(m, log[..5], a), IndexOf(m, t, b))
      ensures !EpochsAgree(IndexOf(m, log[..5], a), IndexOf(m, t, b), log[4].at)
    {
      ModelsSame(m, log[..5], t, a, b);
      CachedTimed(m, log, a);
      EpochIs(m, log[..5], a);
      EpochIs(m, t, b);
      Disagree(IndexOf(m, log[..5], a), IndexOf(m, t, b), log[4].at);
    }
    FailsWhen(z, m, EARLIER, ws, 4, 5);
  }

  lemma ModelsHold()
    ensures HoldsSomething(CLOCK_MODEL) && HoldsSomething(DIAL_MODEL) && OnTime(CLOCK_MODEL) && !OnTime(DIAL_MODEL)
    ensures Norm(CLOCK).uuid == CLOCK_UUID && Norm(DIAL).uuid == DIAL_UUID
  {
    ModelHolds(CLOCK);
    ModelHolds(DIAL);
    hide NormFields;
  }

  lemma ModelHolds(s: Schema)
    requires s == CLOCK || s == DIAL
    ensures HoldsSomething(Model(Norm(s)))
  {
    var once, twice := NormFields(s.fields), NormFields(NormFields(s.fields));
    assert |s.fields| == 1 && s.fields[0].hold;
    hide NormFields;
    assert once[0].hold && twice[0].hold;
    assert Model(Norm(s)).fields[0].hold;
  }

  /** A hold after a segment's opening restates a value of its stream. */
  lemma HoldSays(m: Meter, open: seq<Event>, h: Event, s: Schema)
    requires Models(open) == Both() && IsHold(h, s) && (s == CLOCK || s == DIAL)
    ensures Holds(m, open + [h], s.uuid) != []
  {
    ModelsHold();
    OthersSay(m, h);
    ModelsNext(h);
    NextEvent(m, open, h);
    BothHas();
    hide HoldsSomething;
    hide Both;
    hide Models;
    hide Norm;
    hide RestatedOf;
    assert Init(open + [h]) == open && Last(open + [h]) == h;
    assert Restates(open + [h], s.uuid);
  }

  lemma BothHas()
    ensures CLOCK_UUID in Both() && Both()[CLOCK_UUID] == CLOCK_MODEL
    ensures DIAL_UUID in Both() && Both()[DIAL_UUID] == DIAL_MODEL
    ensures CLOCK.uuid == CLOCK_UUID && DIAL.uuid == DIAL_UUID
  {
    UuidsDiffer();
  }

  lemma HoldsStay(m: Meter, evs: seq<Event>, e: Event, u: bytes)
    requires Holds(m, evs, u) != []
    ensures Holds(m, evs + [e], u) != []
  {
    hide Models;
    hide RestatedOf;
    hide Restates;
    assert Init(evs + [e]) == evs;
    assert |Holds(m, evs + [e], u)| >= |Holds(m, evs, u)|;
  }

  lemma TailRestates(m: Meter, t: seq<Event>, tr: bool, u: bytes)
    requires Models(t) == Both() && Holds(m, t, u) != []
    ensures u == DIAL_UUID ==> TailPlain(IndexOf(m, t, tr))
    ensures u == CLOCK_UUID ==> TailTimed(IndexOf(m, t, tr))
  {
    ModelsHold();
    BothHas();
    hide Both;
    IndexParts(m, t, tr);
    hide IndexOf;
    if u in Models(t) { StreamModel(m, t, u); }
    hide Holds;
    hide Models;
    hide StreamOf;
    hide OnTime;
  }

  /** A value of a stream that is not on time is restated in the tail, and the tail's
      clock begins later than the cached one: the restatement is moved with the clock. */
  lemma PlainRestatement(z: Zip, m: Meter) returns (ws: Wr.WState, n: nat)
    requires Inverse(z)
    ensures Runs.Recorded(z, LATER, ws) && Fails(z, m, Runs.FileOf(ws), n)
  {
    hide *;
    ws := RecordsLater(z);
    var log := ws.log;
    n := log[5].at;
    CommonParts(log);
    FileSize(ws);
    CachedSays(m, log);
    var t := log[4..];
    var open := [log[4], log[5], log[6]];
    assert t == open + [log[7]] + [log[8]];
    OpeningSays(m, log[4], log[5], log[6]);
    OthersSay(m, log[7]);
    TickSays(m, log[8], 12);
    ModelsNext(log[7]);
    ModelsNext(log[8]);
    EarlierNone();
    BothHas();
    NextEvent(m, open, log[7]);
    NextEvent(m, open + [log[7]], log[8]);
    HoldSays(m, open, log[7], DIAL);
    HoldsStay(m, open + [log[7]], log[8], DIAL_UUID);
    forall a, b
      ensures SameModels(IndexOf(m, log[..5], a), IndexOf(m, t, b))
      ensures !EpochsAgree(IndexOf(m, log[..5], a), IndexOf(m, t, b), log[4].at)
    {
      ModelsSame(m, log[..5], t, a, b);
      TailRestates(m, t, b, DIAL_UUID);
      EpochIs(m, log[..5], a);
      EpochIs(m, t, b);
      Disagree(IndexOf(m, log[..5], a), IndexOf(m, t, b), log[4].at);
    }
    FailsWhen(z, m, LATER, ws, 4, 5);
  }

  /** The tail restates a value on time and has no record: it has no epoch of its own,
      and the restatement is left where no epoch was subtracted. */
  lemma SilentRestatement(z: Zip, m: Meter) returns (ws: Wr.WState, n: nat)
    requires Inverse(z)
    ensures Runs.Recorded(z, SILENT, ws) && Fails(z, m, Runs.FileOf(ws), n)
  {
    hide *;
    ws := RecordsSilent(z);
    var log := ws.log;
    n := log[5].at;
    CommonParts(log);
    FileSize(ws);
    CachedSays(m, log);
    var t := log[4..];
    var open := [log[4], log[5], log[6]];
    assert t == open + [log[7]];
    OpeningSays(m, log[4], log[5], log[6]);
    OthersSay(m, log[7]);
    ModelsNext(log[7]);
    EarlierNone();
    BothHas();
    NextEvent(m, open, log[7]);
    HoldSays(m, open, log[7], CLOCK);
    forall a, b
      ensures SameModels(IndexOf(m, log[..5], a), IndexOf(m, t, b))
      ensures !EpochsAgree(IndexOf(m, log[..5], a), IndexOf(m, t, b), log[4].at)
    {
      ModelsSame(m, log[..5], t, a, b);
      TailRestates(m, t, b, CLOCK_UUID);
      EpochIs(m, log[..5], a);
      EpochIs(m, t, b);
      Disagree(IndexOf(m, log[..5], a), IndexOf(m, t, b), log[4].at);
    }
    FailsWhen(z, m, SILENT, ws, 4, 5);
  }
}
