/** Indexing a file that has grown by scanning only from the last cached segment. */
module Resuming {
  import opened Bytes
  import opened Wire
  import opened Format
  import opened Frames
  import opened Records
  import opened Reading
  import opened Guarantees
  import opened Resync
  import opened Stats
  import opened Indexing
  import opened Joining
  import opened Growing
  import opened Merging

  /** A scan of the tail: the file's header and its bytes from `r` on, with every
      place counted from the start of the file. */
  function IndexTail(z: Zip, m: Meter, file: bytes, r: nat): Option<File>
    requires 16 <= r <= |file|
  {
    match ScanFile(z, file[..16] + file[r..])
    case None => None
    case Some(s) => Some(IndexOf(m, Shift(s.events, r - 16), s.truncated))
  }

  // --- restatements follow declarations -------------------------------------------------------------

  ghost predicate Knows(rs: RState, ms: map<bytes, Schema>) {
    forall id :: id in rs.streams ==> rs.streams[id].uuid in ms
  }

  ghost predicate HeldAfter(pre: seq<Event>, evs: seq<Event>) {
    forall i :: 0 <= i < |evs| && evs[i].out.HeldValues? ==> evs[i].out.held.schema.uuid in Models(pre + evs[..i + 1])
  }

  lemma HeldSchema(z: Zip, rs: RState, f: Frame)
    requires Apply(z, rs, f).Go? && Apply(z, rs, f).out.HeldValues?
    ensures f.id in rs.streams && Apply(z, rs, f).out.held.schema == rs.streams[f.id]
  {
    hide TakeSchema;
    hide DecodeData;
    hide TailsOf;
  }

  /** Every tag bound by a frame names a stream that was bound before or is bound by
      this very frame. */
  lemma KnowsNext(z: Zip, rs: RState, f: Frame, pre: seq<Event>, at: nat)
    requires Knows(rs, Models(pre)) && Apply(z, rs, f).Go?
    ensures Knows(Apply(z, rs, f).rs, Models(pre + [Event(at, f, Apply(z, rs, f).out)]))
  {
    BindingsNext(z, rs, f);
    hide Apply;
    var e := Event(at, f, Apply(z, rs, f).out);
    LastOfJoin(pre, [e]);
    assert Init([e]) == [];
    assert pre + [] == pre;
    hide Model;
  }

  lemma BindingsNext(z: Zip, rs: RState, f: Frame)
    requires Apply(z, rs, f).Go?
    ensures var g := Apply(z, rs, f);
      forall id :: id in g.rs.streams ==>
        (id in rs.streams && g.rs.streams[id] == rs.streams[id]) || (g.out.Bound? && g.rs.streams[id] == g.out.schema)
  {
    hide TakeSchema;
    hide DecodeData;
    hide DecodeHold;
    hide TakeRun;
    hide TakeMeta;
    hide TakeAttach;
    hide TakeSeqNo;
  }

  lemma HeldFirst(pre: seq<Event>, e: Event, rest: seq<Event>)
    requires e.out.HeldValues? ==> e.out.held.schema.uuid in Models(pre + [e])
    requires HeldAfter(pre + [e], rest)
    ensures HeldAfter(pre, [e] + rest)
  {
    hide Models;
    var evs := [e] + rest;
    forall i | 0 <= i < |evs| && evs[i].out.HeldValues?
      ensures evs[i].out.held.schema.uuid in Models(pre + evs[..i + 1])
    {
      if i == 0 {
        assert evs[..1] == [e];
      } else {
        assert pre + evs[..i + 1] == (pre + [e]) + rest[..i];
      }
    }
  }

  lemma {:induction false} ReplayKnows(z: Zip, rs: RState, fs: seq<Frame>, at: nat, pre: seq<Event>)
    requires Knows(rs, Models(pre))
    ensures HeldAfter(pre, Replay(z, rs, fs, at).events)
    decreases |fs|
  {
    hide Apply;
    hide Knows;
    hide HeldAfter;
    hide Models;
    if fs == [] {
      NoneHeld(pre);
    } else {
      match Apply(z, rs, fs[0]) {
        case Stop =>
          var e := Event(at, fs[0], Nothing);
          NoneHeld(pre + [e]);
          HeldFirst(pre, e, []);
          assert [e] + [] == [e];
        case Go(rs', out) =>
          var e := Event(at, fs[0], out);
          KnowsNext(z, rs, fs[0], pre, at);
          if out.HeldValues? { HeldIsKnown(z, rs, fs[0], pre, at); }
          ReplayKnows(z, rs', fs[1..], at + fs[0].Size(), pre + [e]);
          HeldFirst(pre, e, Replay(z, rs', fs[1..], at + fs[0].Size()).events);
      }
    }
  }

  lemma NoneHeld(pre: seq<Event>)
    ensures HeldAfter(pre, [])
  {
  }

  lemma HeldIsKnown(z: Zip, rs: RState, f: Frame, pre: seq<Event>, at: nat)
    requires Knows(rs, Models(pre)) && Apply(z, rs, f).Go? && Apply(z, rs, f).out.HeldValues?
    ensures Apply(z, rs, f).out.held.schema.uuid in Models(pre + [Event(at, f, Apply(z, rs, f).out)])
  {
    HeldSchema(z, rs, f);
    hide Apply;
    ModelsJoin(pre, [Event(at, f, Apply(z, rs, f).out)]);
    hide Models;
  }

  lemma FreshHeld(z: Zip, fs: seq<Frame>, at: nat)
    ensures HeldKnown(Replay(z, FRESH, fs, at).events)
  {
    FreshKnows();
    ReplayKnows(z, FRESH, fs, at, []);
    var evs := Replay(z, FRESH, fs, at).events;
    hide Replay;
    hide Models;
    forall i | 0 <= i < |evs| && evs[i].out.HeldValues? ensures evs[i].out.held.schema.uuid in Models(evs[..i + 1]) {
      assert [] + evs[..i + 1] == evs[..i + 1];
    }
  }

  lemma FreshKnows()
    ensures Knows(FRESH, Models([]))
  {
  }

  // --- the tail's events are the file's from the resume point on ------------------------------------------

  /** Dropping whole frames from the front of a byte string drops them from what is
      read. */
  lemma FramesFrom(s: bytes, j: nat)
    requires j <= |WholeFrames(s)|
    ensures var n := FramesLen(WholeFrames(s)[..j]);
      n <= |s| && WholeFrames(s[n..]) == WholeFrames(s)[j..] && Leftover(s[n..]) == Leftover(s)
  {
    hide *;
    var fs := WholeFrames(s);
    var n := FramesLen(fs[..j]);
    SplitWhole(s);
    assert fs == fs[..j] + fs[j..];
    FramesAppend(fs[..j], fs[j..]);
    FramesLenBytes(fs[..j]);
    SkipTo([], FramesBytes(fs[..j]), FramesBytes(fs[j..]) + Leftover(s));
    assert s == [] + (FramesBytes(fs[..j]) + (FramesBytes(fs[j..]) + Leftover(s)));
    FitSuffix(fs, j);
    FramesBack(fs[j..], Leftover(s));
    NothingFramed(Leftover(s));
    assert fs[j..] + [] == fs[j..];
  }

  lemma FitSuffix(fs: seq<Frame>, j: nat)
    requires AllFit(fs) && j <= |fs|
    ensures AllFit(fs[j..])
  {
  }

  lemma NothingFramed(s: bytes)
    requires !ReadFrame(s).Got?
    ensures WholeFrames(s) == [] && Leftover(s) == s
  {
    hide ReadFrame;
  }

  /** A fresh reader given the frames from a SYNC frame on meets what the scan met
      there, in the same places, and stops where it stopped. */
  lemma ReplayFrom(z: Zip, fs: seq<Frame>, j: nat)
    requires var r := Replay(z, FRESH, fs, 16); j < |r.events| && r.events[j].frame.typ == FRAME_SYNC
    ensures var r := Replay(z, FRESH, fs, 16);
      j < |fs| && r.events[j].at == 16 + FramesLen(fs[..j]) &&
      var t := Replay(z, FRESH, fs[j..], r.events[j].at);
      t.events == r.events[j..] && t.stopped == r.stopped
  {
    hide *;
    var r := Replay(z, FRESH, fs, 16);
    ReplayCount(z, FRESH, fs, 16);
    ReplayPlaces(z, FRESH, fs, 16);
    var p := Replay(z, FRESH, fs[..j], 16);
    ReplayPrefix(z, FRESH, fs, j, 16);
    ReplayCount(z, FRESH, fs[..j], 16);
    assert fs == fs[..j] + fs[j..];
    ReplayAppend(z, FRESH, fs[..j], fs[j..], 16);
    var at := 16 + FramesLen(fs[..j]);
    ReplayWatch(z, FRESH, fs[..j], 16);
    ReplayFromSync(z, p.rs, FRESH, fs[j..], at);
  }

  // --- a cut file's events are a prefix of the file's -----------------------------------------------------

  lemma CutEvents(z: Zip, s: bytes, k: nat)
    requires k <= |s|
    ensures var e := Replay(z, FRESH, WholeFrames(s), 16).events;
      Replay(z, FRESH, WholeFrames(s[..k]), 16).events <= e
  {
    hide *;
    var fs := WholeFrames(s);
    CutAnything(s, k);
    ReplayPrefix(z, FRESH, fs, WholeBefore(fs, k), 16);
  }

  lemma EventsOrdered(z: Zip, s: bytes)
    ensures var e := Replay(z, FRESH, WholeFrames(s), 16).events;
      Ordered(e) && Within(e, 16, 16 + |s|)
  {
    hide *;
    var fs := WholeFrames(s);
    var e := Replay(z, FRESH, fs, 16).events;
    ReplayPlaces(z, FRESH, fs, 16);
    SplitWhole(s);
    FramesLenBytes(fs);
    assert fs[..|fs|] == fs;
    forall i | 0 <= i < |e| ensures 16 <= e[i].at < 16 + |s| {
      FramesLenNext(fs, i);
      FrameSizePositive(fs[i]);
      FramesLenMono(fs, i + 1, |fs|);
    }
    forall i, j | 0 <= i < j < |e| ensures e[i].at < e[j].at {
      FramesLenNext(fs, i);
      FrameSizePositive(fs[i]);
      FramesLenMono(fs, i + 1, j);
    }
    OrderedMake(e, 16, 16 + |s|);
  }

  lemma OrderedMake(e: seq<Event>, lo: nat, hi: nat)
    requires forall i, j :: 0 <= i < j < |e| ==> e[i].at < e[j].at
    requires forall i :: 0 <= i < |e| ==> lo <= e[i].at < hi
    ensures Ordered(e) && Within(e, lo, hi)
  {
  }

  /** The last segment of an index was opened by a SYNC frame of the scan. */
  lemma {:induction false} LastSync(evs: seq<Event>) returns (j: nat)
    requires Segments(evs) != [] && Last(Segments(evs)).sync.typ != 0
    ensures j < |evs| && evs[j].frame.typ == FRAME_SYNC && evs[j].at == Last(Segments(evs)).sync.offset
    decreases |evs|
  {
    var segs := Segments(Init(evs));
    SyncsComeFrom(segs, Last(evs));
    hide NextSegments;
    if Last(evs).frame.typ == FRAME_SYNC && |Segments(evs)| > |segs| {
      j := |evs| - 1;
    } else {
      j := LastSync(Init(evs));
    }
  }

  /** A scan falls into what is kept, what was cached of the rest, and the rest. */
  lemma SplitAt(e: seq<Event>, n: nat, j: nat, hi: nat)
    requires j < n <= |e| && e[j].frame.typ == FRAME_SYNC && Ordered(e) && Within(e, 16, hi) && hi <= NO_LIMIT
    requires HeldKnown(e[j..])
    ensures Split(e[..j], e[j..n], e[j..], e[j].at)
    ensures e[..j] + e[j..n] == e[..n] && e[..j] + e[j..] == e
  {
    assert e[j..n] == e[j..][..n - j];
    assert e[..j] + e[j..] == e;
  }

  lemma IndexFileIs(z: Zip, m: Meter, file: bytes)
    requires |file| >= 16
    ensures IndexFile(z, m, file).Some? <==> HeaderOk(file[..16])
    ensures IndexFile(z, m, file).Some? ==>
      var r := Replay(z, FRESH, WholeFrames(file[16..]), 16);
      IndexFile(z, m, file) == Some(IndexOf(m, r.events, r.stopped || Leftover(file[16..]) != []))
  {
    hide Replay;
    hide IndexOf;
    hide HeaderOk;
    hide WholeFrames;
    hide Leftover;
  }

  lemma IndexTailIs(z: Zip, m: Meter, file: bytes, r: nat)
    requires 16 <= r <= |file| && HeaderOk(file[..16])
    ensures var t := Replay(z, FRESH, WholeFrames(file[r..]), r);
      IndexTail(z, m, file, r) == Some(IndexOf(m, t.events, t.stopped || Leftover(file[r..]) != []))
  {
    hide IndexOf;
    hide HeaderOk;
    hide Leftover;
    hide WholeFrames;
    var f := file[..16] + file[r..];
    assert f[..16] == file[..16] && f[16..] == file[r..];
    ReplayShift(z, FRESH, WholeFrames(file[r..]), 16, r - 16);
    hide Replay;
  }

  /** A tail scanned from a SYNC frame of the file is the file's scan from there. */
  lemma TailIndexIs(z: Zip, m: Meter, file: bytes, j: nat)
    requires |file| >= 16 && HeaderOk(file[..16])
    requires var e := Replay(z, FRESH, WholeFrames(file[16..]), 16).events;
      j < |e| && e[j].frame.typ == FRAME_SYNC && e[j].at <= |file|
    ensures var s := file[16..];
      var p := Replay(z, FRESH, WholeFrames(s), 16);
      p.events[j].at >= 16 && HeldKnown(p.events[j..]) &&
      IndexTail(z, m, file, p.events[j].at) == Some(IndexOf(m, p.events[j..], p.stopped || Leftover(s) != []))
  {
    hide *;
    var s := file[16..];
    var fs := WholeFrames(s);
    var p := Replay(z, FRESH, fs, 16);
    ReplayFrom(z, fs, j);
    var r := p.events[j].at;
    FramesFrom(s, j);
    assert s[r - 16..] == file[r..];
    IndexTailIs(z, m, file, r);
    FreshHeld(z, fs[j..], r);
  }

  /** Extending a cached index over the file as it is now gives the index a scan of
      the whole file gives, exactly when the epochs agree: the same segments, DATA
      frames, streams, summaries, record counts, restatements, epoch and ending. */
  lemma GrownIndexIsWhole(z: Zip, m: Meter, file: bytes, n: nat)
    requires 16 <= n <= |file| < NO_LIMIT
    requires IndexFile(z, m, file[..n]).Some? && ResumePoint(IndexFile(z, m, file[..n]).value).Some?
    ensures var r := ResumePoint(IndexFile(z, m, file[..n]).value).value;
      16 <= r <= |file| && IndexTail(z, m, file, r).Some? && IndexFile(z, m, file).Some?
    ensures var cached := IndexFile(z, m, file[..n]).value;
      var r := ResumePoint(cached).value;
      var tail := IndexTail(z, m, file, r).value;
      SameModels(cached, tail) ==>
        (Merged(cached, tail, r) == IndexFile(z, m, file) <==> EpochsAgree(cached, tail, r))
  {
    hide *;
    var s := file[16..];
    var cut := file[..n];
    assert cut[..16] == file[..16] && cut[16..] == s[..n - 16];
    IndexFileIs(z, m, file);
    IndexFileIs(z, m, cut);
    var p := Replay(z, FRESH, WholeFrames(s), 16);
    var q := Replay(z, FRESH, WholeFrames(s[..n - 16]), 16);
    CutEvents(z, s, n - 16);
    EventsOrdered(z, s);
    var trC, trT := q.stopped || Leftover(s[..n - 16]) != [], p.stopped || Leftover(s) != [];
    var cached := IndexOf(m, q.events, trC);
    IndexParts(m, q.events, trC);
    ResumeUnfold(cached);
    var j := LastSync(q.events);
    assert p.events[..|q.events|] == q.events && p.events[j] == q.events[j];
    WithinAt(p.events, 16, 16 + |s|, j);
    TailIndexIs(z, m, file, j);
    SplitAt(p.events, |q.events|, j, |file|);
    if SameModels(cached, IndexOf(m, p.events[j..], trT)) {
      MergedIsWhole(m, p.events[..j], p.events[j..|q.events|], p.events[j..], p.events[j].at, trC, trT);
    }
  }

  lemma ResumeUnfold(f: File)
    ensures ResumePoint(f).Some? ==>
      f.segments != [] && Last(f.segments).sync.typ != 0 && ResumePoint(f).value == Last(f.segments).sync.offset
  {
  }

  lemma WithinAt(e: seq<Event>, lo: nat, hi: nat, j: nat)
    requires Within(e, lo, hi) && j < |e|
    ensures lo <= e[j].at < hi
  {
  }
}
