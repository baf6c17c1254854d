/** What the format promises of every recording: it reads back, it can be cut
    anywhere, entered anywhere and appended to another, and damage is seen. */
module Guarantees {
  import opened Bytes
  import opened Wire
  import opened Crc
  import opened Format
  import opened Frames
  import opened Records
  import opened Reading
  import opened Writing
  import opened Recording
  import opened Runs

  lemma FreshWatches()
    ensures FRESH.watch
  {
  }

  lemma FrameSize(f: Frame)
    ensures |FrameBytes(f)| == 12 + |f.payload|
  {
  }

  lemma HeaderIsOk()
    ensures HeaderOk(FileHeader())
  {
    hide Crc32c;
    var a, b := LE(2, 0), LE(2, 1);
    var h := MAGIC + a + b;
    var c := LE(4, Crc32c(h));
    var f := FileHeader();
    assert f == h + c;
    assert f[..8] == MAGIC;
    assert f[8..10] == a;
    assert f[12..] == c && f[..12] == h;
    WidthBounds();
    StoreLoad(2, 0);
    CrcBound(h, 0);
    StoreLoad(4, Crc32c(h));
  }

  lemma ScanOfFile(z: Zip, body: bytes)
    ensures ScanFile(z, FileHeader() + body) == Some(Scan(z, FRESH, body, 16))
  {
    hide Scan;
    hide HeaderOk;
    hide FileHeader;
    HeaderIsOk();
    var f := FileHeader() + body;
    assert f[..16] == FileHeader() && f[16..] == body;
  }

  /** Frames and nothing after them. */
  lemma ScanOfFrames(z: Zip, rs: RState, fs: seq<Frame>, at: nat)
    requires AllFit(fs)
    ensures var r := Replay(z, rs, fs, at);
      Scan(z, rs, FramesBytes(fs), at) == Scanned(r.events, r.rs, r.stopped)
  {
    hide Replay;
    FramesBack(fs, []);
    NothingWhole();
    assert FramesBytes(fs) + [] == FramesBytes(fs) && fs + [] == fs;
  }

  /** Scanning what any run of successful calls wrote returns exactly the batches
      handed over, in order, with nothing truncated. */
  lemma RoundTrip(z: Zip, ops: seq<Op>, ws: WState)
    requires Recorded(z, ops, ws)
    ensures ScanFile(z, FileOf(ws)).Some?
    ensures var s := ScanFile(z, FileOf(ws)).value;
      s.events == ws.log && !s.truncated && BatchesOf(s.events) == Written([], ops)
  {
    var rs' := LogReplays(z, ops, ws, FRESH);
    hide Replay;
    ScanOfFile(z, FramesBytes(FramesOf(ws.log)));
    ScanOfFrames(z, FRESH, FramesOf(ws.log), 16);
    hide RunFrom;
    RunBatches(z, START, ops);
  }

  // --- cut anywhere ------------------------------------------------------------------------

  /** The events of the log that lie wholly in the first `k` bytes of the file. */
  lemma WhollyBefore(z: Zip, ops: seq<Op>, ws: WState, k: nat)
    requires Recorded(z, ops, ws) && k >= 16
    ensures var m := WholeBefore(FramesOf(ws.log), k - 16);
      forall i :: 0 <= i < |ws.log| ==> (i < m <==> ws.log[i].at + ws.log[i].frame.Size() <= k)
  {
    hide *;
    FreshWatches();
    var rs' := LogReplays(z, ops, ws, FRESH);
    var fs := FramesOf(ws.log);
    var m := WholeBefore(fs, k - 16);
    ReplayPlaces(z, FRESH, fs, 16);
    WholeBeforeIs(fs, k - 16);
    forall i | 0 <= i < |ws.log| ensures i < m <==> ws.log[i].at + ws.log[i].frame.Size() <= k {
      FramesLenNext(fs, i);
      if i < m { FramesLenMono(fs, i + 1, m); } else { FramesLenMono(fs, m + 1, i + 1); }
    }
  }

  lemma FramesLenNext(fs: seq<Frame>, i: nat)
    requires i < |fs|
    ensures FramesLen(fs[..i + 1]) == FramesLen(fs[..i]) + fs[i].Size()
  {
    assert fs[..i + 1] == fs[..i] + [fs[i]];
    FramesAppend(fs[..i], [fs[i]]);
    assert [fs[i]][1..] == [];
  }

  lemma FramesLenMono(fs: seq<Frame>, i: nat, j: nat)
    requires i <= j <= |fs|
    ensures FramesLen(fs[..i]) <= FramesLen(fs[..j])
  {
    assert fs[..j] == fs[..i] + fs[i..j];
    FramesAppend(fs[..i], fs[i..j]);
  }

  /** A recording cut at any byte past its header still reads: every frame wholly
      before the cut, and truncation is reported exactly when the cut is not a
      frame boundary. */
  lemma CutAnywhere(z: Zip, ops: seq<Op>, ws: WState, k: nat)
    requires Recorded(z, ops, ws) && 16 <= k <= |FileOf(ws)|
    ensures ScanFile(z, FileOf(ws)[..k]).Some?
    ensures var m := WholeBefore(FramesOf(ws.log), k - 16);
      var s := ScanFile(z, FileOf(ws)[..k]).value;
      s.events == ws.log[..m] && BatchesOf(s.events) <= Written([], ops) &&
      (s.truncated <==> !Boundary(FramesOf(ws.log), k - 16))
  {
    hide *;
    FreshWatches();
    var rs' := LogReplays(z, ops, ws, FRESH);
    var fs := FramesOf(ws.log);
    FileParts(ws);
    FramesLenBytes(fs);
    RecordedFits(z, ops, ws);
    CutFile(FileHeader(), FramesBytes(fs), k);
    CutScan(z, fs, ws.log, rs', k - 16);
    ScanOfFile(z, FramesBytes(fs)[..k - 16]);
    RecordedBatches(z, ops, ws);
    BatchesOfPrefix(ws.log, WholeBefore(fs, k - 16));
    BoundaryIs(fs, k - 16);
  }

  /** A byte position with only whole frames before it. */
  ghost predicate Boundary(fs: seq<Frame>, k: nat) {
    exists j :: 0 <= j <= |fs| && k == FramesLen(fs[..j])
  }

  lemma BoundaryIs(fs: seq<Frame>, k: nat)
    ensures Boundary(fs, k) <==> k == FramesLen(fs[..WholeBefore(fs, k)])
  {
    var m := WholeBefore(fs, k);
    WholeBeforeIs(fs, k);
    forall j | 0 <= j <= |fs| && k == FramesLen(fs[..j]) ensures j == m {
      if j < m {
        FramesLenNext(fs, j);
        FramesLenMono(fs, j + 1, m);
      } else if m < j {
        FramesLenMono(fs, m + 1, j);
      }
    }
  }

  lemma CutFile(h: bytes, body: bytes, k: nat)
    requires |h| == 16 <= k <= |h + body|
    ensures (h + body)[..k] == h + body[..k - 16]
  {
  }

  lemma BatchesOfPrefix(evs: seq<Event>, m: nat)
    requires m <= |evs|
    ensures BatchesOf(evs[..m]) <= BatchesOf(evs)
  {
    hide BatchesOf;
    assert evs == evs[..m] + evs[m..];
    BatchesAppend(evs[..m], evs[m..]);
  }

  /** Scanning cut frames: the log up to the cut. */
  lemma CutScan(z: Zip, fs: seq<Frame>, log: seq<Event>, rs': RState, k: nat)
    requires AllFit(fs) && k <= FramesLen(fs) && Replay(z, FRESH, fs, 16) == Replayed(log, rs', false)
    ensures |log| == |fs| && |FramesBytes(fs)| == FramesLen(fs)
    ensures var m := WholeBefore(fs, k);
      var s := Scan(z, FRESH, FramesBytes(fs)[..k], 16);
      s.events == log[..m] && (s.truncated <==> k != FramesLen(fs[..m]))
  {
    hide *;
    var m := WholeBefore(fs, k);
    CutFrames(fs, k);
    ReplayCount(z, FRESH, fs, 16);
    ReplayPrefix(z, FRESH, fs, m, 16);
    NotStoppedBefore(z, FRESH, fs, m, 16);
    ScanIs(z, FRESH, FramesBytes(fs)[..k], 16);
  }

  lemma FileParts(ws: WState)
    ensures FileOf(ws) == FileHeader() + FramesBytes(FramesOf(ws.log))
  {
  }

  lemma RecordedFits(z: Zip, ops: seq<Op>, ws: WState)
    requires Recorded(z, ops, ws)
    ensures AllFit(FramesOf(ws.log)) && Inverse(z)
  {
  }

  lemma RecordedBatches(z: Zip, ops: seq<Op>, ws: WState)
    requires Recorded(z, ops, ws)
    ensures BatchesOf(ws.log) == Written([], ops)
  {
    RunBatches(z, START, ops);
    hide RunFrom;
    hide BatchesOf;
    NoBatches();
  }

  lemma NoBatches()
    ensures BatchesOf([]) == []
  {
  }

  lemma ScanIs(z: Zip, rs: RState, s: bytes, at: nat)
    ensures var r := Replay(z, rs, WholeFrames(s), at);
      Scan(z, rs, s, at) == Scanned(r.events, r.rs, r.stopped || Leftover(s) != [])
  {
  }

  /** A scan that reaches the end of the frames did not stop in any prefix. */
  lemma NotStoppedBefore(z: Zip, rs: RState, fs: seq<Frame>, m: nat, at: nat)
    requires m <= |fs| && !Replay(z, rs, fs, at).stopped
    ensures !Replay(z, rs, fs[..m], at).stopped
  {
    ReplayPrefix(z, rs, fs, m, at);
  }

  // --- damage --------------------------------------------------------------------------------

  /** Damage to four consecutive bytes, or fewer, of one frame after its length
      field: the scan stops there, and every batch before it stands. */
  lemma DamageStopsTheScan(z: Zip, ops: seq<Op>, ws: WState, j: nat, at: nat, v: bytes)
    requires Recorded(z, ops, ws) && j < |ws.log|
    requires |v| <= 4 && 4 <= at && at + |v| <= 8 + |ws.log[j].frame.payload|
    requires v != FrameBytes(ws.log[j].frame)[at..at + |v|]
    ensures var fs := FramesOf(ws.log);
      var bad := FrameBytes(fs[j])[..at] + v + FrameBytes(fs[j])[at + |v|..];
      var file := FileHeader() + FramesBytes(fs[..j]) + bad + FramesBytes(fs[j + 1..]);
      |file| == |FileOf(ws)| && ScanFile(z, file).Some? &&
      var s := ScanFile(z, file).value;
      s.events == ws.log[..j] && s.truncated
  {
    hide *;
    FreshWatches();
    var rs' := LogReplays(z, ops, ws, FRESH);
    var fs := FramesOf(ws.log);
    RecordedFits(z, ops, ws);
    FitsAt(fs, j);
    FramesOfAt(ws.log, j);
    FrameSize(fs[j]);
    var good := FrameBytes(fs[j]);
    var bad := good[..at] + v + good[at + |v|..];
    var after := FramesBytes(fs[j + 1..]);
    DamageIsSeen(fs[j], at, v, after);
    DamagedFile(ws, j, bad);
    ScanOfFile(z, FramesBytes(fs[..j]) + (bad + after));
    DamagedScan(z, fs, ws.log, rs', j, bad + after);
  }

  lemma DamagedFile(ws: WState, j: nat, bad: bytes)
    requires j < |ws.log| && |bad| == |FrameBytes(FramesOf(ws.log)[j])|
    ensures var fs := FramesOf(ws.log);
      var file := FileHeader() + FramesBytes(fs[..j]) + bad + FramesBytes(fs[j + 1..]);
      |file| == |FileOf(ws)| && file == FileHeader() + (FramesBytes(fs[..j]) + (bad + FramesBytes(fs[j + 1..])))
  {
    hide *;
    var fs := FramesOf(ws.log);
    FileParts(ws);
    assert fs == fs[..j] + ([fs[j]] + fs[j + 1..]);
    FramesAppend(fs[..j], [fs[j]] + fs[j + 1..]);
    FramesOfOne(fs[j], fs[j + 1..]);
    Assoc(FileHeader(), FramesBytes(fs[..j]), bad + FramesBytes(fs[j + 1..]));
    Assoc(FileHeader() + FramesBytes(fs[..j]), bad, FramesBytes(fs[j + 1..]));
  }

  /** Frames and then damage: the events of the frames, and truncation. */
  lemma DamagedScan(z: Zip, fs: seq<Frame>, log: seq<Event>, rs': RState, j: nat, rest: bytes)
    requires AllFit(fs) && j <= |fs| && Replay(z, FRESH, fs, 16) == Replayed(log, rs', false)
    requires ReadFrame(rest) == Damage
    ensures |log| == |fs|
    ensures var s := Scan(z, FRESH, FramesBytes(fs[..j]) + rest, 16);
      s.events == log[..j] && s.truncated
  {
    hide *;
    FitPrefix(fs, j);
    FramesBack(fs[..j], rest);
    DamagedTail(rest);
    assert fs[..j] + [] == fs[..j];
    ScanIs(z, FRESH, FramesBytes(fs[..j]) + rest, 16);
    ReplayCount(z, FRESH, fs, 16);
    ReplayPrefix(z, FRESH, fs, j, 16);
    NotStoppedBefore(z, FRESH, fs, j, 16);
  }

  lemma FitPrefix(fs: seq<Frame>, j: nat)
    requires AllFit(fs) && j <= |fs|
    ensures AllFit(fs[..j])
  {
  }

  lemma FramesOfOne(f: Frame, fs: seq<Frame>)
    ensures FramesBytes([f] + fs) == FrameBytes(f) + FramesBytes(fs)
  {
    assert ([f] + fs)[1..] == fs;
  }

  lemma FitsAt(fs: seq<Frame>, j: nat)
    requires AllFit(fs) && j < |fs|
    ensures fs[j].Fits() && AllFit(fs[..j]) && AllFit(fs[j..])
  {
    assert fs[j] in fs;
  }

  lemma FramesOfAt(evs: seq<Event>, j: nat)
    requires j < |evs|
    ensures FramesOf(evs)[j] == evs[j].frame
  {
  }

  lemma DamagedTail(s: bytes)
    requires ReadFrame(s) == Damage
    ensures WholeFrames(s) == [] && Leftover(s) == s && s != []
  {
    assert s != [] by { if s == [] { EmptyIsEof(s); } }
    hide ReadFrame;
  }

  // --- concatenation ---------------------------------------------------------------------------

  /** The same events, met `d` bytes further on. */
  function Shift(evs: seq<Event>, d: nat): (r: seq<Event>)
    ensures |r| == |evs|
    ensures forall i :: 0 <= i < |evs| ==> r[i] == evs[i].(at := evs[i].at + d)
  {
    seq(|evs|, i requires 0 <= i < |evs| => evs[i].(at := evs[i].at + d))
  }

  lemma {:induction false} ReplayShift(z: Zip, rs: RState, fs: seq<Frame>, at: nat, d: nat)
    ensures var r := Replay(z, rs, fs, at);
      Replay(z, rs, fs, at + d) == Replayed(Shift(r.events, d), r.rs, r.stopped)
    decreases |fs|
  {
    hide Apply;
    if fs != [] {
      match Apply(z, rs, fs[0]) {
        case Stop =>
        case Go(rs', _) => ReplayShift(z, rs', fs[1..], at + fs[0].Size(), d);
      }
    }
  }

  lemma ShiftBatches(evs: seq<Event>, d: nat)
    ensures BatchesOf(Shift(evs, d)) == BatchesOf(evs)
    decreases |evs|
  {
    if evs != [] {
      assert Shift(evs, d)[1..] == Shift(evs[1..], d);
      ShiftBatches(evs[1..], d);
    }
  }

  /** One recording appended to another, less its header, scans to the first's
      batches and then the second's: no tag of one is taken for the other's. */
  lemma Concatenation(z: Zip, opsA: seq<Op>, a: WState, opsB: seq<Op>, b: WState)
    requires Recorded(z, opsA, a) && Recorded(z, opsB, b)
    ensures ScanFile(z, FileOf(a) + FileOf(b)[16..]).Some?
    ensures var s := ScanFile(z, FileOf(a) + FileOf(b)[16..]).value;
      s.events == a.log + Shift(b.log, |FileOf(a)| - 16) && !s.truncated &&
      BatchesOf(s.events) == Written([], opsA) + Written([], opsB)
  {
    hide *;
    FreshWatches();
    var ra := LogReplays(z, opsA, a, FRESH);
    var rb := LogReplays(z, opsB, b, ra);
    var fa, fb := FramesOf(a.log), FramesOf(b.log);
    var d := |FileOf(a)| - 16;
    RecordedFits(z, opsA, a);
    RecordedFits(z, opsB, b);
    FitBoth(fa, fb);
    JoinFiles(a, b);
    ScanOfFile(z, FramesBytes(fa + fb));
    ScanOfFrames(z, FRESH, fa + fb, 16);
    ReplayAppend(z, FRESH, fa, fb, 16);
    ReplayShift(z, ra, fb, 16, d);
    BatchesAppend(a.log, Shift(b.log, d));
    ShiftBatches(b.log, d);
    RecordedBatches(z, opsA, a);
    RecordedBatches(z, opsB, b);
  }

  lemma JoinFiles(a: WState, b: WState)
    ensures |FileOf(a)| == 16 + FramesLen(FramesOf(a.log)) && |FileOf(b)| >= 16
    ensures FileOf(a) + FileOf(b)[16..] == FileHeader() + FramesBytes(FramesOf(a.log) + FramesOf(b.log))
  {
    hide *;
    var fa, fb := FramesOf(a.log), FramesOf(b.log);
    FileParts(a);
    FileParts(b);
    FramesLenBytes(fa);
    FramesAppend(fa, fb);
    assert FileOf(b)[16..] == FramesBytes(fb);
    Assoc(FileHeader(), FramesBytes(fa), FramesBytes(fb));
  }

  lemma FitBoth(a: seq<Frame>, b: seq<Frame>)
    requires AllFit(a) && AllFit(b)
    ensures AllFit(a + b)
  {
  }
}
