/** The merge as it is done: loops over segments, frames, restatements and summaries. */
module Extending {
  import opened Bytes
  import opened Format
  import opened Frames
  import opened Records
  import opened Reading
  import opened Stats
  import opened Indexing
  import opened Joining
  import opened Growing
  import opened Merging
  import opened Resuming
  import opened Scanning

  lemma PrefixStep<T>(s: seq<T>, i: nat)
    requires i < |s|
    ensures s[..i + 1] != [] && Init(s[..i + 1]) == s[..i] && Last(s[..i + 1]) == s[i]
  {
  }

  method KeepSegments(segs: seq<Segment>, r: nat) returns (kept: seq<Segment>)
    ensures kept == KeptSegments(segs, r)
  {
    kept := [];
    for i := 0 to |segs|
      invariant kept == KeptSegments(segs[..i], r)
    {
      PrefixStep(segs, i);
      if segs[i].sync.offset < r { kept := kept + [segs[i]]; }
    }
    assert segs[..|segs|] == segs;
  }

  method KeepData(ds: seq<DataFrame>, r: nat) returns (kept: seq<DataFrame>)
    ensures kept == KeptData(ds, r)
  {
    kept := [];
    for i := 0 to |ds|
      invariant kept == KeptData(ds[..i], r)
    {
      PrefixStep(ds, i);
      if ds[i].ref.offset < r { kept := kept + [ds[i]]; }
    }
    assert ds[..|ds|] == ds;
  }

  /** Segment indices are positions, so the tail's move up by those kept. */
  method AppendSegments(kept: seq<Segment>, tail: seq<Segment>) returns (segs: seq<Segment>)
    ensures segs == kept + Renumbered(tail, |kept|)
  {
    segs := kept;
    for i := 0 to |tail|
      invariant segs == kept + Renumbered(tail, |kept|)[..i]
    {
      var s := tail[i];
      segs := segs + [s.(index := s.index + |kept|)];
    }
  }

  method AppendData(kept: seq<DataFrame>, tail: seq<DataFrame>, shift: nat) returns (ds: seq<DataFrame>)
    ensures ds == kept + Joining.Placed(tail, shift)
  {
    ds := kept;
    for i := 0 to |tail|
      invariant ds == kept + Joining.Placed(tail, shift)[..i]
    {
      var d := tail[i];
      ds := ds + [d.(segment := d.segment + shift)];
    }
  }

  /** The tail's time bounds, moved in place onto the merged epoch. */
  method MoveFrom(ds: seq<DataFrame>, r: nat, delta: int) returns (q: seq<DataFrame>)
    ensures q == MovedFrom(ds, r, delta)
  {
    q := ds;
    for i := 0 to |ds|
      invariant |q| == |ds|
      invariant forall k :: 0 <= k < |ds| ==> q[k] == if k < i then MovedFrom(ds, r, delta)[k] else ds[k]
    {
      if q[i].ref.offset >= r && q[i].time {
        q := q[i := q[i].(firstTick := q[i].firstTick + delta, lastTick := q[i].lastTick + delta)];
      }
    }
  }

  method MergeHolds(dst: seq<Restated>, hs: seq<Restated>, r: nat, cachedSide: bool, delta: int) returns (q: seq<Restated>)
    ensures q == dst + MergedHolds(hs, r, cachedSide, delta)
  {
    q := dst;
    for i := 0 to |hs|
      invariant q == dst + MergedHolds(hs[..i], r, cachedSide, delta)
    {
      PrefixStep(hs, i);
      var h := hs[i];
      if cachedSide == (h.offset < r) {
        if !cachedSide && delta != 0 { h := h.(axis := h.axis + delta as real); }
        q := q + [h];
      }
    }
    assert hs[..|hs|] == hs;
  }

  method Find(ds: seq<DataFrame>, offset: nat) returns (d: Option<DataFrame>)
    ensures d == FindFrame(ds, offset)
  {
    var i := 0;
    while i < |ds|
      invariant i <= |ds| && FindFrame(ds, offset) == FindFrame(ds[i..], offset)
    {
      if ds[i].ref.offset == offset { return Some(ds[i]); }
      assert ds[i..][1..] == ds[i + 1..];
      i := i + 1;
    }
    return None;
  }

  /** Copies a stream's frames in [lo, hi), as the merged list has them, with their
      summaries. */
  method Reattach(s: Stream, table: seq<DataFrame>, lo: nat, hi: nat) returns (r: Option<Attached>)
    ensures r == Reattached(s, table, lo, hi, |s.frames|)
  {
    hide FindFrame;
    var a := Attached([], []);
    var k := 0;
    while k < |s.frames|
      invariant k <= |s.frames| && Reattached(s, table, lo, hi, k) == Some(a)
    {
      var at := s.frames[k].ref.offset;
      if !(at < lo || at >= hi) {
        if k >= |s.stats| {
          ReattachFails(s, table, lo, hi, k + 1, |s.frames|);
          return None;
        }
        var d := Find(table, at);
        if d.Some? { a := Attached(a.frames + [d.value], a.stats + [s.stats[k]]); }
      }
      k := k + 1;
    }
    return Some(a);
  }

  lemma {:induction false} ReattachFails(s: Stream, table: seq<DataFrame>, lo: nat, hi: nat, k: nat, n: nat)
    requires k <= n <= |s.frames| && Reattached(s, table, lo, hi, k) == None
    ensures Reattached(s, table, lo, hi, n) == None
    decreases n
  {
    if n > k { ReattachFails(s, table, lo, hi, k, n - 1); }
  }

  method SideOf(f: File, u: bytes, table: seq<DataFrame>, lo: nat, hi: nat) returns (r: Option<Attached>)
    ensures r == Side(f, u, table, lo, hi)
  {
    if u !in f.streams { return Some(Attached([], [])); }
    r := Reattach(f.streams[u], table, lo, hi);
  }

  method CountRecords(ds: seq<DataFrame>) returns (n: nat)
    ensures n == Total(ds)
  {
    n := 0;
    for i := 0 to |ds|
      invariant n == Total(ds[..i])
    {
      PrefixStep(ds, i);
      n := n + ds[i].count;
    }
    assert ds[..|ds|] == ds;
  }

  /** One stream out of both sides. */
  method MergeStream(cached: File, tail: File, r: nat, kept: seq<DataFrame>, data: seq<DataFrame>, delta: int, u: bytes)
    returns (s: Option<Stream>)
    requires u in cached.streams || u in tail.streams
    requires kept == KeptOf(cached, r) && data == MergedData(cached, tail, r) && delta == Delta(cached, tail)
    ensures s == MergedStream(cached, tail, r, u)
  {
    hide Side;
    hide MergedData;
    hide MergedHolds;
    hide Total;
    hide Delta;
    hide KeptOf;
    var model := if u in cached.streams then cached.streams[u].model else tail.streams[u].model;
    var holds := [];
    if u in cached.streams { holds := MergeHolds(holds, cached.streams[u].holds, r, true, 0); }
    NoneMerged(r);
    if u in tail.streams { holds := MergeHolds(holds, tail.streams[u].holds, r, false, delta); }
    var x := SideOf(cached, u, kept, 0, r);
    if x == None { return None; }
    var y := SideOf(tail, u, data, r, NO_LIMIT);
    if y == None { return None; }
    var frames := x.value.frames + y.value.frames;
    var n := CountRecords(frames);
    s := Some(Stream(model, n, frames, x.value.stats + y.value.stats, holds));
    assert holds == MergedHolds(HoldsIn(cached, u), r, true, 0) + MergedHolds(HoldsIn(tail, u), r, false, delta);
  }

  lemma NoneMerged(r: nat)
    ensures forall side: bool, delta: int :: MergedHolds([], r, side, delta) == []
  {
  }

  /** The earlier epoch, and how far the tail's axis values are from it. */
  method MergeEpochs(cached: File, tail: File) returns (epoch: Option<int>, delta: int)
    ensures epoch == Earlier(cached.epoch, tail.epoch) && delta == Delta(cached, tail)
  {
    epoch := tail.epoch;
    if cached.epoch.Some? && tail.epoch.Some? {
      epoch := Some(if cached.epoch.value <= tail.epoch.value then cached.epoch.value else tail.epoch.value);
    } else if cached.epoch.Some? {
      epoch := cached.epoch;
    }
    delta := 0;
    if tail.epoch.Some? && tail.epoch != epoch { delta := tail.epoch.value - epoch.value; }
  }

  method MergeStreams(cached: File, tail: File, r: nat, kept: seq<DataFrame>, data: seq<DataFrame>, delta: int)
    returns (streams: Option<map<bytes, Stream>>)
    requires kept == KeptOf(cached, r) && data == MergedData(cached, tail, r) && delta == Delta(cached, tail)
    ensures streams == if Merged(cached, tail, r) == None then None else Some(Merged(cached, tail, r).value.streams)
  {
    hide *;
    var us := cached.streams.Keys + tail.streams.Keys;
    var left := us;
    var ss: map<bytes, Stream> := map[];
    MergedStart(cached, tail, r);
    while left != {}
      invariant MergedSoFar(cached, tail, r, us, left, ss)
      decreases |left|
    {
      var u :| u in left;
      MergedPick(cached, tail, r, us, left, ss, u);
      var s := MergeStream(cached, tail, r, kept, data, delta, u);
      if s == None {
        MergeFails(cached, tail, r, u);
        return None;
      }
      MergedOneMore(cached, tail, r, us, left, ss, u, s.value);
      ss := ss[u := s.value];
      left := left - {u};
    }
    MergedEnd(cached, tail, r, us, ss);
    streams := Some(ss);
  }

  ghost predicate MergedSoFar(cached: File, tail: File, r: nat, us: set<bytes>, left: set<bytes>, ss: map<bytes, Stream>) {
    us == cached.streams.Keys + tail.streams.Keys &&
    (forall u :: u in us <==> u in ss || u in left) &&
    forall u :: u in ss ==> u in us && MergedStream(cached, tail, r, u) == Some(ss[u])
  }

  lemma MergedOneMore(cached: File, tail: File, r: nat, us: set<bytes>, left: set<bytes>, ss: map<bytes, Stream>, u: bytes, s: Stream)
    requires MergedSoFar(cached, tail, r, us, left, ss) && u in left
    requires u in cached.streams || u in tail.streams
    requires MergedStream(cached, tail, r, u) == Some(s)
    ensures MergedSoFar(cached, tail, r, us, left - {u}, ss[u := s])
  {
    hide MergedStream;
  }

  lemma MergedStart(cached: File, tail: File, r: nat)
    ensures var us := cached.streams.Keys + tail.streams.Keys; MergedSoFar(cached, tail, r, us, us, map[])
  {
  }

  lemma MergedPick(cached: File, tail: File, r: nat, us: set<bytes>, left: set<bytes>, ss: map<bytes, Stream>, u: bytes)
    requires MergedSoFar(cached, tail, r, us, left, ss) && u in left
    ensures u in cached.streams || u in tail.streams
  {
  }

  lemma MergedEnd(cached: File, tail: File, r: nat, us: set<bytes>, ss: map<bytes, Stream>)
    requires MergedSoFar(cached, tail, r, us, {}, ss)
    ensures Merged(cached, tail, r).Some? && Merged(cached, tail, r).value.streams == ss
  {
    hide MergedStream;
    assert ss.Keys == us;
    MergedFromStreams(cached, tail, r, ss);
    hide Merged;
  }

  lemma MergeFails(cached: File, tail: File, r: nat, u: bytes)
    requires (u in cached.streams || u in tail.streams) && MergedStream(cached, tail, r, u) == None
    ensures Merged(cached, tail, r) == None
  {
    assert u in cached.streams.Keys + tail.streams.Keys;
    hide MergedStream;
  }

  /** Joins a freshly scanned tail onto a cached index. */
  method MergeTail(cached: File, tail: File, r: nat) returns (out: Option<File>)
    ensures out == Merged(cached, tail, r)
  {
    hide *;
    var keptSegs := KeepSegments(cached.segments, r);
    var kept := KeepData(cached.data, r);
    var segs := AppendSegments(keptSegs, tail.segments);
    var data := AppendData(kept, tail.data, |keptSegs|);
    var epoch, delta := MergeEpochs(cached, tail);
    Unmoved(data, r);
    if delta != 0 { data := MoveFrom(data, r, delta); }
    KeptOfIs(cached, r);
    MergedParts(cached, tail, r);
    var streams := MergeStreams(cached, tail, r, kept, data, delta);
    if streams == None { return None; }
    out := Some(File(segs, data, streams.value, epoch, tail.truncated, cached.closed || tail.closed));
    MergedIs(cached, tail, r);
  }

  lemma MergedIs(cached: File, tail: File, r: nat)
    requires Merged(cached, tail, r).Some?
    ensures var kept := KeptSegments(cached.segments, r);
      Merged(cached, tail, r) == Some(File(
        kept + Renumbered(tail.segments, |kept|), MergedData(cached, tail, r), Merged(cached, tail, r).value.streams,
        Earlier(cached.epoch, tail.epoch), tail.truncated, cached.closed || tail.closed))
  {
    hide MergedStream;
    hide MergedData;
    hide KeptSegments;
  }

  lemma Unmoved(ds: seq<DataFrame>, r: nat)
    ensures MovedFrom(ds, r, 0) == ds
  {
  }

  /** Opens a file that has grown since its first `n` bytes were indexed: scans the
      tail and merges it. Nothing when there is no segment to resume from. */
  method Extend(z: Zip, m: Meter, file: bytes, n: nat, cached: File) returns (out: Option<File>)
    requires 16 <= n <= |file| < NO_LIMIT && IndexFile(z, m, file[..n]) == Some(cached)
    ensures ResumePoint(cached) == None ==> out == None
    ensures ResumePoint(cached).Some? ==>
      var r := ResumePoint(cached).value;
      16 <= r <= |file| && IndexTail(z, m, file, r).Some? &&
      var tail := IndexTail(z, m, file, r).value;
      SameModels(cached, tail) ==> (out == IndexFile(z, m, file) <==> EpochsAgree(cached, tail, r))
  {
    hide *;
    if cached.segments == [] || cached.segments[|cached.segments| - 1].sync.typ == 0 {
      NowhereToResume(cached);
      return None;
    }
    var r := cached.segments[|cached.segments| - 1].sync.offset;
    ResumesAt(cached);
    GrownIndexIsWhole(z, m, file, n);
    var tail := ScanTail(z, m, file, r);
    if tail == None { return None; }
    out := MergeTail(cached, tail.value, r);
  }

  lemma NowhereToResume(f: File)
    requires f.segments == [] || f.segments[|f.segments| - 1].sync.typ == 0
    ensures ResumePoint(f) == None
  {
  }

  lemma ResumesAt(f: File)
    requires f.segments != [] && f.segments[|f.segments| - 1].sync.typ != 0
    ensures ResumePoint(f) == Some(f.segments[|f.segments| - 1].sync.offset)
  {
  }
}
