/** Enumerated and boolean fields: runs of one value, and bands from the summaries of
    frames. */
module States {
  import opened Bytes
  import opened Buckets
  import opened Decimate

  /** A value held from `x0` until `x1`; absent, or more than one value. Its label is a
      function of the value. */
  datatype State = State(x0: real, x1: real, raw: real, mixed: bool, absent: bool)

  // --- runs -----------------------------------------------------------------------------------------------

  /** A state shows a sample: absent, or its value. */
  predicate Shows(st: State, v: Option<real>) {
    !st.mixed && (st.absent <==> v == None) && (v.Some? ==> st.raw == v.value)
  }

  predicate SameRun(a: State, b: State) { a.absent == b.absent && (b.absent || a.raw == b.raw) }

  /** Run `at[i]` is the one sample `i` is in: each run is of samples alike, begins at its
      first sample and ends where the next begins, and neighbours differ. */
  ghost predicate RunsOf(out: seq<State>, s: seq<Sample>, at: seq<nat>) {
    |at| == |s| && (out == [] <==> s == []) &&
    (forall i :: 0 <= i < |s| ==> at[i] < |out| && Shows(out[at[i]], s[i].v)) &&
    (s != [] ==> at[0] == 0 && at[|s| - 1] == |out| - 1 && out[0].x0 == s[0].x) &&
    (forall i :: 0 < i < |s| ==>
      at[i] == at[i - 1] || (at[i] == at[i - 1] + 1 && out[at[i]].x0 == s[i].x)) &&
    forall r :: 0 < r < |out| ==> !SameRun(out[r - 1], out[r]) && out[r - 1].x1 == out[r].x0
  }

  lemma RunsExtend(out: seq<State>, s: seq<Sample>, at: seq<nat>, a: Sample)
    requires RunsOf(out, s, at) && s != []
    requires SameRun(out[|out| - 1], State(a.x, a.x, if a.v.Some? then a.v.value else 0.0, false, a.v == None))
    ensures RunsOf(out[|out| - 1 := out[|out| - 1].(x1 := a.x)], s + [a], at + [|out| - 1])
  {
    var n := |out| - 1;
    var now, t := out[n := out[n].(x1 := a.x)], s + [a];
    forall i | 0 <= i < |t| ensures Shows(now[(at + [n])[i]], t[i].v) {
      if i < |s| { assert Shows(out[at[i]], s[i].v); } else { assert Shows(out[at[|s| - 1]], s[|s| - 1].v); }
    }
  }

  lemma RunsBegin(out: seq<State>, s: seq<Sample>, at: seq<nat>, a: Sample)
    requires RunsOf(out, s, at)
    requires var st := State(a.x, a.x, if a.v.Some? then a.v.value else 0.0, false, a.v == None);
      out == [] || !SameRun(out[|out| - 1], st)
    ensures var st := State(a.x, a.x, if a.v.Some? then a.v.value else 0.0, false, a.v == None);
      var ended := if out == [] then [] else out[|out| - 1 := out[|out| - 1].(x1 := a.x)];
      RunsOf(ended + [st], s + [a], at + [|out|])
  {
    var st := State(a.x, a.x, if a.v.Some? then a.v.value else 0.0, false, a.v == None);
    var ended := if out == [] then [] else out[|out| - 1 := out[|out| - 1].(x1 := a.x)];
    var now, t, to := ended + [st], s + [a], at + [|out|];
    forall i | 0 <= i < |t| ensures to[i] < |now| && Shows(now[to[i]], t[i].v) {
      if i < |s| { assert Shows(out[at[i]], s[i].v); }
    }
    forall r | 0 < r < |now| ensures !SameRun(now[r - 1], now[r]) && now[r - 1].x1 == now[r].x0 {
      if r < |out| { assert !SameRun(out[r - 1], out[r]); }
    }
  }

  /** Adjacent samples alike, as runs; the last lasts to the end of the window. */
  method RunLength(s: seq<Sample>, to: real) returns (out: seq<State>, ghost at: seq<nat>)
    ensures RunsOf(out, s, at) && (out != [] ==> out[|out| - 1].x1 == to)
  {
    hide RunsOf;
    out, at := [], [];
    NoRuns();
    assert s[..0] == [];
    for i := 0 to |s|
      invariant RunsOf(out, s[..i], at)
    {
      var absent := s[i].v == None;
      var raw := if absent then 0.0 else s[i].v.value;
      assert s[..i + 1] == s[..i] + [s[i]];
      RunsSize(out, s[..i], at);
      var n := |out|;
      if n > 0 && out[n - 1].absent == absent && (absent || out[n - 1].raw == raw) {
        RunsExtend(out, s[..i], at, s[i]);
        out := out[n - 1 := out[n - 1].(x1 := s[i].x)];
        at := at + [n - 1];
        continue;
      }
      RunsBegin(out, s[..i], at, s[i]);
      if n > 0 { out := out[n - 1 := out[n - 1].(x1 := s[i].x)]; }
      out := out + [State(s[i].x, s[i].x, raw, false, absent)];
      at := at + [n];
    }
    assert s[..|s|] == s;
    if |out| > 0 {
      RunsEnd(out, s, at, to);
      out := out[|out| - 1 := out[|out| - 1].(x1 := to)];
    }
  }

  lemma NoRuns()
    ensures RunsOf([], [], [])
  {
  }

  lemma RunsSize(out: seq<State>, s: seq<Sample>, at: seq<nat>)
    requires RunsOf(out, s, at)
    ensures out == [] <==> s == []
  {
  }

  lemma RunsEnd(out: seq<State>, s: seq<Sample>, at: seq<nat>, to: real)
    requires RunsOf(out, s, at) && out != []
    ensures RunsOf(out[|out| - 1 := out[|out| - 1].(x1 := to)], s, at)
  {
    var now := out[|out| - 1 := out[|out| - 1].(x1 := to)];
    forall i | 0 <= i < |s| ensures Shows(now[at[i]], s[i].v) { assert Shows(out[at[i]], s[i].v); }
  }

  /** In a sorted series a sample lies in its run. */
  lemma RunHolds(out: seq<State>, s: seq<Sample>, at: seq<nat>, to: real, i: nat)
    requires RunsOf(out, s, at) && Sorted(s) && i < |s| && out[|out| - 1].x1 == to
    requires forall j :: 0 <= j < |s| ==> s[j].x <= to
    ensures out[at[i]].x0 <= s[i].x <= out[at[i]].x1
  {
    RunStart(out, s, at, i);
    RunEnd(out, s, at, to, i);
  }

  lemma {:induction false} RunStart(out: seq<State>, s: seq<Sample>, at: seq<nat>, i: nat)
    requires RunsOf(out, s, at) && Sorted(s) && i < |s|
    ensures out[at[i]].x0 <= s[i].x
  {
    hide Shows;
    hide SameRun;
    if i > 0 {
      RunStart(out, s, at, i - 1);
      assert s[i - 1].x <= s[i].x;
    }
  }

  lemma {:induction false} RunEnd(out: seq<State>, s: seq<Sample>, at: seq<nat>, to: real, i: nat)
    requires RunsOf(out, s, at) && Sorted(s) && i < |s| && out[|out| - 1].x1 == to
    requires forall j :: 0 <= j < |s| ==> s[j].x <= to
    ensures s[i].x <= out[at[i]].x1
    decreases |s| - i
  {
    hide Shows;
    hide SameRun;
    if i + 1 < |s| {
      assert s[i].x <= s[i + 1].x;
      assert at[i + 1] == at[i] || (at[i + 1] == at[i] + 1 && out[at[i + 1]].x0 == s[i + 1].x);
      if at[i + 1] == at[i] {
        RunEnd(out, s, at, to, i + 1);
      } else {
        assert out[at[i + 1] - 1].x1 == out[at[i + 1]].x0;
      }
    }
  }

  // --- a bucket's state ---------------------------------------------------------------------------------------

  /** A bucket with no present sample is absent; one with several values is mixed. */
  predicate Holding(st: State, vals: seq<real>) {
    if vals == [] then st.absent && !st.mixed
    else !st.absent && st.raw == vals[0] && (st.mixed <==> exists v :: v in vals && v != vals[0])
  }

  ghost predicate Banded(lg: Logs, p: Pos, out: seq<State>, w: seq<Sample>) {
    Usable(lg, p) && |out| == p.buckets &&
    forall b :: 0 <= b < p.buckets ==>
      out[b].x0 == Edge(lg, p, b) && out[b].x1 == Edge(lg, p, b + 1) && Holding(out[b], InBucket(lg, p, w, b))
  }

  lemma BandedSkip(lg: Logs, p: Pos, out: seq<State>, w: seq<Sample>, a: Sample)
    requires Banded(lg, p, out, w) && (a.v == None || !(0 <= Bucket(lg, p, a.x) < p.buckets))
    ensures Banded(lg, p, out, w + [a])
  {
    hide Bucket;
    hide Holding;
    hide Edge;
    assert (w + [a])[..|w|] == w;
    forall b | 0 <= b < p.buckets ensures InBucket(lg, p, w + [a], b) == InBucket(lg, p, w, b) { }
  }

  function Noted(st: State, seen: bool, v: real): State {
    if !seen then st.(absent := false, raw := v)
    else if st.raw != v then st.(mixed := true)
    else st
  }

  lemma HoldingMore(st: State, vals: seq<real>, v: real)
    requires Holding(st, vals)
    ensures Holding(Noted(st, vals != [], v), vals + [v])
    ensures Noted(st, vals != [], v).x0 == st.x0 && Noted(st, vals != [], v).x1 == st.x1
  {
    var all := vals + [v];
    assert v in all && forall x :: x in vals ==> x in all;
    assert forall x :: x in all ==> x in vals || x == v;
    if vals != [] { assert all[0] == vals[0]; }
  }

  lemma BandedMore(lg: Logs, p: Pos, out: seq<State>, w: seq<Sample>, a: Sample)
    requires Banded(lg, p, out, w) && a.v.Some? && 0 <= Bucket(lg, p, a.x) < p.buckets
    ensures var b := Bucket(lg, p, a.x);
      Banded(lg, p, out[b := Noted(out[b], InBucket(lg, p, w, b) != [], a.v.value)], w + [a])
  {
    hide Bucket;
    hide Edge;
    assert (w + [a])[..|w|] == w;
    var k := Bucket(lg, p, a.x);
    HoldingMore(out[k], InBucket(lg, p, w, k), a.v.value);
    hide Holding;
    hide Noted;
    forall b | 0 <= b < p.buckets && b != k ensures InBucket(lg, p, w + [a], b) == InBucket(lg, p, w, b) { }
  }

  /** Which buckets have been given a value. */
  ghost predicate Seen(lg: Logs, p: Pos, seen: seq<bool>, w: seq<Sample>) {
    Usable(lg, p) && |seen| == p.buckets && forall b :: 0 <= b < p.buckets ==> (seen[b] <==> InBucket(lg, p, w, b) != [])
  }

  lemma SeenSkip(lg: Logs, p: Pos, seen: seq<bool>, w: seq<Sample>, a: Sample)
    requires Seen(lg, p, seen, w) && (a.v == None || !(0 <= Bucket(lg, p, a.x) < p.buckets))
    ensures Seen(lg, p, seen, w + [a])
  {
    hide Bucket;
    assert (w + [a])[..|w|] == w;
    forall b | 0 <= b < p.buckets ensures InBucket(lg, p, w + [a], b) == InBucket(lg, p, w, b) { }
  }

  lemma SeenMore(lg: Logs, p: Pos, seen: seq<bool>, w: seq<Sample>, a: Sample)
    requires Seen(lg, p, seen, w) && a.v.Some? && 0 <= Bucket(lg, p, a.x) < p.buckets
    ensures Seen(lg, p, seen[Bucket(lg, p, a.x) := true], w + [a])
  {
    hide Bucket;
    assert (w + [a])[..|w|] == w;
    forall b | 0 <= b < p.buckets && b != Bucket(lg, p, a.x) ensures InBucket(lg, p, w + [a], b) == InBucket(lg, p, w, b) { }
  }

  /** The runs of a window, or its buckets when there are more runs than fit. */
  method Categorical(lg: Logs, s: seq<Sample>, from: real, to: real, size: int, scale: Scale)
    returns (out: seq<State>, ghost at: seq<nat>)
    requires LogLaws(lg)
    ensures var w := Window(s, from, to);
      var n: nat := if size < 1 then 1 else size;
      Sorted(s) ==>
        (|out| <= n && RunsOf(out, w, at) && (out != [] ==> out[|out| - 1].x1 == to)) ||
        Banded(lg, NewPos(from, to, n, scale), out, w)
  {
    hide Window;
    hide Sorted;
    hide RunsOf;
    hide Banded;
    hide Seen;
    hide LogLaws;
    hide Edge;
    hide Bucket;
    hide InBucket;
    hide Noted;
    var lo, hi := Range(s, from, to);
    var w := if lo <= hi then s[lo..hi] else [];
    var buckets: nat := if size < 1 then 1 else size;
    out, at := RunLength(w, to);
    if |out| <= buckets { return; }
    var pos := NewPos(from, to, buckets, scale);
    NewUsable(lg, from, to, buckets, scale);
    hide Usable;
    hide NewPos;
    var seen: seq<bool>;
    out, seen := Bands(lg, pos);
    assert w[..0] == [];
    for i := 0 to |w|
      invariant Banded(lg, pos, out, w[..i]) && Seen(lg, pos, seen, w[..i])
    {
      assert w[..i + 1] == w[..i] + [w[i]];
      BandedSize(lg, pos, out, seen, w[..i]);
      var b := Bucket(lg, pos, w[i].x);
      if b < 0 || b >= buckets || w[i].v == None {
        BandedSkip(lg, pos, out, w[..i], w[i]);
        SeenSkip(lg, pos, seen, w[..i], w[i]);
        continue;
      }
      BandedMore(lg, pos, out, w[..i], w[i]);
      SeenMore(lg, pos, seen, w[..i], w[i]);
      SeenIs(lg, pos, seen, w[..i], b);
      out := out[b := Noted(out[b], seen[b], w[i].v.value)];
      seen := seen[b := true];
    }
    assert w[..|w|] == w;
  }

  lemma BandedSize(lg: Logs, p: Pos, out: seq<State>, seen: seq<bool>, w: seq<Sample>)
    requires Banded(lg, p, out, w) && Seen(lg, p, seen, w)
    ensures |out| == |seen| == p.buckets
  {
  }

  lemma SeenIs(lg: Logs, p: Pos, seen: seq<bool>, w: seq<Sample>, b: int)
    requires Usable(lg, p) && Seen(lg, p, seen, w) && 0 <= b < p.buckets
    ensures |seen| == p.buckets && seen[b] == (InBucket(lg, p, w, b) != [])
  {
  }

  /** Empty bands, each with its place. */
  method Bands(lg: Logs, p: Pos) returns (out: seq<State>, seen: seq<bool>)
    requires Usable(lg, p)
    ensures Banded(lg, p, out, []) && Seen(lg, p, seen, [])
  {
    hide Edge;
    hide Banded;
    hide Seen;
    out, seen := [], [];
    for b := 0 to p.buckets
      invariant |out| == |seen| == b
      invariant forall k :: 0 <= k < b ==> out[k] == State(Edge(lg, p, k), Edge(lg, p, k + 1), 0.0, false, true) && !seen[k]
    {
      out := out + [State(Edge(lg, p, b), Edge(lg, p, b + 1), 0.0, false, true)];
      seen := seen + [false];
    }
    EmptyBands(lg, p, out, seen);
  }

  lemma EmptyBands(lg: Logs, p: Pos, out: seq<State>, seen: seq<bool>)
    requires Usable(lg, p) && |out| == |seen| == p.buckets
    requires forall k :: 0 <= k < p.buckets ==> out[k] == State(Edge(lg, p, k), Edge(lg, p, k + 1), 0.0, false, true) && !seen[k]
    ensures Banded(lg, p, out, []) && Seen(lg, p, seen, [])
  {
    forall b | 0 <= b < p.buckets
      ensures out[b].x0 == Edge(lg, p, b) && out[b].x1 == Edge(lg, p, b + 1) && Holding(out[b], InBucket(lg, p, [], b))
      ensures !seen[b] && InBucket(lg, p, [], b) == []
    {
      assert out[b] == State(Edge(lg, p, b), Edge(lg, p, b + 1), 0.0, false, true);
      NoValues(lg, p, b);
    }
  }

  lemma NoValues(lg: Logs, p: Pos, b: int)
    requires Usable(lg, p)
    ensures InBucket(lg, p, [], b) == []
  {
  }

  // --- from the frames' summaries ---------------------------------------------------------------------------------

  function Max(a: real, b: real): real { if a < b then b else a }

  function Min(a: real, b: real): real { if a < b then a else b }

  function StateOf(s: FrameStat, from: real, to: real): State {
    State(Max(s.first, from), Min(s.last, to),
      if s.nPresent > 0 && !s.distinct && s.value.Some? then s.value.value else 0.0,
      s.nPresent > 0 && s.distinct, s.nPresent == 0)
  }

  predicate Mergeable(a: State, b: State) {
    a.absent == b.absent && a.mixed == b.mixed && (a.absent || a.mixed || a.raw == b.raw)
  }

  /** A state that does not deny that `v` was there at `x`. */
  predicate Admits(st: State, x: real, v: real) { st.x0 <= x <= st.x1 && !st.absent && (st.mixed || st.raw == v) }

  ghost predicate Admitted(out: seq<State>, x: real, v: real) {
    exists r :: 0 <= r < |out| && Admits(out[r], x, v)
  }

  /** Frames that hold something, one after the other on the axis. */
  predicate InTurn(stats: seq<FrameStat>) {
    forall i, j :: 0 <= i <= j < |stats| && stats[i].nPresent > 0 && stats[j].nPresent > 0 ==>
      stats[i].first <= stats[j].first && stats[i].last <= stats[j].last
  }

  /** Every value a frame is known to hold, wherever in the frame, is admitted. */
  ghost predicate AllAdmitted(out: seq<State>, stats: seq<FrameStat>, from: real, to: real) {
    forall k :: 0 <= k < |stats| ==> AdmittedFor(out, stats[k], from, to)
  }

  ghost predicate AdmittedFor(out: seq<State>, s: FrameStat, from: real, to: real) {
    forall x, v :: Holds(s, x, v) && from <= x <= to ==> Admitted(out, x, v)
  }

  predicate Holds(s: FrameStat, x: real, v: real) {
    s.nPresent > 0 && s.first <= x <= s.last && (s.distinct || s.value == Some(v))
  }

  /** The last state, if it holds something, begins no later and ends no later than
      what comes. */
  ghost predicate Behind(out: seq<State>, stats: seq<FrameStat>, from: real, to: real, i: nat) {
    out != [] && !out[|out| - 1].absent ==> forall k :: i <= k < |stats| && stats[k].nPresent > 0 ==>
      out[|out| - 1].x0 <= Max(stats[k].first, from) && out[|out| - 1].x1 <= Min(stats[k].last, to)
  }

  lemma AdmitsSame(a: State, b: State, x: real, v: real)
    requires Mergeable(a, b) && Admits(b, x, v) && a.x0 <= b.x0
    ensures Admits(a.(x1 := b.x1), x, v)
  {
  }

  lemma AdmittedMerge(out: seq<State>, st: State, x: real, v: real)
    requires out != [] && Mergeable(out[|out| - 1], st)
    requires st.absent || (out[|out| - 1].x0 <= st.x0 && out[|out| - 1].x1 <= st.x1)
    ensures Admitted(out, x, v) || Admits(st, x, v) ==> Admitted(out[|out| - 1 := out[|out| - 1].(x1 := st.x1)], x, v)
  {
    var n := |out| - 1;
    var now := out[n := out[n].(x1 := st.x1)];
    if Admits(st, x, v) {
      AdmitsSame(out[n], st, x, v);
      assert Admits(now[n], x, v);
    } else if Admitted(out, x, v) {
      var r :| 0 <= r < |out| && Admits(out[r], x, v);
      assert Admits(now[r], x, v);
    }
  }

  lemma AdmittedAdd(out: seq<State>, st: State, x: real, v: real)
    ensures Admitted(out, x, v) || Admits(st, x, v) ==> Admitted(out + [st], x, v)
  {
    hide Admits;
    var now := out + [st];
    if Admits(st, x, v) {
      assert now[|out|] == st;
    } else if Admitted(out, x, v) {
      var r :| 0 <= r < |out| && Admits(out[r], x, v);
      assert now[r] == out[r];
    }
  }

  lemma FrameAdmits(s: FrameStat, from: real, to: real, x: real, v: real)
    requires Holds(s, x, v) && from <= x <= to
    ensures Admits(StateOf(s, from, to), x, v)
  {
  }

  /** What a frame adds to what is admitted. */
  lemma AllAdmittedMore(out: seq<State>, now: seq<State>, stats: seq<FrameStat>, from: real, to: real, i: nat)
    requires i < |stats| && AllAdmitted(out, stats[..i], from, to)
    requires forall x, v :: Admitted(out, x, v) || Admits(StateOf(stats[i], from, to), x, v) ==> Admitted(now, x, v)
    ensures AllAdmitted(now, stats[..i + 1], from, to)
  {
    hide Admitted;
    hide Admits;
    var more := stats[..i + 1];
    forall k | 0 <= k < |more| ensures AdmittedFor(now, more[k], from, to) {
      if k < i {
        assert stats[..i][k] == more[k];
        assert AdmittedFor(out, stats[..i][k], from, to);
      } else {
        forall x, v | Holds(stats[i], x, v) && from <= x <= to ensures Admitted(now, x, v) {
          FrameAdmits(stats[i], from, to, x, v);
        }
      }
    }
  }

  /** What the frames say in the window, one state a frame. */
  function Clipped(stats: seq<FrameStat>, from: real, to: real): seq<State> {
    if stats == [] then []
    else
      var n := |stats| - 1;
      var st := StateOf(stats[n], from, to);
      Clipped(stats[..n], from, to) + (if st.x1 < st.x0 then [] else [st])
  }

  /** Band `at[i]` is the one state `i` went into: a band says what each of its states
      says, begins with the first and ends with the last, and neighbours differ. */
  ghost predicate Grouped(out: seq<State>, s: seq<State>, at: seq<nat>) {
    |at| == |s| && (out == [] <==> s == []) &&
    (forall i :: 0 <= i < |s| ==> at[i] < |out| && Mergeable(out[at[i]], s[i])) &&
    (s != [] ==> at[0] == 0 && at[|s| - 1] == |out| - 1 && out[0].x0 == s[0].x0 && out[|out| - 1].x1 == s[|s| - 1].x1) &&
    (forall i :: 0 < i < |s| ==>
      at[i] == at[i - 1] ||
      (at[i] == at[i - 1] + 1 && out[at[i]].x0 == s[i].x0 && out[at[i - 1]].x1 == s[i - 1].x1)) &&
    forall r :: 0 < r < |out| ==> !Mergeable(out[r - 1], out[r])
  }

  lemma GroupedBegin(out: seq<State>, s: seq<State>, at: seq<nat>, st: State)
    requires Grouped(out, s, at) && (out == [] || !Mergeable(out[|out| - 1], st))
    ensures Grouped(out + [st], s + [st], at + [|out|])
  {
    var now, t, to := out + [st], s + [st], at + [|out|];
    forall i | 0 <= i < |t| ensures to[i] < |now| && Mergeable(now[to[i]], t[i]) {
      if i < |s| { assert Mergeable(out[at[i]], s[i]); }
    }
    forall r | 0 < r < |now| ensures !Mergeable(now[r - 1], now[r]) {
      if r < |out| { assert !Mergeable(out[r - 1], out[r]); }
    }
  }

  lemma GroupedExtend(out: seq<State>, s: seq<State>, at: seq<nat>, st: State)
    requires Grouped(out, s, at) && out != [] && Mergeable(out[|out| - 1], st)
    ensures Grouped(out[|out| - 1 := out[|out| - 1].(x1 := st.x1)], s + [st], at + [|out| - 1])
  {
    var n := |out| - 1;
    var now, t, to := out[n := out[n].(x1 := st.x1)], s + [st], at + [n];
    forall i | 0 <= i < |t| ensures to[i] < |now| && Mergeable(now[to[i]], t[i]) {
      if i < |s| { assert Mergeable(out[at[i]], s[i]); }
    }
    forall r | 0 < r < |now| ensures !Mergeable(now[r - 1], now[r]) { assert !Mergeable(out[r - 1], out[r]); }
    GroupedNeighbours(out, s, at, st);
  }

  lemma GroupedNeighbours(out: seq<State>, s: seq<State>, at: seq<nat>, st: State)
    requires Grouped(out, s, at) && out != [] && Mergeable(out[|out| - 1], st)
    ensures var now, t, to := out[|out| - 1 := out[|out| - 1].(x1 := st.x1)], s + [st], at + [|out| - 1];
      forall i :: 0 < i < |t| ==>
        to[i] == to[i - 1] ||
        (to[i] == to[i - 1] + 1 && now[to[i]].x0 == t[i].x0 && now[to[i - 1]].x1 == t[i - 1].x1)
  {
  }

  /** State bands from summaries: a frame of one value is a band of it, one of several
      is mixed, and neighbours alike are one. */
  method CategoricalFromStats(stats: seq<FrameStat>, from: real, to: real) returns (out: seq<State>, ghost at: seq<nat>)
    ensures Grouped(out, Clipped(stats, from, to), at)
    ensures InTurn(stats) ==> AllAdmitted(out, stats, from, to)
  {
    hide AllAdmitted;
    hide Admitted;
    hide Admits;
    hide Mergeable;
    hide Behind;
    hide Grouped;
    hide StateOf;
    out, at := [], [];
    NothingAdmitted(stats, from, to);
    assert stats[..0] == [];
    for i := 0 to |stats|
      invariant InTurn(stats) ==> AllAdmitted(out, stats[..i], from, to) && Behind(out, stats, from, to, i)
      invariant Grouped(out, Clipped(stats[..i], from, to), at)
    {
      var st := StateOf(stats[i], from, to);
      ghost var s := Clipped(stats[..i], from, to);
      assert stats[..i + 1][..i] == stats[..i];
      if st.x1 < st.x0 {
        if InTurn(stats) { BandSkip(out, stats, from, to, i); }
        assert s + [] == s;
        continue;
      }
      var n := |out|;
      if n > 0 && Mergeable(out[n - 1], st) {
        if InTurn(stats) { BandMerge(out, stats, from, to, i); }
        GroupedExtend(out, s, at, st);
        out := out[n - 1 := out[n - 1].(x1 := st.x1)];
        at := at + [n - 1];
        continue;
      }
      if InTurn(stats) { BandAdd(out, stats, from, to, i); }
      GroupedBegin(out, s, at, st);
      out := out + [st];
      at := at + [n];
    }
    assert stats[..|stats|] == stats;
  }

  lemma NothingAdmitted(stats: seq<FrameStat>, from: real, to: real)
    ensures AllAdmitted([], stats[..0], from, to) && Behind([], stats, from, to, 0)
    ensures Grouped([], [], [])
  {
  }

  lemma BandSkip(out: seq<State>, stats: seq<FrameStat>, from: real, to: real, i: nat)
    requires i < |stats| && AllAdmitted(out, stats[..i], from, to) && Behind(out, stats, from, to, i)
    requires StateOf(stats[i], from, to).x1 < StateOf(stats[i], from, to).x0
    ensures AllAdmitted(out, stats[..i + 1], from, to) && Behind(out, stats, from, to, i + 1)
  {
    forall x, v ensures !Admits(StateOf(stats[i], from, to), x, v) { }
    AllAdmittedMore(out, out, stats, from, to, i);
    hide AllAdmitted;
  }

  lemma BandMerge(out: seq<State>, stats: seq<FrameStat>, from: real, to: real, i: nat)
    requires i < |stats| && InTurn(stats) && AllAdmitted(out, stats[..i], from, to) && Behind(out, stats, from, to, i)
    requires out != [] && Mergeable(out[|out| - 1], StateOf(stats[i], from, to))
    ensures var now := out[|out| - 1 := out[|out| - 1].(x1 := StateOf(stats[i], from, to).x1)];
      AllAdmitted(now, stats[..i + 1], from, to) && Behind(now, stats, from, to, i + 1)
  {
    var st := StateOf(stats[i], from, to);
    var now := out[|out| - 1 := out[|out| - 1].(x1 := st.x1)];
    hide Mergeable;
    hide Admitted;
    hide Admits;
    forall x, v ensures Admitted(out, x, v) || Admits(st, x, v) ==> Admitted(now, x, v) { AdmittedMerge(out, st, x, v); }
    AllAdmittedMore(out, now, stats, from, to, i);
    hide AllAdmitted;
  }

  lemma BandAdd(out: seq<State>, stats: seq<FrameStat>, from: real, to: real, i: nat)
    requires i < |stats| && InTurn(stats) && AllAdmitted(out, stats[..i], from, to)
    ensures var now := out + [StateOf(stats[i], from, to)];
      AllAdmitted(now, stats[..i + 1], from, to) && Behind(now, stats, from, to, i + 1)
  {
    var st := StateOf(stats[i], from, to);
    hide Admitted;
    hide Admits;
    forall x, v ensures Admitted(out, x, v) || Admits(st, x, v) ==> Admitted(out + [st], x, v) { AdmittedAdd(out, st, x, v); }
    AllAdmittedMore(out, out + [st], stats, from, to, i);
    hide AllAdmitted;
  }
}
