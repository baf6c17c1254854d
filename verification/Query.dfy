/** Serving decoded frames: what the cache has, and what it has not decoded segment
    by segment and put back in the caller's order. */
module Query {
  import opened Bytes
  import opened Records
  import opened Reading
  import opened Stats
  import opened Indexing
  import opened Access
  import opened Cache
  import Resuming

  /** The batch the full scan of the file gave at an offset. */
  ghost predicate BatchAt(z: Zip, file: bytes, offset: nat, b: Batch) {
    |file| >= 16 && exists j :: 0 <= j < |EventsOf(z, file)| && GaveAt(EventsOf(z, file)[j], offset, b)
  }

  predicate GaveAt(e: Event, offset: nat, b: Batch) { e.at == offset && e.out.Records? && e.out.batch == b }

  lemma OneBatchAt(z: Zip, file: bytes, offset: nat, a: Batch, b: Batch)
    requires BatchAt(z, file, offset, a) && BatchAt(z, file, offset, b)
    ensures a == b
  {
    Resuming.EventsOrdered(z, file[16..]);
    hide EventsOf;
    EventsAre(z, file);
    var i :| 0 <= i < |EventsOf(z, file)| && GaveAt(EventsOf(z, file)[i], offset, a);
    var j :| 0 <= j < |EventsOf(z, file)| && GaveAt(EventsOf(z, file)[j], offset, b);
  }

  /** Everything cached is what the scan gave at its offset. */
  ghost predicate Faithful(z: Zip, file: bytes, es: seq<Entry>) {
    forall e :: e in es ==> BatchAt(z, file, e.offset, e.batch)
  }

  /** Frames of one stream of the file's index, in a file whose segments bind each tag
      once. */
  ghost predicate Servable(z: Zip, m: Meter, file: bytes, ds: seq<DataFrame>) {
    |file| >= 16 && IndexFile(z, m, file).Some? && BoundOnce(EventsOf(z, file)) && OneTag(ds) &&
    forall d :: d in ds ==> d in IndexFile(z, m, file).value.data
  }

  function SegmentsOf(z: Zip, m: Meter, file: bytes): seq<Segment> {
    match IndexFile(z, m, file)
    case None => []
    case Some(f) => f.segments
  }

  ghost predicate AllGiven(z: Zip, file: bytes, ds: seq<DataFrame>, bs: seq<Batch>) {
    |bs| == |ds| && forall q :: 0 <= q < |ds| ==> BatchAt(z, file, ds[q].ref.offset, bs[q])
  }

  lemma SameGiven(z: Zip, file: bytes, fs: seq<DataFrame>, a: seq<Batch>, b: seq<Batch>)
    requires AllGiven(z, file, fs, a) && AllGiven(z, file, fs, b)
    ensures a == b
  {
    hide BatchAt;
    forall k | 0 <= k < |fs| ensures a[k] == b[k] { OneBatchAt(z, file, fs[k].ref.offset, a[k], b[k]); }
  }

  /** Decoding such frames gives what the scan gave. */
  lemma Served(z: Zip, m: Meter, file: bytes, ds: seq<DataFrame>)
    requires Servable(z, m, file, ds)
    ensures DecodedAll(z, file, SegmentsOf(z, m, file), ds).Some?
    ensures AllGiven(z, file, ds, DecodedAll(z, file, SegmentsOf(z, m, file), ds).value)
  {
    hide DecodedAll;
    hide EventsOf;
    hide BoundOnce;
    hide OneTag;
    hide IndexFile;
    var at := AccessAgrees(z, m, file, ds);
    var evs := EventsOf(z, file);
    forall q | 0 <= q < |ds| ensures BatchAt(z, file, ds[q].ref.offset, BatchesAt(evs, at)[q]) {
      assert GaveAt(evs[at[q]], ds[q].ref.offset, BatchesAt(evs, at)[q]);
    }
  }

  lemma ServableSome(z: Zip, m: Meter, file: bytes, ds: seq<DataFrame>, es: seq<DataFrame>)
    requires Servable(z, m, file, ds) && forall e :: e in es ==> e in ds
    ensures Servable(z, m, file, es)
  {
    hide IndexFile;
    hide EventsOf;
    hide BoundOnce;
    forall i, j | 0 <= i < |es| && 0 <= j < |es| && es[i].segment == es[j].segment ensures es[i].ref.id == es[j].ref.id {
      assert es[i] in es && es[j] in es;
    }
  }

  /** A frame decoded alone. */
  lemma ServedOne(z: Zip, m: Meter, file: bytes, ds: seq<DataFrame>, q: nat, b: Batch)
    requires Servable(z, m, file, ds) && q < |ds| && BatchAt(z, file, ds[q].ref.offset, b)
    ensures DecodedAll(z, file, SegmentsOf(z, m, file), [ds[q]]) == Some([b])
  {
    hide DecodedAll;
    hide BatchAt;
    hide IndexFile;
    hide Servable;
    ServableSome(z, m, file, ds, [ds[q]]);
    Served(z, m, file, [ds[q]]);
    var bs := DecodedAll(z, file, SegmentsOf(z, m, file), [ds[q]]).value;
    OneBatchAt(z, file, ds[q].ref.offset, b, bs[0]);
    assert bs == [b];
  }

  // --- putting the decoded back in order --------------------------------------------------------------------

  /** Frames not served from the cache, and where they are wanted. */
  ghost predicate Gaps(frames: seq<DataFrame>, out: seq<Option<Batch>>, missing: seq<DataFrame>, at: seq<nat>, i: nat) {
    |out| == |frames| && i <= |frames| && |missing| == |at| &&
    (forall k :: 0 <= k < |at| ==> at[k] < i && missing[k] == frames[at[k]]) &&
    (forall p :: 0 <= p < i ==> p in at || out[p].Some?)
  }

  /** What is there is what the scan gave. */
  ghost predicate Right(z: Zip, file: bytes, frames: seq<DataFrame>, out: seq<Option<Batch>>) {
    |out| == |frames| && forall p :: 0 <= p < |out| && out[p].Some? ==> BatchAt(z, file, frames[p].ref.offset, out[p].value)
  }

  class Query {
    const z: Zip
    const m: Meter
    const file: bytes
    const index: File
    const acc: Accessor
    const cache: BatchCache

    ghost predicate Valid()
      reads this, acc, cache
    {
      IndexFile(z, m, file) == Some(index) && acc.Valid() && cache.Valid() && acc.z == z && acc.file == file && acc.segs == SegmentsOf(z, m, file)
    }

    constructor (zip: Zip, meter: Meter, source: bytes, index: File, maxBytes: int)
      requires IndexFile(zip, meter, source) == Some(index)
      ensures Valid() && z == zip && m == meter && file == source && this.index == index && fresh(acc) && fresh(cache)
      ensures cache.list == []
    {
      var a := new Accessor(zip, source, index.segments);
      var c := new BatchCache(maxBytes);
      z, m, file, this.index, acc, cache := zip, meter, source, index, a, c;
    }

    /** Every group decoded, or nothing. */
    method DecodeGroups(groups: seq<seq<DataFrame>>) returns (r: Option<seq<seq<Batch>>>)
      requires Valid()
      modifies acc
      ensures Valid()
      ensures r.Some? <==> forall i :: 0 <= i < |groups| ==> DecodedAll(z, file, acc.segs, groups[i]).Some?
      ensures r.Some? ==> |r.value| == |groups|
      ensures r.Some? ==> forall i :: 0 <= i < |groups| ==> DecodedAll(z, file, acc.segs, groups[i]) == Some(r.value[i])
    {
      hide IndexFile;
      hide SegmentsOf;
      hide DecodedAll;
      var decoded: seq<Option<seq<Batch>>> := [];
      for i := 0 to |groups|
        invariant Valid() && |decoded| == i
        invariant forall k :: 0 <= k < i ==> decoded[k] == DecodedAll(z, file, acc.segs, groups[k])
      {
        var d := acc.Decode(groups[i]);
        decoded := decoded + [d];
      }
      var bs: seq<seq<Batch>> := [];
      for i := 0 to |groups|
        invariant |bs| == i && forall k :: 0 <= k < i ==> decoded[k] == Some(bs[k])
      {
        if decoded[i] == None { return None; }
        bs := bs + [decoded[i].value];
      }
      return Some(bs);
    }

    /** The batches of the given frames, each at its frame's position. */
    method Batches(frames: seq<DataFrame>) returns (r: Option<seq<Batch>>)
      requires Valid()
      modifies acc, cache
      ensures Valid()
      ensures r.Some? ==> |r.value| == |frames|
      ensures Servable(z, m, file, frames) && old(Faithful(z, file, cache.list)) ==> Faithful(z, file, cache.list)
      ensures Servable(z, m, file, frames) && old(Faithful(z, file, cache.list)) ==>
        r.Some? && AllGiven(z, file, frames, r.value)
    {
      hide IndexFile;
      hide Servable;
      hide Faithful;
      hide BatchAt;
      hide Right;
      hide Gaps;
      hide Flat;
      hide DecodedAll;
      hide AllGiven;
      hide SegmentsOf;
      ghost var good := Servable(z, m, file, frames) && Faithful(z, file, cache.list);
      var out: seq<Option<Batch>> := seq(|frames|, _ => None);
      var missing: seq<DataFrame> := [];
      var missingAt: seq<nat> := [];
      NothingServed(z, file, frames, out);
      for i := 0 to |frames|
        invariant Valid() && Gaps(frames, out, missing, missingAt, i) && |out| == |frames|
        invariant good ==> Right(z, file, frames, out) && Faithful(z, file, cache.list)
      {
        var f := frames[i];
        label Asked:
        var b := cache.Get(f.ref.offset);
        FaithfulTouch(z, file, old@Asked(cache.list), f.ref.offset, cache.max);
        if b.Some? {
          if good { FaithfulGet(z, file, old@Asked(cache.list), f.ref.offset, b.value); }
          RightMore(z, file, frames, out, i, b.value);
          GapsServed(frames, out, missing, missingAt, i, b.value);
          out := out[i := b];
        } else {
          GapsMissing(frames, out, missing, missingAt, i);
          missing := missing + [f];
          missingAt := missingAt + [i];
        }
      }
      r := Stitch(frames, out, missing, missingAt);
    }

    /** Puts one group's batches where they are wanted, and in the cache. */
    method PutGroup(ghost frames: seq<DataFrame>, start: seq<Option<Batch>>, ghost missing: seq<DataFrame>, missingAt: seq<nat>,
                    k: nat, g: seq<DataFrame>, bs: seq<Batch>)
      returns (out: seq<Option<Batch>>)
      requires Valid() && |bs| == |g| && k + |g| <= |missing| && missing[k..k + |g|] == g
      requires Gaps(frames, start, missing, missingAt, |frames|) && Done(start, missingAt, k)
      modifies cache
      ensures Valid() && Gaps(frames, out, missing, missingAt, |frames|) && Done(out, missingAt, k + |g|)
      ensures Right(z, file, frames, start) && old(Faithful(z, file, cache.list)) && AllGiven(z, file, g, bs) ==>
        Right(z, file, frames, out) && Faithful(z, file, cache.list)
    {
      hide IndexFile;
      hide Faithful;
      hide BatchAt;
      hide Right;
      hide Gaps;
      hide Done;
      hide SegmentsOf;
      hide Accessor.Valid;
      hide BatchCache.Valid;
      hide Added;
      hide AllGiven;
      out := start;
      ghost var good := Right(z, file, frames, start) && Faithful(z, file, cache.list) && AllGiven(z, file, g, bs);
      for j := 0 to |g|
        invariant Valid() && Gaps(frames, out, missing, missingAt, |frames|) && Done(out, missingAt, k + j)
        invariant good ==> Right(z, file, frames, out) && Faithful(z, file, cache.list)
      {
        assert g[j] == missing[k..k + |g|][j] == missing[k + j];
        GapAt(frames, out, missing, missingAt, k + j);
        var p := missingAt[k + j];
        RightMore(z, file, frames, out, p, bs[j]);
        GapFilled(frames, out, missing, missingAt, k + j, bs[j]);
        if good {
          CacheSound(cache);
          GivenHere(z, file, g, bs, j);
          FaithfulPut(z, file, cache.list, g[j].ref.offset, bs[j], cache.max);
        }
        out := out[p := Some(bs[j])];
        cache.Put(g[j].ref.offset, bs[j]);
      }
    }

    /** Decodes what is missing and puts it where it is wanted. */
    method Stitch(frames: seq<DataFrame>, start: seq<Option<Batch>>, missing: seq<DataFrame>, missingAt: seq<nat>)
      returns (r: Option<seq<Batch>>)
      requires Valid() && Gaps(frames, start, missing, missingAt, |frames|)
      modifies acc, cache
      ensures Valid()
      ensures r.Some? ==> |r.value| == |frames|
      ensures Servable(z, m, file, frames) && Right(z, file, frames, start) && old(Faithful(z, file, cache.list)) ==>
        Faithful(z, file, cache.list)
      ensures Servable(z, m, file, frames) && Right(z, file, frames, start) && old(Faithful(z, file, cache.list)) ==>
        r.Some? && AllGiven(z, file, frames, r.value)
    {
      hide IndexFile;
      hide Servable;
      hide Faithful;
      hide BatchAt;
      hide Right;
      hide Gaps;
      hide Done;
      hide Flat;
      hide Grouped;
      hide DecodedAll;
      hide AllGiven;
      hide SegmentsOf;
      ghost var good := Servable(z, m, file, frames) && Right(z, file, frames, start) && Faithful(z, file, cache.list);
      var groups := acc.GroupBySegment(missing);
      GroupedIs(missing);
      ghost var segs := SegmentsOf(z, m, file);
      if good { GroupsServed(z, m, file, frames, start, missing, missingAt); }
      var decoded := DecodeGroups(groups);
      if decoded == None { return None; }
      var out := start;
      var k := 0;
      NothingDone(start, missingAt, groups);
      for gi := 0 to |groups|
        invariant Valid() && k == |Flat(groups[..gi])| && Gaps(frames, out, missing, missingAt, |frames|) && Done(out, missingAt, k)
        invariant good ==> Right(z, file, frames, out) && Faithful(z, file, cache.list)
      {
        var g, bs := groups[gi], decoded.value[gi];
        if |bs| != |g| {
          if good { assert AllGiven(z, file, g, bs); GivenSize(z, file, g, bs); }
          return None;
        }
        FlatCut(groups, gi);
        out := PutGroup(frames, out, missing, missingAt, k, g, bs);
        k := k + |g|;
      }
      assert groups[..|groups|] == groups;
      AllDone(frames, out, missing, missingAt);
      var all: seq<Batch> := [];
      for p := 0 to |frames|
        invariant |all| == p && forall q :: 0 <= q < p ==> out[q] == Some(all[q])
      {
        all := all + [out[p].value];
      }
      if good { GivenAll(z, file, frames, out, all); }
      return Some(all);
    }
  }

  /** The first `k` of the missing have been put in their places. */
  ghost predicate Done(out: seq<Option<Batch>>, at: seq<nat>, k: nat) {
    k <= |at| && forall q :: 0 <= q < k ==> at[q] < |out| && out[at[q]].Some?
  }

  lemma NothingDone(out: seq<Option<Batch>>, at: seq<nat>, groups: seq<seq<DataFrame>>)
    ensures Done(out, at, 0) && |Flat(groups[..0])| == 0
  {
    assert groups[..0] == [];
  }

  lemma GapAt(frames: seq<DataFrame>, out: seq<Option<Batch>>, missing: seq<DataFrame>, at: seq<nat>, k: nat)
    requires Gaps(frames, out, missing, at, |frames|) && k < |missing|
    ensures |out| == |frames| && |at| == |missing| && at[k] < |frames| && frames[at[k]] == missing[k]
  {
  }

  lemma GapFilled(frames: seq<DataFrame>, out: seq<Option<Batch>>, missing: seq<DataFrame>, at: seq<nat>, k: nat, b: Batch)
    requires Gaps(frames, out, missing, at, |frames|) && k < |missing| && Done(out, at, k)
    ensures at[k] < |out|
    ensures Gaps(frames, out[at[k] := Some(b)], missing, at, |frames|) && Done(out[at[k] := Some(b)], at, k + 1)
  {
  }

  lemma AllDone(frames: seq<DataFrame>, out: seq<Option<Batch>>, missing: seq<DataFrame>, at: seq<nat>)
    requires Gaps(frames, out, missing, at, |frames|) && Done(out, at, |missing|)
    ensures |out| == |frames| && forall p :: 0 <= p < |out| ==> out[p].Some?
  {
    forall p | 0 <= p < |out| ensures out[p].Some? {
      if p in at {
        var k :| 0 <= k < |at| && at[k] == p;
      }
    }
  }

  lemma GivenSize(z: Zip, file: bytes, ds: seq<DataFrame>, bs: seq<Batch>)
    requires AllGiven(z, file, ds, bs)
    ensures |bs| == |ds|
  {
  }

  lemma GivenAll(z: Zip, file: bytes, frames: seq<DataFrame>, out: seq<Option<Batch>>, all: seq<Batch>)
    requires Right(z, file, frames, out) && |all| == |frames| && forall q :: 0 <= q < |all| ==> out[q] == Some(all[q])
    ensures AllGiven(z, file, frames, all)
  {
    hide BatchAt;
  }

  lemma FlatCut(g: seq<seq<DataFrame>>, gi: nat)
    requires gi < |g|
    ensures var k := |Flat(g[..gi])|;
      k + |g[gi]| <= |Flat(g)| && |Flat(g[..gi + 1])| == k + |g[gi]| && Flat(g)[k..k + |g[gi]|] == g[gi]
  {
    FlatJoin(g[..gi], g[gi..]);
    assert g == g[..gi] + g[gi..];
    assert g[gi..][0] == g[gi];
    assert Flat(g[gi..]) == g[gi] + Flat(g[gi..][1..]);
    FlatJoin(g[..gi], [g[gi]]);
    FlatOne(g[gi]);
    assert g[..gi + 1] == g[..gi] + [g[gi]];
  }

  /** Every group of what is missing decodes to what the scan gave. */
  lemma GroupsServed(z: Zip, m: Meter, file: bytes, frames: seq<DataFrame>, out: seq<Option<Batch>>,
                     missing: seq<DataFrame>, at: seq<nat>)
    requires Servable(z, m, file, frames) && Gaps(frames, out, missing, at, |frames|)
    ensures var segs := SegmentsOf(z, m, file);
      forall gi :: 0 <= gi < |Grouped(missing)| ==>
        DecodedAll(z, file, segs, Grouped(missing)[gi]).Some? &&
        AllGiven(z, file, Grouped(missing)[gi], DecodedAll(z, file, segs, Grouped(missing)[gi]).value)
  {
    hide Servable;
    hide Grouped;
    hide DecodedAll;
    hide AllGiven;
    hide Flat;
    GroupedIs(missing);
    var g := Grouped(missing);
    forall gi | 0 <= gi < |g|
      ensures DecodedAll(z, file, SegmentsOf(z, m, file), g[gi]).Some?
      ensures AllGiven(z, file, g[gi], DecodedAll(z, file, SegmentsOf(z, m, file), g[gi]).value)
    {
      FlatCut(g, gi);
      var k := |Flat(g[..gi])|;
      forall d | d in g[gi] ensures d in frames {
        var j :| 0 <= j < |g[gi]| && g[gi][j] == d;
        assert missing[k..k + |g[gi]|][j] == missing[k + j];
        assert frames[at[k + j]] == d;
      }
      ServableSome(z, m, file, frames, g[gi]);
      Served(z, m, file, g[gi]);
    }
  }

  lemma NothingServed(z: Zip, file: bytes, frames: seq<DataFrame>, out: seq<Option<Batch>>)
    requires |out| == |frames| && forall p :: 0 <= p < |out| ==> out[p] == None
    ensures Right(z, file, frames, out) && Gaps(frames, out, [], [], 0)
  {
  }

  lemma FaithfulTouch(z: Zip, file: bytes, es: seq<Entry>, offset: nat, max: nat)
    requires Sound(es, max)
    ensures Faithful(z, file, es) ==> Faithful(z, file, Touched(es, offset))
  {
    TouchedSound(es, offset, max);
  }

  lemma FaithfulGet(z: Zip, file: bytes, es: seq<Entry>, offset: nat, b: Batch)
    requires Faithful(z, file, es) && exists e :: e in es && e.offset == offset && e.batch == b
    ensures BatchAt(z, file, offset, b)
  {
  }

  lemma FaithfulPut(z: Zip, file: bytes, es: seq<Entry>, offset: nat, b: Batch, max: nat)
    requires Sound(es, max) && Faithful(z, file, es) && BatchAt(z, file, offset, b)
    ensures Faithful(z, file, Added(es, offset, b, max))
  {
    AddedSound(es, offset, b, max);
  }

  lemma CacheSound(c: BatchCache)
    requires c.Valid()
    ensures Sound(c.list, c.max)
  {
  }

  lemma GivenHere(z: Zip, file: bytes, ds: seq<DataFrame>, bs: seq<Batch>, q: nat)
    requires AllGiven(z, file, ds, bs) && q < |ds|
    ensures |bs| == |ds| && BatchAt(z, file, ds[q].ref.offset, bs[q])
  {
  }

  lemma RightMore(z: Zip, file: bytes, frames: seq<DataFrame>, out: seq<Option<Batch>>, p: nat, b: Batch)
    requires |out| == |frames| && p < |out|
    ensures Right(z, file, frames, out) && BatchAt(z, file, frames[p].ref.offset, b) ==>
      Right(z, file, frames, out[p := Some(b)])
  {
  }

  lemma GapsServed(frames: seq<DataFrame>, out: seq<Option<Batch>>, missing: seq<DataFrame>, at: seq<nat>, i: nat, b: Batch)
    requires Gaps(frames, out, missing, at, i) && i < |frames|
    ensures Gaps(frames, out[i := Some(b)], missing, at, i + 1)
  {
  }

  lemma GapsMissing(frames: seq<DataFrame>, out: seq<Option<Batch>>, missing: seq<DataFrame>, at: seq<nat>, i: nat)
    requires Gaps(frames, out, missing, at, i) && i < |frames|
    ensures Gaps(frames, out, missing + [frames[i]], at + [i], i + 1)
  {
    forall p | 0 <= p < i + 1 ensures p in at + [i] || out[p].Some? {
      if p == i { assert (at + [i])[|at|] == i; }
    }
  }
}
