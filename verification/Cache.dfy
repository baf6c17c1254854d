/** Decoded frames kept by how recently they were used, bounded by their bytes. */
module Cache {
  import opened Bytes
  import opened Records

  datatype Entry = Entry(offset: nat, batch: Batch, size: nat)

  // --- what is kept, most recently used first ----------------------------------------------------------

  function Total(es: seq<Entry>): nat {
    if es == [] then 0 else es[0].size + Total(es[1..])
  }

  predicate Distinct(es: seq<Entry>) { forall i, j :: 0 <= i < j < |es| ==> es[i].offset != es[j].offset }

  predicate Kept(es: seq<Entry>, offset: nat) { exists i :: 0 <= i < |es| && es[i].offset == offset }

  function Position(es: seq<Entry>, offset: nat): (i: nat)
    requires Kept(es, offset)
    ensures i < |es| && es[i].offset == offset
  {
    if es[0].offset == offset then 0
    else
      assert Kept(es[1..], offset) by {
        var i :| 0 <= i < |es| && es[i].offset == offset;
        assert es[1..][i - 1] == es[i];
      }
      1 + Position(es[1..], offset)
  }

  function ToFront(es: seq<Entry>, i: nat): seq<Entry>
    requires i < |es|
  {
    [es[i]] + es[..i] + es[i + 1..]
  }

  /** Used again. */
  function Touched(es: seq<Entry>, offset: nat): seq<Entry> {
    if Kept(es, offset) then ToFront(es, Position(es, offset)) else es
  }

  /** The least recently used are dropped until the rest fit. */
  function Evicted(es: seq<Entry>, max: nat): seq<Entry>
    decreases |es|
  {
    if Total(es) <= max then es else Evicted(es[..|es| - 1], max)
  }

  /** A frame larger than the whole budget is not worth evicting anything for. */
  function Added(es: seq<Entry>, offset: nat, b: Batch, max: nat): seq<Entry> {
    if Kept(es, offset) then Touched(es, offset)
    else if |b.data| > max then es
    else Evicted([Entry(offset, b, |b.data|)] + es, max)
  }

  // --- what holds of it ----------------------------------------------------------------------------------

  ghost predicate Sound(es: seq<Entry>, max: nat) {
    Distinct(es) && Total(es) <= max && forall e :: e in es ==> e.size == |e.batch.data|
  }

  lemma {:induction false} TotalJoin(a: seq<Entry>, b: seq<Entry>)
    ensures Total(a + b) == Total(a) + Total(b)
  {
    if a == [] {
      assert a + b == b;
    } else {
      TotalJoin(a[1..], b);
      assert (a + b)[1..] == a[1..] + b;
    }
  }

  lemma TotalOne(e: Entry)
    ensures Total([e]) == e.size
  {
  }

  lemma FrontTotal(es: seq<Entry>, i: nat)
    requires i < |es|
    ensures Total(ToFront(es, i)) == Total(es)
  {
    hide Total;
    TotalJoin([es[i]] + es[..i], es[i + 1..]);
    TotalJoin([es[i]], es[..i]);
    TotalJoin(es[..i] + [es[i]], es[i + 1..]);
    TotalJoin(es[..i], [es[i]]);
    assert es == es[..i] + [es[i]] + es[i + 1..];
  }

  /** The same entries, the used one first and the others in the order they were. */
  lemma FrontIs(es: seq<Entry>, i: nat)
    requires i < |es| && Distinct(es)
    ensures var r := ToFront(es, i);
      Distinct(r) && |r| == |es| && r[0] == es[i] && (forall e :: e in r <==> e in es)
  {
    var r := ToFront(es, i);
    assert forall k :: 0 <= k < |r| ==> r[k] == if k == 0 then es[i] else if k <= i then es[k - 1] else es[k];
    forall k | 0 <= k < |es| ensures es[k] in r {
      assert es[k] == if k < i then r[k + 1] else if k == i then r[0] else r[k];
    }
  }

  /** What is left fits, is the most recent part, and is all of it that fits. */
  lemma {:induction false} EvictedIs(es: seq<Entry>, max: nat)
    ensures var r := Evicted(es, max);
      r <= es && Total(r) <= max && (|r| < |es| ==> Total(es[..|r| + 1]) > max)
    decreases |es|
  {
    if Total(es) > max {
      EvictedIs(es[..|es| - 1], max);
      var r := Evicted(es, max);
      if |r| == |es| - 1 {
        assert es[..|r| + 1] == es;
      } else {
        assert es[..|es| - 1][..|r| + 1] == es[..|r| + 1];
      }
    }
  }

  /** A use keeps everything. */
  lemma TouchedSound(es: seq<Entry>, offset: nat, max: nat)
    requires Sound(es, max)
    ensures var r := Touched(es, offset);
      Sound(r, max) && (forall e :: e in r <==> e in es) && (Kept(es, offset) ==> |r| > 0 && r[0].offset == offset)
  {
    if Kept(es, offset) {
      FrontIs(es, Position(es, offset));
      FrontTotal(es, Position(es, offset));
    }
  }

  /** What is added stays if it fits, and what goes is least recently used. */
  lemma AddedSound(es: seq<Entry>, offset: nat, b: Batch, max: nat)
    requires Sound(es, max)
    ensures var r := Added(es, offset, b, max);
      Sound(r, max) &&
      (!Kept(es, offset) && |b.data| <= max ==> |r| > 0 && r[0] == Entry(offset, b, |b.data|) && r[1..] <= es) &&
      (forall e :: e in r ==> e in es || e == Entry(offset, b, |b.data|))
  {
    if Kept(es, offset) {
      TouchedSound(es, offset, max);
    } else if |b.data| <= max {
      var e := Entry(offset, b, |b.data|);
      var all := [e] + es;
      EvictedIs(all, max);
      var r := Evicted(all, max);
      TotalOne(e);
      assert all[..1] == [e];
      assert |r| > 0;
      assert r == all[..|r|];
      assert r[1..] == es[..|r| - 1];
      assert Distinct(all) by {
        forall i, j | 0 <= i < j < |all| ensures all[i].offset != all[j].offset {
          assert all[j] == es[j - 1];
        }
      }
    }
  }

  // --- as it is done ------------------------------------------------------------------------------------------

  /** The map holds the list's entries by their offsets, and nothing else. */
  ghost predicate Mapped(es: seq<Entry>, items: map<nat, Entry>) {
    (forall k :: k in items <==> Kept(es, k)) && forall e :: e in es ==> e.offset in items && items[e.offset] == e
  }

  class BatchCache {
    const max: nat
    var cur: int
    var list: seq<Entry>
    var items: map<nat, Entry>
    var hits: nat
    var misses: nat

    /** The map and the list hold the same keys, none twice, and the byte count is
        the sum of what is held and within the budget. */
    ghost predicate Valid()
      reads this
    {
      1 <= max && Sound(list, max) && cur == Total(list) && Mapped(list, items)
    }

    constructor (maxBytes: int)
      ensures Valid() && list == [] && hits == 0 && misses == 0
      ensures max == if maxBytes < 1 then 1 else maxBytes
    {
      max := if maxBytes < 1 then 1 else maxBytes;
      cur, list, items, hits, misses := 0, [], map[], 0, 0;
    }

    method MoveToFront(offset: nat)
      requires Valid() && offset in items
      modifies this`list
      ensures Valid() && list == Touched(old(list), offset)
    {
      hide Touched;
      hide ToFront;
      hide Kept;
      hide Distinct;
      MappedAt(list, items, offset);
      TouchedSound(list, offset, max);
      TouchedTotal(list, offset);
      SoundDistinct(list, max);
      var i := 0;
      while list[i].offset != offset
        invariant i <= Position(list, offset) < |list|
        decreases Position(list, offset) - i
      {
        i := i + 1;
      }
      FirstIs(list, offset, i);
      MappedSame(list, Touched(list, offset), items);
      list := [list[i]] + list[..i] + list[i + 1..];
    }

    /** A frame that is held, if it is; a hit makes it the most recent. */
    method Get(offset: nat) returns (b: Option<Batch>)
      requires Valid()
      modifies this`list, this`hits, this`misses
      ensures Valid() && list == Touched(old(list), offset)
      ensures b.Some? <==> Kept(old(list), offset)
      ensures b.Some? ==> exists e :: e in old(list) && e.offset == offset && e.batch == b.value
      ensures hits + misses == old(hits + misses) + 1 && hits == old(hits) + if b.Some? then 1 else 0
    {
      hide Kept;
      hide ToFront;
      hide Distinct;
      hide Total;
      if offset !in items {
        NotMapped(list, items, offset);
        misses := misses + 1;
        return None;
      }
      MappedAt(list, items, offset);
      hide Mapped;
      hide Touched;
      hits := hits + 1;
      var e := items[offset];
      assert e in list && e.offset == offset;
      MoveToFront(offset);
      return Some(e.batch);
    }

    method Put(offset: nat, b: Batch)
      requires Valid()
      modifies this`list, this`items, this`cur
      ensures Valid() && list == Added(old(list), offset, b, max)
    {
      hide Kept;
      hide Touched;
      hide Distinct;
      hide Total;
      hide Evicted;
      hide Mapped;
      var size := |b.data|;
      AddedSound(list, offset, b, max);
      if offset in items {
        MappedAt(list, items, offset);
        MoveToFront(offset);
        return;
      }
      NotMapped(list, items, offset);
      if size > max { return; }
      var e := Entry(offset, b, size);
      SoundDistinct(list, max);
      PushFront(list, items, e);
      list := [e] + list;
      items := items[offset := e];
      cur := cur + size;
      ghost var all := list;
      while cur > max
        invariant Distinct(list) && cur == Total(list) && Evicted(list, max) == Evicted(all, max) && Mapped(list, items)
        decreases |list|
      {
        TotalNone();
        assert list != [];
        var n := |list| - 1;
        var back := list[n];
        DropBack(list, items, max);
        list := list[..n];
        items := items - {back.offset};
        cur := cur - back.size;
      }
      EvictedDone(list, max);
    }
  }

  lemma TotalNone()
    ensures Total([]) == 0
  {
  }

  lemma EvictedDone(es: seq<Entry>, max: nat)
    requires Total(es) <= max
    ensures Evicted(es, max) == es
  {
  }

  lemma SoundDistinct(es: seq<Entry>, max: nat)
    requires Sound(es, max)
    ensures Distinct(es)
  {
  }

  lemma MappedAt(es: seq<Entry>, items: map<nat, Entry>, offset: nat)
    requires Mapped(es, items) && offset in items
    ensures Kept(es, offset) && items[offset] in es && items[offset].offset == offset
  {
    var i :| 0 <= i < |es| && es[i].offset == offset;
    assert es[i] in es;
  }

  lemma NotMapped(es: seq<Entry>, items: map<nat, Entry>, offset: nat)
    requires Mapped(es, items) && offset !in items
    ensures !Kept(es, offset) && Touched(es, offset) == es
  {
  }

  lemma MappedSame(a: seq<Entry>, b: seq<Entry>, items: map<nat, Entry>)
    requires Mapped(a, items) && forall e :: e in a <==> e in b
    ensures Mapped(b, items)
  {
    KeptSame(a, b);
    hide Kept;
  }

  lemma TouchedTotal(es: seq<Entry>, offset: nat)
    requires Kept(es, offset)
    ensures Total(Touched(es, offset)) == Total(es)
    ensures Touched(es, offset) == ToFront(es, Position(es, offset))
    ensures var i := Position(es, offset); ToFront(es, i) == [es[i]] + es[..i] + es[i + 1..]
  {
    FrontTotal(es, Position(es, offset));
  }

  lemma PushFront(es: seq<Entry>, items: map<nat, Entry>, e: Entry)
    requires Distinct(es) && Mapped(es, items) && e.offset !in items
    ensures Distinct([e] + es) && Mapped([e] + es, items[e.offset := e]) && Total([e] + es) == Total(es) + e.size
  {
    TotalJoin([e], es);
    TotalOne(e);
    assert !Kept(es, e.offset);
    DistinctMore(es, e);
    hide Total;
    hide Distinct;
    forall k: nat ensures Kept([e] + es, k) <==> k == e.offset || Kept(es, k) { KeptMore(es, e, k); }
    hide Kept;
  }

  lemma DistinctMore(es: seq<Entry>, e: Entry)
    requires Distinct(es) && !Kept(es, e.offset)
    ensures Distinct([e] + es)
  {
    var all := [e] + es;
    forall i, j | 0 <= i < j < |all| ensures all[i].offset != all[j].offset { assert all[j] == es[j - 1]; }
  }

  lemma KeptMore(es: seq<Entry>, e: Entry, k: nat)
    ensures Kept([e] + es, k) <==> k == e.offset || Kept(es, k)
  {
    var all := [e] + es;
    if Kept(all, k) {
      var i :| 0 <= i < |all| && all[i].offset == k;
      if i > 0 { assert es[i - 1].offset == k; }
    }
    if k == e.offset { assert all[0].offset == k; }
    if Kept(es, k) {
      var i :| 0 <= i < |es| && es[i].offset == k;
      assert all[i + 1].offset == k;
    }
  }

  lemma DropBack(es: seq<Entry>, items: map<nat, Entry>, max: nat)
    requires es != [] && Distinct(es) && Mapped(es, items) && Total(es) > max
    ensures var n := |es| - 1;
      Distinct(es[..n]) && Mapped(es[..n], items - {es[n].offset}) && Total(es[..n]) == Total(es) - es[n].size &&
      Evicted(es[..n], max) == Evicted(es, max)
  {
    var n := |es| - 1;
    DropTotal(es);
    DropMapped(es, items);
    hide Mapped;
    hide Total;
  }

  lemma DropTotal(es: seq<Entry>)
    requires es != []
    ensures var n := |es| - 1; Total(es[..n]) == Total(es) - es[n].size
  {
    var n := |es| - 1;
    assert es == es[..n] + [es[n]];
    TotalJoin(es[..n], [es[n]]);
    TotalOne(es[n]);
    hide Total;
  }

  lemma DropMapped(es: seq<Entry>, items: map<nat, Entry>)
    requires es != [] && Distinct(es) && Mapped(es, items)
    ensures Mapped(es[..|es| - 1], items - {es[|es| - 1].offset})
  {
    var n := |es| - 1;
    KeptInit(es, es[..n]);
    hide Kept;
    forall e | e in es[..n] ensures e.offset in items - {es[n].offset} {
      assert e in es;
      var i :| 0 <= i < n && es[i] == e;
    }
  }

  lemma FirstIs(es: seq<Entry>, offset: nat, i: nat)
    requires Kept(es, offset) && Distinct(es) && i < |es| && es[i].offset == offset
    ensures Position(es, offset) == i
  {
  }

  lemma KeptSame(a: seq<Entry>, b: seq<Entry>)
    requires forall e :: e in a <==> e in b
    ensures forall k :: Kept(a, k) <==> Kept(b, k)
  {
    forall k | Kept(a, k) ensures Kept(b, k) {
      var i :| 0 <= i < |a| && a[i].offset == k;
      assert a[i] in b;
    }
    forall k | Kept(b, k) ensures Kept(a, k) {
      var i :| 0 <= i < |b| && b[i].offset == k;
      assert b[i] in a;
    }
  }

  lemma KeptInit(was: seq<Entry>, now: seq<Entry>)
    requires |was| > 0 && Distinct(was) && now == was[..|was| - 1]
    ensures forall k :: Kept(now, k) <==> Kept(was, k) && k != was[|was| - 1].offset
  {
    forall k | Kept(was, k) && k != was[|was| - 1].offset ensures Kept(now, k) {
      var i :| 0 <= i < |was| && was[i].offset == k;
      assert now[i].offset == k;
    }
    forall k | Kept(now, k) ensures Kept(was, k) && k != was[|was| - 1].offset {
      var i :| 0 <= i < |now| && now[i].offset == k;
      assert was[i].offset == k;
    }
  }

  // --- over whole histories ---------------------------------------------------------------------------------------

  datatype Use = Asked(offset: nat) | Given(offset: nat, batch: Batch)

  function After(uses: seq<Use>, max: nat): seq<Entry> {
    if uses == [] then []
    else
      var es := After(uses[..|uses| - 1], max);
      match uses[|uses| - 1]
      case Asked(k) => Touched(es, k)
      case Given(k, b) => Added(es, k, b, max)
  }

  /** When an offset was last named, counting from one; zero for never. */
  function LastUse(uses: seq<Use>, offset: nat): (n: nat)
    ensures n <= |uses|
  {
    if uses == [] then 0
    else if uses[|uses| - 1].offset == offset then |uses|
    else LastUse(uses[..|uses| - 1], offset)
  }

  /** More recently used comes first. */
  ghost predicate ByRecency(es: seq<Entry>, uses: seq<Use>) {
    forall i, j :: 0 <= i < j < |es| ==> LastUse(uses, es[i].offset) > LastUse(uses, es[j].offset)
  }

  /** After any uses at all the cache is within its budget and in the order of last
      use, so that what was evicted was what had gone unused longest. */
  lemma {:induction false} HistoryKept(uses: seq<Use>, max: nat)
    ensures Sound(After(uses, max), max) && ByRecency(After(uses, max), uses)
    ensures forall e :: e in After(uses, max) ==> Given(e.offset, e.batch) in uses
  {
    if uses != [] {
      var n := |uses| - 1;
      HistoryKept(uses[..n], max);
      var es, u := After(uses[..n], max), uses[n];
      if u.Asked? {
        TouchedSound(es, u.offset, max);
        TouchedRecent(es, uses, u.offset);
      } else {
        AddedSound(es, u.offset, u.batch, max);
        AddedRecent(es, uses, max);
      }
    }
  }

  /** Moving the used one forward keeps the others' order. */
  lemma TouchedRecent(es: seq<Entry>, uses: seq<Use>, offset: nat)
    requires uses != [] && uses[|uses| - 1].offset == offset && Distinct(es) && ByRecency(es, uses[..|uses| - 1])
    ensures ByRecency(Touched(es, offset), uses)
  {
    var r := Touched(es, offset);
    if Kept(es, offset) {
      var p := Position(es, offset);
      assert forall k :: 0 <= k < |r| ==> r[k] == if k == 0 then es[p] else if k <= p then es[k - 1] else es[k];
      forall i, j | 0 <= i < j < |r| ensures LastUse(uses, r[i].offset) > LastUse(uses, r[j].offset) {
        assert r[j].offset != offset;
      }
    } else {
      forall i | 0 <= i < |es| ensures es[i].offset != offset { }
    }
  }

  lemma AddedRecent(es: seq<Entry>, uses: seq<Use>, max: nat)
    requires uses != [] && uses[|uses| - 1].Given? && Sound(es, max) && ByRecency(es, uses[..|uses| - 1])
    ensures var u := uses[|uses| - 1]; ByRecency(Added(es, u.offset, u.batch, max), uses)
  {
    var u := uses[|uses| - 1];
    if Kept(es, u.offset) {
      TouchedRecent(es, uses, u.offset);
    } else {
      forall i | 0 <= i < |es| ensures es[i].offset != u.offset { }
      if |u.batch.data| <= max {
        var all := [Entry(u.offset, u.batch, |u.batch.data|)] + es;
        EvictedIs(all, max);
        var r := Evicted(all, max);
        forall i, j | 0 <= i < j < |r| ensures LastUse(uses, r[i].offset) > LastUse(uses, r[j].offset) {
          assert r[i] == all[i] && r[j] == all[j] == es[j - 1];
        }
      }
    }
  }
}
