/** Taking apart a block in which several groups' records are interleaved, each
    behind its group's id, and finding the variable-length samples that some of
    those records only point at. */
module Demux {
  import opened Bytes

  /** What a record looks like past its id: a fixed number of bytes, or a length and
      that many. */
  datatype Shape = Fixed(size: nat) | Counted

  datatype Rec = Rec(tag: bytes, body: bytes)

  // --- the block as a sequence of records ------------------------------------------------------------

  function RecordID(b: bytes, size: nat): u64
    requires size <= |b|
  {
    if size in {1, 2, 4, 8} then
      FromLEBound(b[..size]);
      WidthBounds();
      FromLE(b[..size])
    else 0
  }

  /** A record's size by what it starts with; nothing when that is cut short. */
  function BodySize(shape: Shape, rest: bytes): Option<nat> {
    match shape
    case Fixed(n) => Some(n)
    case Counted => if |rest| < 4 then None else Some(4 + FromLE(rest[..4]))
  }

  datatype Next = Stop | Unknown | Got(rec: Rec, rest: bytes)

  function Head(data: bytes, idSize: nat, shapes: map<u64, Shape>): Next {
    if |data| < idSize then Stop
    else if RecordID(data, idSize) !in shapes then Unknown
    else
      var rest := data[idSize..];
      match BodySize(shapes[RecordID(data, idSize)], rest)
      case None => Stop
      case Some(n) => if n > |rest| then Stop else Got(Rec(data[..idSize], rest[..n]), rest[n..])
  }

  datatype Walk = Walk(recs: seq<Rec>, ok: bool)

  /** The records of a block, up to one that runs off its end; not ok at an id that
      no group has. */
  function Walked(data: bytes, idSize: nat, shapes: map<u64, Shape>): Walk
    requires idSize > 0
    decreases |data|
  {
    match Head(data, idSize, shapes)
    case Stop => Walk([], true)
    case Unknown => Walk([], false)
    case Got(rec, rest) => var w := Walked(rest, idSize, shapes); Walk([rec] + w.recs, w.ok)
  }

  function Interleaved(recs: seq<Rec>): bytes {
    if recs == [] then [] else recs[0].tag + recs[0].body + Interleaved(recs[1..])
  }

  /** A record as a logger writes it. */
  predicate Whole(r: Rec, idSize: nat, shapes: map<u64, Shape>) {
    |r.tag| == idSize && RecordID(r.tag, idSize) in shapes &&
    BodySize(shapes[RecordID(r.tag, idSize)], r.body) == Some(|r.body|)
  }

  /** How many records lie wholly before a cut. */
  function Before(recs: seq<Rec>, cut: nat): (k: nat)
    ensures k <= |recs|
  {
    if recs == [] || |recs[0].tag| + |recs[0].body| > cut then 0
    else 1 + Before(recs[1..], cut - |recs[0].tag| - |recs[0].body|)
  }

  lemma {:induction false} BeforeIs(recs: seq<Rec>, cut: nat)
    requires forall r :: r in recs ==> |r.tag| > 0
    ensures var k := Before(recs, cut);
      |Interleaved(recs[..k])| <= cut && (k < |recs| ==> cut < |Interleaved(recs[..k + 1])|)
    decreases |recs|
  {
    var k := Before(recs, cut);
    if recs != [] {
      var n := |recs[0].tag| + |recs[0].body|;
      if n > cut {
        assert recs[..1] == [recs[0]];
        assert Interleaved([]) == [] && Interleaved([recs[0]]) == recs[0].tag + recs[0].body + Interleaved([recs[0]][1..]);
      } else {
        BeforeIs(recs[1..], cut - n);
        assert recs[..k] == [recs[0]] + recs[1..][..k - 1];
        assert recs[..k][1..] == recs[1..][..k - 1];
        if k < |recs| {
          assert recs[..k + 1] == [recs[0]] + recs[1..][..k];
          assert recs[..k + 1][1..] == recs[1..][..k];
        }
      }
    }
  }

  // --- the walk undoes the interleaving ------------------------------------------------------------------

  /** The first record of a block that is cut after it. */
  lemma HeadGot(r: Rec, tail: bytes, idSize: nat, shapes: map<u64, Shape>)
    requires Whole(r, idSize, shapes)
    ensures Head(r.tag + r.body + tail, idSize, shapes) == Got(r, tail)
  {
    var data := r.tag + r.body + tail;
    assert data == r.tag + (r.body + tail);
    assert r.tag[..idSize] == r.tag == data[..idSize];
    assert data[idSize..] == r.body + tail;
    assert (r.body + tail)[..|r.body|] == r.body && (r.body + tail)[|r.body|..] == tail;
    if shapes[RecordID(r.tag, idSize)].Counted? { assert (r.body + tail)[..4] == r.body[..4]; }
  }

  /** One that is cut inside it. */
  lemma HeadCut(r: Rec, data: bytes, idSize: nat, shapes: map<u64, Shape>)
    requires Whole(r, idSize, shapes) && data <= r.tag + r.body && data != r.tag + r.body
    ensures Head(data, idSize, shapes) == Stop
  {
    if |data| >= idSize {
      var whole := r.tag + r.body;
      assert data == whole[..|data|];
      assert data[..idSize] == whole[..idSize] == r.tag == r.tag[..idSize];
      var rest := data[idSize..];
      assert rest == r.body[..|data| - idSize];
      if |rest| >= 4 { assert rest[..4] == r.body[..4]; }
    }
  }

  /** However a block of whole records is cut, walking it gives the records before
      the cut, and never a complaint. */
  lemma {:induction false} CutWalk(recs: seq<Rec>, cut: nat, idSize: nat, shapes: map<u64, Shape>)
    requires idSize > 0 && (forall r :: r in recs ==> Whole(r, idSize, shapes)) && cut <= |Interleaved(recs)|
    ensures Walked(Interleaved(recs)[..cut], idSize, shapes) == Walk(recs[..Before(recs, cut)], true)
    decreases |recs|
  {
    hide Head;
    var data := Interleaved(recs)[..cut];
    if recs == [] {
      HeadEmpty(idSize, shapes);
    } else {
      var r := recs[0];
      assert Whole(r, idSize, shapes);
      var n := |r.tag| + |r.body|;
      if n > cut {
        assert data == (r.tag + r.body)[..cut];
        HeadCut(r, data, idSize, shapes);
      } else {
        var tail := Interleaved(recs[1..])[..cut - n];
        assert data == r.tag + r.body + tail;
        HeadGot(r, tail, idSize, shapes);
        CutWalk(recs[1..], cut - n, idSize, shapes);
        var k := Before(recs, cut);
        assert recs[..k] == [r] + recs[1..][..k - 1];
      }
    }
  }

  lemma HeadEmpty(idSize: nat, shapes: map<u64, Shape>)
    requires idSize > 0
    ensures Head([], idSize, shapes) == Stop
  {
  }

  /** Of any block at all: the records found are whole and are what it starts with,
      and what is left starts no further record. */
  lemma {:induction false} WalkCovers(data: bytes, idSize: nat, shapes: map<u64, Shape>)
    requires idSize > 0
    ensures Covers(data, Walked(data, idSize, shapes), idSize, shapes)
    decreases |data|
  {
    hide Head;
    hide Whole;
    var w := Walked(data, idSize, shapes);
    match Head(data, idSize, shapes) {
      case Stop => assert data[0..] == data;
      case Unknown => assert data[0..] == data;
      case Got(rec, rest) =>
        HeadWhole(data, idSize, shapes);
        WalkCovers(rest, idSize, shapes);
        CoversMore(data, rec, rest, Walked(rest, idSize, shapes), idSize, shapes);
    }
  }

  ghost predicate Covers(data: bytes, w: Walk, idSize: nat, shapes: map<u64, Shape>) {
    (forall r :: r in w.recs ==> Whole(r, idSize, shapes)) && Interleaved(w.recs) <= data &&
    Head(data[|Interleaved(w.recs)|..], idSize, shapes) == if w.ok then Stop else Unknown
  }

  lemma CoversMore(data: bytes, rec: Rec, rest: bytes, v: Walk, idSize: nat, shapes: map<u64, Shape>)
    requires Whole(rec, idSize, shapes) && data == rec.tag + rec.body + rest && Covers(rest, v, idSize, shapes)
    ensures Covers(data, Walk([rec] + v.recs, v.ok), idSize, shapes)
  {
    hide Head;
    hide Whole;
    var all := [rec] + v.recs;
    assert all[1..] == v.recs;
    var n, k := |rec.tag| + |rec.body|, |Interleaved(v.recs)|;
    PrefixAfter(rec.tag + rec.body, Interleaved(v.recs), rest);
    assert data[n + k..] == rest[k..];
  }

  lemma PrefixAfter(a: bytes, b: bytes, c: bytes)
    requires b <= c
    ensures a + b <= a + c
  {
    assert c == b + c[|b|..];
    assert a + c == (a + b) + c[|b|..];
  }

  lemma HeadWhole(data: bytes, idSize: nat, shapes: map<u64, Shape>)
    requires idSize > 0 && Head(data, idSize, shapes).Got?
    ensures var r := Head(data, idSize, shapes);
      Whole(r.rec, idSize, shapes) && data == r.rec.tag + r.rec.body + r.rest &&
      data[|r.rec.tag| + |r.rec.body|..] == r.rest
  {
    var r := Head(data, idSize, shapes);
    var rest := data[idSize..];
    assert r.rec.tag[..idSize] == data[..idSize];
    if shapes[RecordID(data, idSize)].Counted? { assert r.rec.body[..4] == rest[..4]; }
  }

  // --- the groups ------------------------------------------------------------------------------------------

  /** A channel group. `room` is what its buffer was made for; `records` starts as the
      file's cycle count, which reads as a negative number from 2^63. */
  class Group {
    const recordID: u64
    const isVLSD: bool
    const recordBytes: nat
    const invalBytes: nat
    var data: bytes
    var room: nat
    var records: int

    constructor (recordID: u64, isVLSD: bool, recordBytes: nat, invalBytes: nat, cycles: int)
      ensures this.recordID == recordID && this.isVLSD == isVLSD
      ensures this.recordBytes == recordBytes && this.invalBytes == invalBytes
      ensures data == [] && room == 0 && records == cycles
    {
      this.recordID := recordID;
      this.isVLSD := isVLSD;
      this.recordBytes := recordBytes;
      this.invalBytes := invalBytes;
      data := [];
      room := 0;
      records := cycles;
    }

    function Size(): nat { recordBytes + invalBytes }

    function Shape(): Shape { if isVLSD then Counted else Fixed(Size()) }

    /** What the group promises: its bytes are those of its records. */
    predicate Exact()
      reads this
    {
      |data| == records * Size()
    }
  }

  /** Who has an id: of several, the last. */
  function ByID(groups: seq<Group>): map<u64, Group> {
    if groups == [] then map[]
    else var g := groups[|groups| - 1]; ByID(groups[..|groups| - 1])[g.recordID := g]
  }

  lemma {:induction false} ByIDOf(groups: seq<Group>)
    ensures forall id :: id in ByID(groups) ==> ByID(groups)[id] in groups && ByID(groups)[id].recordID == id
    ensures forall g :: g in groups ==> g.recordID in ByID(groups)
  {
    if groups != [] {
      var n := |groups| - 1;
      ByIDOf(groups[..n]);
      forall g | g in groups ensures g.recordID in ByID(groups) {
        if g != groups[n] { assert g in groups[..n]; }
      }
    }
  }

  function Shapes(byID: map<u64, Group>): map<u64, Shape> { map id | id in byID :: byID[id].Shape() }

  predicate Owns(byID: map<u64, Group>, g: Group, r: Rec) {
    var id := RecordID(r.tag, |r.tag|); id in byID && byID[id] == g
  }

  /** A group's own records, end to end. */
  function Share(recs: seq<Rec>, byID: map<u64, Group>, g: Group): bytes {
    if recs == [] then []
    else
      var n := |recs| - 1;
      Share(recs[..n], byID, g) + if Owns(byID, g, recs[n]) then recs[n].body else []
  }

  function Count(recs: seq<Rec>, byID: map<u64, Group>, g: Group): nat {
    if recs == [] then 0
    else
      var n := |recs| - 1;
      Count(recs[..n], byID, g) + if Owns(byID, g, recs[n]) then 1 else 0
  }

  /** The bodies of the records tagged `id`. */
  function Tagged(recs: seq<Rec>, id: u64): seq<bytes> {
    if recs == [] then []
    else
      var n := |recs| - 1;
      Tagged(recs[..n], id) + if RecordID(recs[n].tag, |recs[n].tag|) == id then [recs[n].body] else []
  }

  function Concat(bs: seq<bytes>): bytes {
    if bs == [] then [] else Concat(bs[..|bs| - 1]) + bs[|bs| - 1]
  }

  predicate Distinct(groups: seq<Group>) {
    forall i, j :: 0 <= i < j < |groups| ==> groups[i].recordID != groups[j].recordID
  }

  /** When ids are distinct a group's share is the projection on its id. */
  lemma {:induction false} ShareIsProjection(recs: seq<Rec>, groups: seq<Group>, g: Group)
    requires Distinct(groups) && g in groups
    ensures Share(recs, ByID(groups), g) == Concat(Tagged(recs, g.recordID))
    ensures Count(recs, ByID(groups), g) == |Tagged(recs, g.recordID)|
  {
    if recs != [] {
      var n := |recs| - 1;
      ShareIsProjection(recs[..n], groups, g);
      ByIDOf(groups);
      hide ByID;
      hide RecordID;
      var id := RecordID(recs[n].tag, |recs[n].tag|);
      assert Owns(ByID(groups), g, recs[n]) <==> id == g.recordID;
      var was := Tagged(recs[..n], g.recordID);
      if id == g.recordID {
        var now := was + [recs[n].body];
        assert Tagged(recs, g.recordID) == now;
        assert now[..|now| - 1] == was && now[|now| - 1] == recs[n].body;
      } else {
        assert was + [] == was;
        assert Share(recs[..n], ByID(groups), g) + [] == Share(recs[..n], ByID(groups), g);
      }
    }
  }

  // --- as it is done -----------------------------------------------------------------------------------------

  datatype Step = Halt | NoGroup | Record(g: Group, rec: bytes, pos: nat)

  /** One turn of the walk. */
  method TakeRecord(data: bytes, idSize: nat, byID: map<u64, Group>, pos: nat) returns (r: Step)
    requires pos <= |data|
    ensures match Head(data[pos..], idSize, Shapes(byID))
      case Stop => r == Halt
      case Unknown => r == NoGroup
      case Got(rec, rest) =>
        r.Record? && Owns(byID, r.g, rec) && r.rec == rec.body && |rec.tag| == idSize &&
        r.pos == pos + idSize + |rec.body| && r.pos <= |data| && data[r.pos..] == rest
  {
    ghost var left := data[pos..];
    if pos + idSize > |data| { return Halt; }
    assert left[..idSize] == data[pos..pos + idSize];
    var tag := data[pos..pos + idSize];
    assert tag[..idSize] == left[..idSize];
    var id := RecordID(tag, idSize);
    if id !in byID { return NoGroup; }
    var g := byID[id];
    var at := pos + idSize;
    assert left[idSize..] == data[at..];
    var n := g.recordBytes + g.invalBytes;
    if g.isVLSD {
      if at + 4 > |data| { return Halt; }
      assert data[at..][..4] == data[at..at + 4];
      n := 4 + FromLE(data[at..at + 4]);
    }
    if at + n > |data| { return Halt; }
    assert data[at..][..n] == data[at..at + n] && data[at..][n..] == data[at + n..];
    return Record(g, data[at..at + n], at + n);
  }

  /** `done` has been walked and `data` is still to come. */
  ghost predicate Walking(whole: Walk, done: seq<Rec>, data: bytes, idSize: nat, shapes: map<u64, Shape>)
    requires idSize > 0
  {
    var w := Walked(data, idSize, shapes);
    whole == Walk(done + w.recs, w.ok)
  }

  lemma WalkingOn(whole: Walk, done: seq<Rec>, data: bytes, idSize: nat, shapes: map<u64, Shape>)
    requires idSize > 0 && Walking(whole, done, data, idSize, shapes)
    ensures match Head(data, idSize, shapes)
      case Stop => whole == Walk(done, true)
      case Unknown => whole.ok == false
      case Got(rec, rest) => Walking(whole, done + [rec], rest, idSize, shapes)
  {
    hide Head;
    match Head(data, idSize, shapes) {
      case Stop => assert done + [] == done;
      case Unknown =>
      case Got(rec, rest) =>
        var w := Walked(rest, idSize, shapes);
        assert done + ([rec] + w.recs) == (done + [rec]) + w.recs;
    }
  }

  lemma WalkingStart(data: bytes, idSize: nat, shapes: map<u64, Shape>)
    requires idSize > 0
    ensures Walking(Walked(data, idSize, shapes), [], data, idSize, shapes)
  {
    var w := Walked(data, idSize, shapes);
    assert [] + w.recs == w.recs;
  }

  /** The first walk adds up each group's bytes. */
  ghost predicate Sized(sizes: map<Group, nat>, recs: seq<Rec>, byID: map<u64, Group>) {
    (forall g :: g in sizes ==> g.recordID in byID && byID[g.recordID] == g) &&
    forall id :: id in byID ==> SizedAt(sizes, recs, byID, byID[id])
  }

  predicate SizedAt(sizes: map<Group, nat>, recs: seq<Rec>, byID: map<u64, Group>, g: Group) {
    (g in sizes <==> Count(recs, byID, g) > 0) && (g in sizes ==> sizes[g] == |Share(recs, byID, g)|)
  }

  /** Every group is filed under its own id. */
  predicate Filed(byID: map<u64, Group>) { forall id :: id in byID ==> byID[id].recordID == id }

  lemma SizedMore(sizes: map<Group, nat>, recs: seq<Rec>, byID: map<u64, Group>, r: Rec, g: Group)
    requires Filed(byID) && Sized(sizes, recs, byID) && Owns(byID, g, r)
    ensures Sized(sizes[g := (if g in sizes then sizes[g] else 0) + |r.body|], recs + [r], byID)
  {
    var now := sizes[g := (if g in sizes then sizes[g] else 0) + |r.body|];
    NoShare(recs, byID, g);
    forall id | id in byID ensures SizedAt(now, recs + [r], byID, byID[id]) {
      assert SizedAt(sizes, recs, byID, byID[id]);
      ShareMore(recs, byID, r, byID[id]);
    }
  }

  lemma ShareMore(recs: seq<Rec>, byID: map<u64, Group>, r: Rec, g: Group)
    ensures Share(recs + [r], byID, g) == Share(recs, byID, g) + (if Owns(byID, g, r) then r.body else [])
    ensures Count(recs + [r], byID, g) == Count(recs, byID, g) + (if Owns(byID, g, r) then 1 else 0)
  {
    var n := |recs|;
    assert (recs + [r])[..n] == recs && (recs + [r])[n] == r;
  }

  lemma {:induction false} NoShare(recs: seq<Rec>, byID: map<u64, Group>, g: Group)
    ensures Count(recs, byID, g) == 0 ==> Share(recs, byID, g) == []
  {
    if recs != [] { NoShare(recs[..|recs| - 1], byID, g); }
  }

  method Measure(data: bytes, idSize: nat, byID: map<u64, Group>) returns (ok: bool, sizes: map<Group, nat>)
    requires idSize > 0 && Filed(byID)
    ensures ok == Walked(data, idSize, Shapes(byID)).ok
    ensures ok ==> Sized(sizes, Walked(data, idSize, Shapes(byID)).recs, byID)
  {
    hide Walked;
    hide Walking;
    hide Sized;
    hide Head;
    hide Shapes;
    ghost var whole := Walked(data, idSize, Shapes(byID));
    ghost var done: seq<Rec> := [];
    sizes := map[];
    var pos := 0;
    WalkingStart(data, idSize, Shapes(byID));
    SizedNone(byID);
    assert data[0..] == data;
    while true
      invariant pos <= |data| && Walking(whole, done, data[pos..], idSize, Shapes(byID)) && Sized(sizes, done, byID)
      decreases |data| - pos
    {
      WalkingOn(whole, done, data[pos..], idSize, Shapes(byID));
      var step := TakeRecord(data, idSize, byID, pos);
      match step {
        case Halt => return true, sizes;
        case NoGroup => return false, sizes;
        case Record(g, rec, next) =>
          ghost var r := Head(data[pos..], idSize, Shapes(byID)).rec;
          SizedMore(sizes, done, byID, r, g);
          sizes := sizes[g := (if g in sizes then sizes[g] else 0) + |rec|];
          done := done + [r];
          pos := next;
      }
    }
  }

  lemma SizedNone(byID: map<u64, Group>)
    ensures Sized(map[], [], byID)
  {
  }

  /** What a group holds once the records `recs` are in it. */
  ghost predicate Filled(g: Group, data: bytes, records: int, was: bytes, counted: int, recs: seq<Rec>, byID: map<u64, Group>) {
    data == was + Share(recs, byID, g) && records == counted + Count(recs, byID, g)
  }

  lemma FilledNone(g: Group, data: bytes, records: int, byID: map<u64, Group>)
    ensures Filled(g, data, records, data, records, [], byID)
  {
    assert data + [] == data;
  }

  lemma FilledMore(g: Group, data: bytes, records: int, was: bytes, counted: int, recs: seq<Rec>, byID: map<u64, Group>, r: Rec)
    requires Filled(g, data, records, was, counted, recs, byID)
    ensures if Owns(byID, g, r) then Filled(g, data + r.body, records + 1, was, counted, recs + [r], byID)
      else Filled(g, data, records, was, counted, recs + [r], byID)
  {
    ShareMore(recs, byID, r, g);
    assert Share(recs, byID, g) + [] == Share(recs, byID, g);
    assert (was + Share(recs, byID, g)) + r.body == was + (Share(recs, byID, g) + r.body);
  }

  /** The second walk hands each record to its group. */
  method Fill(data: bytes, idSize: nat, byID: map<u64, Group>)
    requires idSize > 0 && Walked(data, idSize, Shapes(byID)).ok
    modifies set id | id in byID :: byID[id]
    ensures forall id :: id in byID ==>
      Filled(byID[id], byID[id].data, byID[id].records, old(byID[id].data), old(byID[id].records),
             Walked(data, idSize, Shapes(byID)).recs, byID)
    ensures forall id :: id in byID ==> byID[id].room == old(byID[id].room)
  {
    hide Walked;
    hide Walking;
    hide Filled;
    hide Head;
    hide Shapes;
    hide RecordID;
    ghost var whole := Walked(data, idSize, Shapes(byID));
    ghost var done: seq<Rec> := [];
    var pos := 0;
    WalkingStart(data, idSize, Shapes(byID));
    assert data[0..] == data;
    forall id | id in byID
      ensures Filled(byID[id], byID[id].data, byID[id].records, old(byID[id].data), old(byID[id].records), [], byID)
    {
      FilledNone(byID[id], byID[id].data, byID[id].records, byID);
    }
    while true
      invariant pos <= |data| && Walking(whole, done, data[pos..], idSize, Shapes(byID))
      invariant forall id :: id in byID ==>
        Filled(byID[id], byID[id].data, byID[id].records, old(byID[id].data), old(byID[id].records), done, byID)
      invariant forall id :: id in byID ==> byID[id].room == old(byID[id].room)
      decreases |data| - pos
    {
      WalkingOn(whole, done, data[pos..], idSize, Shapes(byID));
      var step := TakeRecord(data, idSize, byID, pos);
      match step {
        case Halt => return;
        case NoGroup => return;
        case Record(g, rec, next) =>
          ghost var r := Head(data[pos..], idSize, Shapes(byID)).rec;
          forall id | id in byID
            ensures if byID[id] == g then
                Filled(g, g.data + r.body, g.records + 1, old(byID[id].data), old(byID[id].records), done + [r], byID)
              else
                Filled(byID[id], byID[id].data, byID[id].records, old(byID[id].data), old(byID[id].records), done + [r], byID)
          {
            OwnsOne(byID, g, byID[id], r);
            FilledMore(byID[id], byID[id].data, byID[id].records, old(byID[id].data), old(byID[id].records), done, byID, r);
          }
          g.data := g.data + rec;
          g.records := g.records + 1;
          done := done + [r];
          pos := next;
      }
    }
  }

  lemma OwnsOne(byID: map<u64, Group>, g: Group, h: Group, r: Rec)
    requires Owns(byID, g, r)
    ensures Owns(byID, h, r) <==> g == h
  {
  }

  /** What splitting a block does to one group: one that occurs in it holds its own
      records and no more, in a buffer that was made for exactly them; one that does
      not is left as it was. */
  ghost predicate Split(g: Group, data: bytes, room: nat, records: int, data0: bytes, room0: nat, records0: int,
                        recs: seq<Rec>, byID: map<u64, Group>) {
    if Count(recs, byID, g) > 0 then data == Share(recs, byID, g) && |data| == room && records == Count(recs, byID, g)
    else data == data0 && room == room0 && records == records0
  }

  method IDMap(groups: seq<Group>) returns (byID: map<u64, Group>)
    ensures byID == ByID(groups)
  {
    byID := map[];
    for i := 0 to |groups|
      invariant byID == ByID(groups[..i])
    {
      assert groups[..i + 1][..i] == groups[..i];
      byID := byID[groups[i].recordID := groups[i]];
    }
    assert groups[..|groups|] == groups;
  }

  /** Gives each group that occurs an empty buffer of the size measured. */
  method Prepare(sizes: map<Group, nat>)
    modifies sizes.Keys
    ensures forall g :: g in sizes ==> g.data == [] && g.records == 0 && g.room == sizes[g]
  {
    var left := sizes.Keys;
    while left != {}
      invariant left <= sizes.Keys
      invariant forall g :: g in sizes && g !in left ==> g.data == [] && g.records == 0 && g.room == sizes[g]
      decreases |left|
    {
      var g :| g in left;
      g.data := [];
      g.room := sizes[g];
      g.records := 0;
      left := left - {g};
    }
  }

  /** Splits a block among its groups. Nothing changes when it does not walk. */
  method Demux(data: bytes, idSize: nat, groups: seq<Group>) returns (ok: bool)
    requires idSize > 0
    modifies set g | g in groups
    ensures ok == Walked(data, idSize, Shapes(ByID(groups))).ok
    ensures !ok ==> forall g :: g in groups ==> unchanged(g)
    ensures ok ==> forall g :: g in groups ==>
      Split(g, g.data, g.room, g.records, old(g.data), old(g.room), old(g.records),
            Walked(data, idSize, Shapes(ByID(groups))).recs, ByID(groups))
  {
    hide Walked;
    hide Sized;
    hide SizedAt;
    hide Shapes;
    hide ByID;
    hide Filled;
    hide Split;
    hide Filed;
    var byID := IDMap(groups);
    ByIDOf(groups);
    FiledOf(groups);
    ghost var recs := Walked(data, idSize, Shapes(byID)).recs;
    var walks, sizes := Measure(data, idSize, byID);
    if !walks { return false; }
    SizedOf(sizes, recs, byID);
    Prepare(sizes);
    label Prepared:
    Fill(data, idSize, byID);
    forall g | g in groups
      ensures Split(g, g.data, g.room, g.records, old(g.data), old(g.room), old(g.records), recs, byID)
    {
      if g.recordID in byID && byID[g.recordID] == g {
        SplitOf(g, g.data, g.room, g.records, old(g.data), old(g.room), old(g.records), sizes, recs, byID);
      } else {
        Shadowed(recs, byID, g);
        SplitNot(g, g.data, g.room, g.records, recs, byID);
      }
    }
    return true;
  }

  lemma FiledOf(groups: seq<Group>)
    ensures Filed(ByID(groups))
  {
    ByIDOf(groups);
  }

  lemma SizedOf(sizes: map<Group, nat>, recs: seq<Rec>, byID: map<u64, Group>)
    requires Sized(sizes, recs, byID)
    ensures forall g :: g in sizes ==> g.recordID in byID && byID[g.recordID] == g
  {
  }

  /** A group whose id a later one took gets nothing. */
  lemma {:induction false} Shadowed(recs: seq<Rec>, byID: map<u64, Group>, g: Group)
    requires Filed(byID) && !(g.recordID in byID && byID[g.recordID] == g)
    ensures Count(recs, byID, g) == 0
  {
    if recs != [] { Shadowed(recs[..|recs| - 1], byID, g); }
  }

  lemma SplitNot(g: Group, data: bytes, room: nat, records: int, recs: seq<Rec>, byID: map<u64, Group>)
    requires Count(recs, byID, g) == 0
    ensures Split(g, data, room, records, data, room, records, recs, byID)
  {
  }

  lemma SplitOf(g: Group, data: bytes, room: nat, records: int, data0: bytes, room0: nat, records0: int,
                sizes: map<Group, nat>, recs: seq<Rec>, byID: map<u64, Group>)
    requires g.recordID in byID && byID[g.recordID] == g && Sized(sizes, recs, byID)
    requires if g in sizes then room == sizes[g] && Filled(g, data, records, [], 0, recs, byID)
      else room == room0 && Filled(g, data, records, data0, records0, recs, byID)
    ensures Split(g, data, room, records, data0, room0, records0, recs, byID)
  {
    hide Share;
    hide Count;
    assert SizedAt(sizes, recs, byID, byID[g.recordID]);
    NoShare(recs, byID, g);
    assert [] + Share(recs, byID, g) == Share(recs, byID, g) && data0 + [] == data0;
  }

  /** A block of whole records, cut anywhere: each group whose id occurs before the
      cut gets exactly its records before the cut, in order. */
  lemma CutProjects(recs: seq<Rec>, cut: nat, idSize: nat, groups: seq<Group>, g: Group)
    requires idSize > 0 && Distinct(groups) && g in groups && cut <= |Interleaved(recs)|
    requires forall r :: r in recs ==> Whole(r, idSize, Shapes(ByID(groups)))
    ensures var w := Walked(Interleaved(recs)[..cut], idSize, Shapes(ByID(groups)));
      var mine := Tagged(recs[..Before(recs, cut)], g.recordID);
      w.ok && Share(w.recs, ByID(groups), g) == Concat(mine) && Count(w.recs, ByID(groups), g) == |mine|
  {
    CutWalk(recs, cut, idSize, Shapes(ByID(groups)));
    ShareIsProjection(recs[..Before(recs, cut)], groups, g);
  }

  // --- what a logger writes ------------------------------------------------------------------------------

  /** A record as it is logged: whose it is, and its bytes. */
  datatype Item = Item(id: u64, body: bytes)

  /** The id in its bytes, low one first, and the record behind it. */
  function Logged(items: seq<Item>, idSize: nat): seq<Rec> {
    seq(|items|, i requires 0 <= i < |items| => Rec(LE(idSize, items[i].id), items[i].body))
  }

  predicate IDFits(it: Item, idSize: nat) { idSize in {1, 2, 4, 8} && it.id < Pow256(idSize) }

  /** The id fits its bytes and a group has it; a fixed record is of the group's size, and
      any other says its own. */
  ghost predicate Loggable(it: Item, idSize: nat, groups: seq<Group>) {
    IDFits(it, idSize) &&
    exists g :: g in groups && g.recordID == it.id &&
      if g.isVLSD then |it.body| >= 4 && FromLE(it.body[..4]) == |it.body| - 4 else |it.body| == g.Size()
  }

  /** What was logged for one group. */
  function Own(items: seq<Item>, id: u64): seq<bytes> {
    if items == [] then []
    else
      var n := |items| - 1;
      Own(items[..n], id) + if items[n].id == id then [items[n].body] else []
  }

  lemma TagBack(idSize: nat, id: u64)
    requires idSize in {1, 2, 4, 8} && id < Pow256(idSize)
    ensures |LE(idSize, id)| == idSize && RecordID(LE(idSize, id), idSize) == id
  {
    StoreLoad(idSize, id);
    assert LE(idSize, id)[..idSize] == LE(idSize, id);
  }

  lemma LoggedWhole(it: Item, idSize: nat, groups: seq<Group>)
    requires Loggable(it, idSize, groups) && Distinct(groups)
    ensures Whole(Rec(LE(idSize, it.id), it.body), idSize, Shapes(ByID(groups)))
  {
    TagBack(idSize, it.id);
    var g :| g in groups && g.recordID == it.id &&
      if g.isVLSD then |it.body| >= 4 && FromLE(it.body[..4]) == |it.body| - 4 else |it.body| == g.Size();
    ByIDOf(groups);
    OnlyGroup(groups, g);
    hide ByID;
    hide RecordID;
    hide LE;
    hide Pow256;
  }

  lemma OnlyGroup(groups: seq<Group>, g: Group)
    requires Distinct(groups) && g in groups
    ensures g.recordID in ByID(groups) && ByID(groups)[g.recordID] == g
  {
    ByIDOf(groups);
    hide ByID;
    var h := ByID(groups)[g.recordID];
    var i :| 0 <= i < |groups| && groups[i] == g;
    var j :| 0 <= j < |groups| && groups[j] == h;
  }

  lemma {:induction false} LoggedOwn(items: seq<Item>, idSize: nat, id: u64)
    requires forall it :: it in items ==> IDFits(it, idSize)
    ensures Tagged(Logged(items, idSize), id) == Own(items, id)
  {
    hide RecordID;
    hide LE;
    hide IDFits;
    if items != [] {
      var n := |items| - 1;
      LoggedOwn(items[..n], idSize, id);
      assert Logged(items, idSize)[..n] == Logged(items[..n], idSize);
      assert items[n] in items;
      ItemTag(items[n], idSize);
    }
  }

  lemma ItemTag(it: Item, idSize: nat)
    requires IDFits(it, idSize)
    ensures |LE(idSize, it.id)| == idSize > 0 && RecordID(LE(idSize, it.id), idSize) == it.id
  {
    TagBack(idSize, it.id);
    hide LE;
    hide RecordID;
    hide Pow256;
  }

  /** Whatever a logger interleaves, cut anywhere: each group gets exactly its own records
      before the cut, in order. */
  lemma LoggedBack(items: seq<Item>, cut: nat, idSize: nat, groups: seq<Group>, g: Group) returns (k: nat)
    requires Distinct(groups) && g in groups && idSize in {1, 2, 4, 8}
    requires forall it :: it in items ==> Loggable(it, idSize, groups)
    requires cut <= |Interleaved(Logged(items, idSize))|
    ensures k <= |items| && |Interleaved(Logged(items[..k], idSize))| <= cut
    ensures k < |items| ==> cut < |Interleaved(Logged(items[..k + 1], idSize))|
    ensures var w := Walked(Interleaved(Logged(items, idSize))[..cut], idSize, Shapes(ByID(groups)));
      w.ok && Share(w.recs, ByID(groups), g) == Concat(Own(items[..k], g.recordID)) &&
      Count(w.recs, ByID(groups), g) == |Own(items[..k], g.recordID)|
  {
    hide *;
    var recs := Logged(items, idSize);
    LoggedAll(items, idSize, groups);
    CutProjects(recs, cut, idSize, groups, g);
    k := Before(recs, cut);
    BeforeIs(recs, cut);
    LoggedCut(items, idSize, k);
    LoggedOwn(items[..k], idSize, g.recordID);
  }

  lemma LoggedAll(items: seq<Item>, idSize: nat, groups: seq<Group>)
    requires Distinct(groups) && idSize > 0 && forall it :: it in items ==> Loggable(it, idSize, groups)
    ensures |Logged(items, idSize)| == |items|
    ensures forall r :: r in Logged(items, idSize) ==> Whole(r, idSize, Shapes(ByID(groups))) && |r.tag| > 0
    ensures forall k, it :: 0 <= k <= |items| && it in items[..k] ==> IDFits(it, idSize)
  {
    hide Whole;
    hide Loggable;
    hide ByID;
    hide Shapes;
    hide IDFits;
    hide LE;
    var recs := Logged(items, idSize);
    forall r | r in recs ensures Whole(r, idSize, Shapes(ByID(groups))) && |r.tag| > 0 {
      var i :| 0 <= i < |recs| && recs[i] == r;
      assert items[i] in items;
      LoggedWhole(items[i], idSize, groups);
      LoggableID(items[i], idSize, groups);
      ItemTag(items[i], idSize);
    }
    forall k, it | 0 <= k <= |items| && it in items[..k] ensures IDFits(it, idSize) {
      assert it in items;
      LoggableID(it, idSize, groups);
    }
  }

  lemma LoggedCut(items: seq<Item>, idSize: nat, k: nat)
    requires k <= |items|
    ensures Logged(items, idSize)[..k] == Logged(items[..k], idSize)
    ensures k < |items| ==> Logged(items, idSize)[..k + 1] == Logged(items[..k + 1], idSize)
  {
    hide LE;
  }

  lemma LoggableID(it: Item, idSize: nat, groups: seq<Group>)
    requires Loggable(it, idSize, groups)
    ensures IDFits(it, idSize)
  {
  }

  // --- variable-length samples ---------------------------------------------------------------------------------

  /** Faults is a slice past the end of what there is. */
  datatype Sample = Found(value: bytes) | Refused | Faults

  /** The sample at an offset; the bound on the offset is checked in 64 bits. */
  function SampleAt(stream: bytes, off: nat): Sample {
    if (off + 4) % TWO64 > |stream| then Refused
    else if off + 4 > |stream| then Faults
    else
      var n := FromLE(stream[off..off + 4]);
      if off + 4 + n > |stream| then Refused else Found(stream[off + 4..off + 4 + n])
  }

  /** A counted record's body. */
  function CountedBody(v: bytes): bytes { LE(4, |v|) + v }

  function CountedBodies(vs: seq<bytes>): seq<bytes> { seq(|vs|, i requires 0 <= i < |vs| => CountedBody(vs[i])) }

  /** Where sample `k` of a stream starts. */
  function OffsetOf(bodies: seq<bytes>, k: nat): nat
    requires k <= |bodies|
  {
    |Concat(bodies[..k])|
  }

  lemma {:induction false} ConcatCut(bodies: seq<bytes>, k: nat)
    requires k < |bodies|
    ensures OffsetOf(bodies, k) + |bodies[k]| <= |Concat(bodies)|
    ensures Concat(bodies)[OffsetOf(bodies, k)..OffsetOf(bodies, k) + |bodies[k]|] == bodies[k]
    decreases |bodies|
  {
    var n := |bodies| - 1;
    if k == n {
    } else {
      ConcatCut(bodies[..n], k);
      assert bodies[..n][..k] == bodies[..k];
      var a, b := OffsetOf(bodies, k), OffsetOf(bodies, k) + |bodies[k]|;
      assert Concat(bodies)[a..b] == Concat(bodies[..n])[a..b];
    }
  }

  /** Read at the offset where it was stored, a sample is that sample. */
  lemma SampleBack(vs: seq<bytes>, k: nat)
    requires k < |vs| && |vs[k]| < TWO32 && |Concat(CountedBodies(vs))| < TWO64 - 4
    ensures SampleAt(Concat(CountedBodies(vs)), OffsetOf(CountedBodies(vs), k)) == Found(vs[k])
  {
    var bodies := CountedBodies(vs);
    var stream, off, n := Concat(bodies), OffsetOf(bodies, k), |vs[k]|;
    hide Concat;
    hide LE;
    ConcatCut(bodies, k);
    var body := stream[off..off + 4 + n];
    assert body == LE(4, n) + vs[k];
    assert stream[off..off + 4] == body[..4] && stream[off + 4..off + 4 + n] == body[4..];
    CountedBack(body, vs[k]);
    SampleHere(stream, off, vs[k]);
  }

  lemma CountedBack(body: bytes, v: bytes)
    requires |v| < TWO32 && body == LE(4, |v|) + v
    ensures |body| == 4 + |v| && FromLE(body[..4]) == |v| && body[4..] == v
  {
    WidthBounds();
    StoreLoad(4, |v|);
  }

  lemma SampleHere(stream: bytes, off: nat, v: bytes)
    requires off + 4 + |v| <= |stream| < TWO64 - 4
    requires FromLE(stream[off..off + 4]) == |v| && stream[off + 4..off + 4 + |v|] == v
    ensures SampleAt(stream, off) == Found(v)
  {
    hide FromLE;
  }

  /** Reading faults exactly at the last four offsets a stored number can name, when what
      is left of them after the sum wraps is within the stream. */
  lemma FaultsExactly(stream: bytes, off: nat)
    requires off < TWO64 && |stream| < TWO64 - 4
    ensures SampleAt(stream, off).Faults? <==> off >= TWO64 - 4 && off + 4 - TWO64 <= |stream|
  {
  }

  /** A record can store such an offset: the eight bytes FC FF FF FF FF FF FF FF, read
      against no signal data at all. */
  lemma FaultReached()
    ensures Pointed(LE(8, TWO64 - 4), 0, 8, 0, []) == Faults
  {
    WidthBounds();
    StoreLoad(8, TWO64 - 4);
    var data := LE(8, TWO64 - 4);
    assert data[0..8] == data;
    FaultsExactly([], TWO64 - 4);
  }

  /** How many records a buffer of `bytes` holds, by its size and by what the file
      says. */
  function RecordCount(length: nat, size: nat, cycles: int): (r: nat)
    ensures r * size <= length
    ensures size > 0 ==> (r == cycles || length < (r + 1) * size)
    ensures cycles > 0 ==> r <= cycles
  {
    if size <= 0 then 0
    else
      var have := length / size;
      assert have * size <= length < (have + 1) * size by { Quotient(length, size); }
      if cycles > 0 && cycles < have then
        assert cycles * size <= have * size by { Times(cycles, have, size); }
        cycles
      else have
  }

  lemma Quotient(n: nat, d: nat)
    requires d > 0
    ensures (n / d) * d <= n < (n / d + 1) * d
  {
  }

  lemma Times(a: int, b: int, c: nat)
    requires a <= b
    ensures a * c <= b * c
  {
  }

  /** Failed is an error the caller sees; Faulted a slice past the end of what there is,
      or a list of fewer than no samples. */
  datatype Resolved = Samples(values: seq<bytes>) | Failed | Faulted

  /** What the record that starts at `at` points at. */
  function Pointed(data: bytes, at: nat, size: nat, byteOffset: nat, stream: bytes): Sample {
    if at > |data| then Faults
    else if byteOffset + 8 > size then Refused
    else if at + byteOffset + 8 > |data| then Faults
    else
      FromLEBound(data[at + byteOffset..at + byteOffset + 8]);
      WidthBounds();
      SampleAt(stream, FromLE(data[at + byteOffset..at + byteOffset + 8]))
  }

  predicate PointsAt(data: bytes, i: nat, size: nat, byteOffset: nat, stream: bytes, s: Sample) {
    Pointed(data, i * size, size, byteOffset, stream) == s
  }

  predicate Finds(data: bytes, i: nat, size: nat, byteOffset: nat, stream: bytes) {
    Pointed(data, i * size, size, byteOffset, stream).Found?
  }

  /** Of the records that point at no sample, the first comes out as `s`. */
  ghost predicate FirstBad(g: Group, byteOffset: nat, stream: bytes, s: Sample)
    reads g
  {
    exists i :: 0 <= i < g.records && PointsAt(g.data, i, g.Size(), byteOffset, stream, s)
             && forall j :: 0 <= j < i ==> Finds(g.data, j, g.Size(), byteOffset, stream)
  }

  lemma FirstBadOne(g: Group, byteOffset: nat, stream: bytes)
    ensures !(FirstBad(g, byteOffset, stream, Refused) && FirstBad(g, byteOffset, stream, Faults))
    ensures FirstBad(g, byteOffset, stream, Refused) || FirstBad(g, byteOffset, stream, Faults) ==>
      exists i :: 0 <= i < g.records && !Finds(g.data, i, g.Size(), byteOffset, stream)
  {
    hide Pointed;
    forall s, i | (s == Refused || s == Faults) && PointsAt(g.data, i, g.Size(), byteOffset, stream, s)
      ensures !Finds(g.data, i, g.Size(), byteOffset, stream)
    {
    }
  }

  /** Every record's stored offset turned into the sample it points at; or a failure or
      a fault, because of the first that points at none. */
  method Resolve(g: Group, byteOffset: nat, bitOffset: nat, bitCount: nat, stream: bytes) returns (r: Resolved)
    ensures r.Samples? <==>
      bitCount == 64 && bitOffset == 0 && g.records >= 0 &&
      forall i :: 0 <= i < g.records ==> Finds(g.data, i, g.Size(), byteOffset, stream)
    ensures r.Samples? ==> |r.values| == g.records && forall i :: 0 <= i < g.records ==>
      PointsAt(g.data, i, g.Size(), byteOffset, stream, Found(r.values[i]))
    ensures r.Failed? <==>
      bitCount != 64 || bitOffset != 0 || (g.records >= 0 && FirstBad(g, byteOffset, stream, Refused))
    ensures r.Faulted? <==>
      bitCount == 64 && bitOffset == 0 && (g.records < 0 || FirstBad(g, byteOffset, stream, Faults))
  {
    hide SampleAt;
    hide FirstBad;
    FirstBadOne(g, byteOffset, stream);
    if bitCount != 64 || bitOffset != 0 { return Failed; }
    if g.records < 0 { return Faulted; }
    var size := g.recordBytes + g.invalBytes;
    var values: seq<bytes> := [];
    for i := 0 to g.records
      invariant |values| == i
      invariant forall j :: 0 <= j < i ==> PointsAt(g.data, j, size, byteOffset, stream, Found(values[j]))
      invariant forall j :: 0 <= j < i ==> Finds(g.data, j, size, byteOffset, stream)
    {
      var at: nat := i * size;
      if at > |g.data| {
        FirstBadAt(g, byteOffset, stream, i, Faults);
        return Faulted;
      }
      if byteOffset + 8 > size {
        FirstBadAt(g, byteOffset, stream, i, Refused);
        return Failed;
      }
      if at + byteOffset + 8 > |g.data| {
        FirstBadAt(g, byteOffset, stream, i, Faults);
        return Faulted;
      }
      var stored := g.data[at + byteOffset..at + byteOffset + 8];
      FromLEBound(stored);
      WidthBounds();
      var s := SampleAt(stream, FromLE(stored));
      assert PointsAt(g.data, i, size, byteOffset, stream, s);
      match s {
        case Refused =>
          FirstBadAt(g, byteOffset, stream, i, s);
          return Failed;
        case Faults =>
          FirstBadAt(g, byteOffset, stream, i, s);
          return Faulted;
        case Found(v) =>
          assert Finds(g.data, i, size, byteOffset, stream);
          values := values + [v];
      }
    }
    return Samples(values);
  }

  lemma FirstBadAt(g: Group, byteOffset: nat, stream: bytes, i: nat, s: Sample)
    requires i < g.records && PointsAt(g.data, i, g.Size(), byteOffset, stream, s)
    requires forall j :: 0 <= j < i ==> Finds(g.data, j, g.Size(), byteOffset, stream)
    ensures FirstBad(g, byteOffset, stream, s)
  {
    hide Pointed;
  }

  // --- whether a group's records are there ---------------------------------------------------------------------

  /** Record `i` of a group; nothing is a slice past the end. */
  function RecordAt(data: bytes, i: nat, size: nat): Option<bytes> {
    if (i + 1) * size > |data| then None
    else
      Times(i, i + 1, size);
      Some(data[i * size..(i + 1) * size])
  }

  /** Every record the group counts can be had exactly when its data is long enough for
      all of them. */
  lemma RecordsThere(data: bytes, records: int, size: nat)
    ensures (forall i: nat :: i < records ==> RecordAt(data, i, size).Some?) <==> records * size <= |data|
  {
    if records > 0 {
      assert RecordAt(data, records - 1, size).Some? <==> records * size <= |data|;
      forall i: nat | i < records ensures records * size <= |data| ==> RecordAt(data, i, size).Some? {
        Times(i + 1, records, size);
      }
    } else {
      Times(0, -records, size);
    }
  }

  /** The record's stored offset lies past the group's data. */
  predicate Short(data: bytes, i: nat, size: nat, byteOffset: nat) {
    i * size > |data| || (byteOffset + 8 <= size && i * size + byteOffset + 8 > |data|)
  }

  /** A group whose data is that of its records, or which has none at all, is resolved
      without a slice past its data exactly when it is what it promises. */
  lemma ResolvedInside(data: bytes, records: nat, size: nat, byteOffset: nat)
    requires records > 0 && byteOffset + 8 <= size && (data == [] || |data| == records * size)
    ensures (forall i: nat :: i < records ==> !Short(data, i, size, byteOffset)) <==> |data| == records * size
  {
    Times(1, records, size);
    if data == [] {
      assert Short(data, 0, size, byteOffset);
    } else {
      forall i: nat | i < records ensures !Short(data, i, size, byteOffset) {
        Times(i + 1, records, size);
        assert (i + 1) * size == i * size + size;
      }
    }
  }

  /** Where the data is long enough, only the stored offset can make a record fault. */
  lemma FaultsInside(data: bytes, i: nat, size: nat, byteOffset: nat, stream: bytes)
    requires !Short(data, i, size, byteOffset) && |stream| < TWO64 - 4
    ensures PointsAt(data, i, size, byteOffset, stream, Faults) <==>
      byteOffset + 8 <= size &&
      var off := FromLE(data[i * size + byteOffset..i * size + byteOffset + 8]);
      off >= TWO64 - 4 && off + 4 - TWO64 <= |stream|
  {
    if byteOffset + 8 <= size {
      var stored := data[i * size + byteOffset..i * size + byteOffset + 8];
      FromLEBound(stored);
      WidthBounds();
      FaultsExactly(stream, FromLE(stored));
    }
  }

  /** A group that counts records and has no data faults at its first record, when a
      record would have room for an offset. */
  lemma NoDataFaults(g: Group, byteOffset: nat, stream: bytes)
    requires g.data == [] && g.records > 0
    ensures FirstBad(g, byteOffset, stream, Faults) <==> byteOffset + 8 <= g.Size()
  {
    if byteOffset + 8 <= g.Size() {
      assert PointsAt(g.data, 0, g.Size(), byteOffset, stream, Faults);
    } else {
      assert PointsAt(g.data, 0, g.Size(), byteOffset, stream, Refused);
      FirstBadAt(g, byteOffset, stream, 0, Refused);
      FirstBadOne(g, byteOffset, stream);
    }
  }

  // --- a data group, as it is read ------------------------------------------------------------------------------

  /** A fixed group's share is as long as so many of its records. */
  lemma {:induction false} ShareSize(recs: seq<Rec>, byID: map<u64, Group>, g: Group, idSize: nat)
    requires !g.isVLSD && forall r :: r in recs ==> Whole(r, idSize, Shapes(byID))
    ensures |Share(recs, byID, g)| == Count(recs, byID, g) * g.Size()
  {
    hide Whole;
    hide Owns;
    hide Shapes;
    if recs != [] {
      var n := |recs| - 1;
      ShareSize(recs[..n], byID, g, idSize);
      OwnedSize(recs[n], byID, g, idSize);
      OneMore(Count(recs[..n], byID, g), g.Size());
    }
  }

  lemma OneMore(k: nat, size: nat)
    ensures (k + 1) * size == k * size + size
  {
  }

  lemma OwnedSize(r: Rec, byID: map<u64, Group>, g: Group, idSize: nat)
    requires !g.isVLSD && Whole(r, idSize, Shapes(byID))
    ensures Owns(byID, g, r) ==> |r.body| == g.Size()
  {
    hide RecordID;
  }

  /** A group is given records: the only group's of a sorted block, its own of an
      unsorted one. */
  ghost predicate Given(g: Group, data: bytes, idSize: nat, groups: seq<Group>) {
    if idSize == 0 then groups != [] && g == groups[0]
    else Count(Walked(data, idSize, Shapes(ByID(groups))).recs, ByID(groups), g) > 0
  }

  lemma GivenExact(g: Group, data: bytes, room: nat, records: int, room0: nat, records0: int,
                   block: bytes, idSize: nat, groups: seq<Group>)
    requires idSize > 0 && !g.isVLSD
    requires Split(g, data, room, records, [], room0, records0, Walked(block, idSize, Shapes(ByID(groups))).recs, ByID(groups))
    ensures |data| == records * g.Size() <==> Given(g, block, idSize, groups) || records0 * g.Size() == 0
    ensures records * g.Size() <= |data| <==> Given(g, block, idSize, groups) || records0 * g.Size() <= 0
  {
    hide Whole;
    hide Head;
    hide Share;
    hide Count;
    hide Shapes;
    hide ByID;
    var shapes := Shapes(ByID(groups));
    WalkCovers(block, idSize, shapes);
    hide Walked;
    ShareSize(Walked(block, idSize, shapes).recs, ByID(groups), g, idSize);
  }

  /** Gives a block to the groups it is for. A fixed group that had no data holds what it
      promises exactly when it was given records or its declared ones come to nothing,
      and has all the records it counts exactly when it was given some or they come to no
      more. */
  method Settle(data: bytes, idSize: nat, groups: seq<Group>) returns (ok: bool)
    modifies set g | g in groups
    ensures ok <==> idSize == 0 || Walked(data, idSize, Shapes(ByID(groups))).ok
    ensures idSize == 0 ==> forall g :: g in groups ==>
      if g == groups[0] then
        g.records == RecordCount(|data|, g.Size(), old(g.records)) && g.data == data[..g.records * g.Size()]
      else unchanged(g)
    ensures idSize > 0 && !ok ==> forall g :: g in groups ==> unchanged(g)
    ensures idSize > 0 && ok ==> forall g :: g in groups ==>
      Split(g, g.data, g.room, g.records, old(g.data), old(g.room), old(g.records),
            Walked(data, idSize, Shapes(ByID(groups))).recs, ByID(groups))
    ensures ok ==> forall g :: g in groups && !g.isVLSD && old(g.data) == [] ==>
      (g.Exact() <==> Given(g, data, idSize, groups) || old(g.records) * g.Size() == 0) &&
      (g.records * g.Size() <= |g.data| <==> Given(g, data, idSize, groups) || old(g.records) * g.Size() <= 0)
  {
    if idSize == 0 {
      if |groups| > 0 {
        var g := groups[0];
        var n := RecordCount(|data|, g.Size(), g.records);
        g.data := data;
        g.room := |data|;
        g.records := n;
        g.data := g.data[..n * g.Size()];
      }
      return true;
    }
    hide Walked;
    hide Split;
    hide Given;
    hide Shapes;
    hide ByID;
    ok := Demux(data, idSize, groups);
    if ok {
      forall g | g in groups && !g.isVLSD && old(g.data) == []
        ensures g.Exact() <==> Given(g, data, idSize, groups) || old(g.records) * g.Size() == 0
        ensures g.records * g.Size() <= |g.data| <==> Given(g, data, idSize, groups) || old(g.records) * g.Size() <= 0
      {
        GivenExact(g, g.data, g.room, g.records, old(g.room), old(g.records), data, idSize, groups);
      }
    }
  }

  /** A group of five records of eight bytes and a block in which it does not occur: it
      keeps the count with nothing to count, its first record cannot be had, and its
      samples cannot be resolved. */
  method Idle() returns (g: Group, ok: bool, r: Resolved)
    ensures ok && !g.isVLSD && g.Size() == 8 && g.records == 5 && g.data == []
    ensures !g.Exact() && RecordAt(g.data, 0, g.Size()) == None && r == Faulted
  {
    g := new Group(1, false, 8, 0, 5);
    ok := Settle([], 1, [g]);
    r := Resolve(g, 0, 0, 64, []);
    NoDataFaults(g, 0, []);
  }

  /** A record that stores where one of the counted group's samples starts is resolved
      to that sample. */
  lemma ResolvesCut(vs: seq<bytes>, k: nat, data: bytes, i: nat, size: nat, byteOffset: nat)
    requires k < |vs| && |vs[k]| < TWO32 && |Concat(CountedBodies(vs))| < TWO64 - 4
    requires i * size + size <= |data| && byteOffset + 8 <= size
    requires data[i * size + byteOffset..i * size + byteOffset + 8] == LE(8, OffsetOf(CountedBodies(vs), k))
    ensures PointsAt(data, i, size, byteOffset, Concat(CountedBodies(vs)), Found(vs[k]))
  {
    SampleBack(vs, k);
    ConcatCut(CountedBodies(vs), k);
    hide SampleAt;
    hide Concat;
    WidthBounds();
    StoreLoad(8, OffsetOf(CountedBodies(vs), k));
  }
}
