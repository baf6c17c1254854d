/** What an index shows of the values a segment restates: those the caller marked present,
    each by its own number, where and when they were set. */
module Restored {
  import opened Bytes
  import opened BitOps
  import opened Wire
  import opened Format
  import opened Frames
  import opened Extract
  import opened Records
  import opened Reading
  import opened Stats
  import opened Indexing
  import Access
  import Cells
  import Merging
  import Positions
  import Resuming
  import Sample
  import Tiers
  import Writing

  // --- one restatement -----------------------------------------------------------------------------------

  /** A field of plain bits that is in every record. */
  predicate Plain(s: Schema, f: nat) {
    f < |s.fields| &&
    var fd := s.fields[f];
    !fd.variable && !fd.guarded && 0 < fd.bitWidth <= 64 && fd.bitOffset + fd.bitWidth <= 8 * s.RecordBytes() &&
    (fd.dataType == TYPE_UINT || fd.dataType == TYPE_SINT || (fd.dataType == TYPE_BOOL && fd.bitWidth == 1))
  }

  /** The number its bits stand for, before any conversion. */
  function BitsOf(rec: bytes, fd: Field): Value
    requires fd.bitOffset + fd.bitWidth <= 8 * |rec| && 0 < fd.bitWidth
  {
    var n := FieldValue(rec, fd.bitOffset, fd.bitWidth, fd.bigEndian);
    if fd.dataType == TYPE_UINT then Unsigned(n)
    else if fd.dataType == TYPE_BOOL then Flag(n == 1)
    else if n < Pow2(fd.bitWidth - 1) then Signed(n)
    else Signed(n - Pow2(fd.bitWidth))
  }

  /** A flag, and a value that has a text, is drawn as it is; any other as its conversion
      makes it. */
  function DrawnBy(fd: Field): Conversion {
    if fd.dataType == TYPE_BOOL || fd.conv.ValueToText? || fd.conv.RangeToText? || fd.conv == NoConversion then Identity
    else fd.conv
  }

  /** What a caller set is what the index shows: nothing for a field that was not marked
      present, and for one that was the number of its own bits. */
  lemma SetIsShown(m: Meter, s: Schema, h: Writing.HoldState, f: nat)
    requires |h.present| == |s.fields| && |h.record| >= s.RecordBytes() && f < |s.fields|
    ensures var vals := Values(m, Model(s), Writing.Restated(s, h));
      |vals| == |s.fields| && (!h.present[f] ==> vals[f] == None) &&
      (h.present[f] && Plain(s, f) ==> vals[f] == m.number(DrawnBy(s.fields[f]), BitsOf(h.record, s.fields[f])))
  {
    hide *;
    ValueAt(m, s, h, f);
    PlainAlike(s, f);
    if h.present[f] && Plain(s, f) {
      var b := OneRecord(s, h);
      RestatedBatch(s, h);
      PlainIs(s, f);
      FirstRecord(b, h.record);
      Cells.RawFixed(b, 0, f, h.record[..s.RecordBytes()]);
      TypedIs(h.record[..s.RecordBytes()], s.fields[f]);
      FieldCut(h.record, s.RecordBytes(), s.fields[f]);
      HeldCut(h.record, s.RecordBytes(), s.fields[f]);
      DrawnIs(m, s.fields[f], BitsOf(h.record, s.fields[f]));
    }
  }

  function OneRecord(s: Schema, h: Writing.HoldState): Batch {
    var held := Writing.Restated(s, h);
    Batch(held.schema, held.runID, held.base, 1, held.record, held.tails)
  }

  lemma RestatedBatch(s: Schema, h: Writing.HoldState)
    ensures var b := OneRecord(s, h); b.schema == Norm(s) && b.count == 1 && b.data == h.record
  {
    hide TailsOf;
    hide Norm;
  }

  lemma ValueAt(m: Meter, s: Schema, h: Writing.HoldState, f: nat)
    requires |h.present| == |s.fields| && f < |s.fields|
    ensures var vals := Values(m, Model(s), Writing.Restated(s, h));
      |vals| == |s.fields| == |Model(s).fields| &&
      vals[f] == if h.present[f] then Drawn(m, Model(s).fields[f], Raw(OneRecord(s, h), 0, f)) else None
  {
    hide Drawn;
    hide Raw;
    hide TailsOf;
    hide NormFields;
    PlainAlike(s, f);
  }

  lemma PlainIs(s: Schema, f: nat)
    requires Plain(s, f)
    ensures f < |s.fields|
    ensures var fd := s.fields[f];
      !fd.variable && !fd.guarded && 0 < fd.bitWidth <= 64 && fd.bitOffset + fd.bitWidth <= 8 * s.RecordBytes() &&
      (fd.dataType == TYPE_UINT || fd.dataType == TYPE_SINT || (fd.dataType == TYPE_BOOL && fd.bitWidth == 1))
    ensures var fd := NormField(s.fields[f]); !fd.variable && !fd.guarded
  {
  }

  lemma TypedIs(rec: bytes, fd: Field)
    requires !fd.variable && 0 < fd.bitWidth <= 64 && fd.bitOffset + fd.bitWidth <= 8 * |rec|
    requires fd.dataType == TYPE_UINT || fd.dataType == TYPE_SINT || (fd.dataType == TYPE_BOOL && fd.bitWidth == 1)
    ensures RawValue(rec, NormField(fd)) == Answer.Value(BitsOf(rec, fd))
  {
    Cells.TypedBits(rec, NormField(fd));
    assert Pow2(fd.bitWidth) == 2 * Pow2(fd.bitWidth - 1);
    hide RawValue;
    hide FieldValue;
    hide Pow2;
  }

  lemma HeldCut(data: bytes, n: nat, fd: Field)
    requires n <= |data| && fd.bitOffset + fd.bitWidth <= 8 * n && 0 < fd.bitWidth
    requires FieldValue(data[..n], fd.bitOffset, fd.bitWidth, fd.bigEndian) == FieldValue(data, fd.bitOffset, fd.bitWidth, fd.bigEndian)
    ensures BitsOf(data[..n], fd) == BitsOf(data, fd)
  {
    hide FieldValue;
  }

  lemma FirstRecord(b: Batch, data: bytes)
    requires b.count == 1 && b.data == data && |data| >= b.schema.RecordBytes()
    ensures Record(b, 0) == Some(data[..b.schema.RecordBytes()])
  {
    assert 0 * b.schema.RecordBytes() == 0 && 1 * b.schema.RecordBytes() == b.schema.RecordBytes();
  }

  lemma PlainAlike(s: Schema, f: nat)
    requires f < |s.fields|
    ensures |Norm(s).fields| == |s.fields| && Norm(s).fields[f] == NormField(s.fields[f]) && Norm(s).RecordBytes() == s.RecordBytes()
    ensures Model(s).fields == Norm(s).fields
  {
  }

  lemma FieldCut(data: bytes, n: nat, fd: Field)
    requires n <= |data| && fd.bitOffset + fd.bitWidth <= 8 * n
    ensures FieldValue(data[..n], fd.bitOffset, fd.bitWidth, fd.bigEndian) == FieldValue(data, fd.bitOffset, fd.bitWidth, fd.bigEndian)
  {
    CutFrom(data[..n], data[n..], fd.bitOffset, fd.bitWidth, fd.bigEndian);
    assert data[..n] + data[n..] == data;
    hide FieldValue;
  }

  lemma CutFrom(rec: bytes, rest: bytes, off: nat, w: nat, be: bool)
    requires off + w <= 8 * |rec|
    ensures FieldValue(rec + rest, off, w, be) == FieldValue(rec, off, w, be)
  {
    hide FieldValue;
    var none: bytes := [];
    Sample.FieldInside(none, rec, rest, off, w, be);
    assert none + rec + rest == rec + rest && 8 * |none| + off == off;
  }

  lemma DrawnIs(m: Meter, fd: Field, v: Value)
    requires fd.dataType == TYPE_UINT || fd.dataType == TYPE_SINT || fd.dataType == TYPE_BOOL
    ensures Drawn(m, NormField(fd), Answer.Value(v)) == m.number(DrawnBy(fd), v)
  {
  }

  /** A sample of such a field is drawn from the bits of its own record in the same way. */
  lemma SampleIsBits(m: Meter, s: Schema, b: Batch, i: nat, f: nat, rec: bytes)
    requires b.schema == Norm(s) && Record(b, i) == Some(rec) && |rec| == s.RecordBytes() && Plain(s, f)
    ensures f < |s.fields| == |Model(s).fields|
    ensures Number(m, Model(s), b, i, f) == m.number(DrawnBy(s.fields[f]), BitsOf(rec, s.fields[f]))
  {
    hide *;
    PlainIs(s, f);
    PlainAlike(s, f);
    Cells.RawFixed(b, i, f, rec);
    TypedIs(rec, s.fields[f]);
    DrawnIs(m, s.fields[f], BitsOf(rec, s.fields[f]));
    NumberIs(m, Model(s), b, i, f);
  }

  lemma NumberIs(m: Meter, model: Schema, b: Batch, i: nat, f: nat)
    requires f < |model.fields|
    ensures Number(m, model, b, i, f) == Drawn(m, model.fields[f], Raw(b, i, f))
  {
    hide Drawn;
    hide Raw;
  }

  // --- and the index -------------------------------------------------------------------------------------------

  /** Every restatement of a stream that holds something has its entry. */
  lemma {:induction false} HoldEntry(m: Meter, evs: seq<Event>, i: nat, u: bytes) returns (q: nat)
    requires i < |evs| && evs[i].out.HeldValues? && evs[i].out.held.schema.uuid == u
    requires u in Models(evs[..i + 1]) && HoldsSomething(Models(evs[..i + 1])[u])
    ensures u in Models(evs) && q < |Holds(m, evs, u)|
    ensures Holds(m, evs, u)[q] == RestatedOf(m, Models(evs)[u], evs[i].out.held, evs[i].at)
    decreases |evs|
  {
    hide RestatedOf;
    hide Models;
    hide HoldsSomething;
    var n := |evs| - 1;
    if i == n {
      assert evs[..i + 1] == evs;
      q := |Holds(m, evs, u)| - 1;
    } else {
      assert Init(evs)[..i + 1] == evs[..i + 1];
      q := HoldEntry(m, Init(evs), i, u);
      Tiers.ModelStays(evs, u);
    }
  }

  /** One of its fields is held. */
  ghost predicate HasHeld(s: Schema) { exists fd :: fd in s.fields && fd.hold }

  lemma HeldSomething(s: Schema)
    ensures HoldsSomething(s) <==> HasHeld(s)
  {
    if HoldsSomething(s) {
      var i :| 0 <= i < |s.fields| && s.fields[i].hold;
      assert s.fields[i] in s.fields;
    }
  }

  /** What an index says of a restatement: its stream's values, where it was in the file,
      its run, and its place on the axis, counted from the epoch when the axis is time. */
  lemma IndexedHold(z: Zip, m: Meter, file: bytes, i: nat, u: bytes) returns (q: nat)
    requires IndexFile(z, m, file).Some? && |file| >= 16 && i < |Access.EventsOf(z, file)|
    requires var e := Access.EventsOf(z, file)[i]; e.out.HeldValues? && e.out.held.schema.uuid == u
    requires var pre := Access.EventsOf(z, file)[..i + 1]; u in Models(pre) && HasHeld(Models(pre)[u])
    ensures u in IndexFile(z, m, file).value.streams && q < |IndexFile(z, m, file).value.streams[u].holds|
    ensures var st, e := IndexFile(z, m, file).value.streams[u], Access.EventsOf(z, file)[i];
      var r, h := st.holds[q], e.out.held;
      r.vals == Values(m, st.model, h) && r.offset == e.at && r.runID == h.runID &&
      r.axis == if st.model.axisKind == AXIS_TIME then (Ticks(h.base) - Origin(IndexFile(z, m, file).value.epoch)) as real
                else m.float(h.base)
  {
    hide *;
    var evs := Positions.IndexedEvents(z, m, file);
    HeldSomething(Models(evs[..i + 1])[u]);
    q := HoldEntry(m, evs, i, u);
    StreamIndexed(z, m, file, evs, u);
    BasedIs(m, evs, u, q);
    RestatedIs(m, Models(evs)[u], Epoch(m, evs), evs[i].out.held, evs[i].at);
  }

  /** And an entry is of such a restatement. */
  lemma {:induction false} HoldFrom(m: Meter, evs: seq<Event>, u: bytes, q: nat) returns (i: nat)
    requires q < |Holds(m, evs, u)|
    ensures i < |evs| && evs[i].out.HeldValues? && evs[i].out.held.schema.uuid == u
    ensures u in Models(evs) && HoldsSomething(Models(evs)[u])
    ensures Holds(m, evs, u)[q] == RestatedOf(m, Models(evs)[u], evs[i].out.held, evs[i].at)
    decreases |evs|
  {
    hide RestatedOf;
    hide Models;
    hide HoldsSomething;
    if q < |Holds(m, Init(evs), u)| {
      i := HoldFrom(m, Init(evs), u, q);
      Tiers.ModelStays(evs, u);
    } else {
      i := |evs| - 1;
    }
  }

  /** An index shows no restatement that was not made, and none of a stream that holds
      nothing. */
  lemma IndexedFrom(z: Zip, m: Meter, file: bytes, u: bytes, q: nat) returns (i: nat)
    requires IndexFile(z, m, file).Some? && u in IndexFile(z, m, file).value.streams
    requires q < |IndexFile(z, m, file).value.streams[u].holds|
    ensures HasHeld(IndexFile(z, m, file).value.streams[u].model)
    ensures |file| >= 16 && i < |Access.EventsOf(z, file)|
    ensures var e := Access.EventsOf(z, file)[i];
      e.out.HeldValues? && e.out.held.schema.uuid == u && e.at == IndexFile(z, m, file).value.streams[u].holds[q].offset
  {
    hide *;
    var evs := Positions.IndexedEvents(z, m, file);
    Positions.IndexedStream(z, m, file, u);
    StreamIndexed(z, m, file, evs, u);
    BasedSize(Models(evs)[u], Epoch(m, evs), Holds(m, evs, u));
    i := HoldFrom(m, evs, u, q);
    HeldSomething(Models(evs)[u]);
    BasedIs(m, evs, u, q);
    RestatedIs(m, Models(evs)[u], Epoch(m, evs), evs[i].out.held, evs[i].at);
  }

  lemma BasedSize(model: Schema, epoch: Option<int>, hs: seq<Restated>)
    ensures |BasedAll(model, epoch, hs)| == |hs|
  {
  }

  lemma StreamIndexed(z: Zip, m: Meter, file: bytes, evs: seq<Event>, u: bytes)
    requires IndexFile(z, m, file).Some? && |file| >= 16 && evs == Access.EventsOf(z, file) && u in Models(evs)
    ensures u in IndexFile(z, m, file).value.streams
    ensures var st := IndexFile(z, m, file).value.streams[u];
      st.model == Models(evs)[u] && st.holds == BasedAll(Models(evs)[u], Epoch(m, evs), Holds(m, evs, u))
  {
    hide *;
    Access.IndexedHeader(z, m, file);
    Resuming.IndexFileIs(z, m, file);
    Access.EventsAre(z, file);
    var r := Replay(z, FRESH, WholeFrames(file[16..]), 16);
    Merging.IndexParts(m, evs, r.stopped || Leftover(file[16..]) != []);
    StreamHolds(m, evs, u);
  }

  lemma StreamHolds(m: Meter, evs: seq<Event>, u: bytes)
    requires u in Models(evs)
    ensures var st := StreamOf(m, evs, u);
      st.model == Models(evs)[u] && st.holds == BasedAll(Models(evs)[u], Epoch(m, evs), Holds(m, evs, u))
  {
    hide Models;
    hide Holds;
    hide Epoch;
    hide Data;
    hide Rows;
  }

  lemma BasedIs(m: Meter, evs: seq<Event>, u: bytes, q: nat)
    requires u in Models(evs) && q < |Holds(m, evs, u)|
    ensures var all := BasedAll(Models(evs)[u], Epoch(m, evs), Holds(m, evs, u));
      |all| == |Holds(m, evs, u)| && all[q] == Based(Models(evs)[u], Epoch(m, evs), Holds(m, evs, u)[q])
  {
    hide Models;
    hide Holds;
    hide Epoch;
    hide Based;
  }

  lemma RestatedIs(m: Meter, model: Schema, epoch: Option<int>, h: Held, at: nat)
    ensures var r := Based(model, epoch, RestatedOf(m, model, h, at));
      r.vals == Values(m, model, h) && r.offset == at && r.runID == h.runID &&
      r.axis == if model.axisKind == AXIS_TIME then (Ticks(h.base) - Origin(epoch)) as real else m.float(h.base)
  {
    hide Values;
    hide Ticks;
  }
}
