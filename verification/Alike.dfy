/** An index does not tell a schema from the one its reader knows: no conversion
    from the identity, nor what an unguarded field's guard would have been. */
module Alike {
  import opened Bytes
  import opened Format
  import opened Frames
  import opened Extract
  import opened Records
  import opened Reading
  import opened Stats
  import opened Indexing
  import opened Joining
  import Merging

  function Plain(o: Outcome): Outcome {
    match o
    case Nothing => Nothing
    case Bound(s, id) => Bound(Norm(s), id)
    case HeldValues(h) => HeldValues(h.(schema := Norm(h.schema)))
    case Records(b, _) => Reading.Records(b.(schema := Norm(b.schema)), None)
  }

  function PlainEvent(e: Event): Event { e.(out := Plain(e.out)) }

  function PlainAll(evs: seq<Event>): (r: seq<Event>)
    ensures |r| == |evs|
    ensures forall i :: 0 <= i < |evs| ==> r[i] == PlainEvent(evs[i])
  {
    seq(|evs|, i requires 0 <= i < |evs| => PlainEvent(evs[i]))
  }

  lemma PlainSnoc(evs: seq<Event>)
    requires evs != []
    ensures Init(PlainAll(evs)) == PlainAll(Init(evs)) && Last(PlainAll(evs)) == PlainEvent(Last(evs))
  {
  }

  lemma {:induction false} NormTwice(fs: seq<Field>)
    ensures NormFields(NormFields(fs)) == NormFields(fs)
  {
    var x := NormFields(fs);
    assert forall i :: 0 <= i < |fs| ==> NormFields(x)[i] == x[i];
  }

  lemma ModelAlike(s: Schema)
    ensures Model(Norm(s)) == Model(s)
  {
    NormTwice(s.fields);
    hide NormFields;
  }

  lemma {:induction false} OrdinalAlike(fs: seq<Field>, f: nat)
    requires f <= |fs|
    ensures VarOrdinal(NormFields(fs), f) == VarOrdinal(fs, f)
  {
    hide NormFields;
    hide NormConversion;
    if f > 0 {
      OrdinalAlike(fs, f - 1);
      assert NormFields(fs)[f - 1].variable == fs[f - 1].variable;
    }
  }

  lemma RawValueAlike(rec: bytes, f: Field)
    ensures RawValue(rec, NormField(f)) == RawValue(rec, f)
  {
    hide Extracted;
    hide TrimZero;
    hide NormConversion;
  }

  lemma RecordAlike(b: Batch, i: nat)
    ensures Record(b.(schema := Norm(b.schema)), i) == Record(b, i)
  {
    hide NormFields;
  }

  /** A field of a record reads the same. */
  lemma RawAlike(b: Batch, i: nat, f: nat)
    ensures Raw(b.(schema := Norm(b.schema)), i, f) == Raw(b, i, f)
  {
    hide Extracted;
    hide RawValue;
    hide NormConversion;
    hide Record;
    hide GuardHolds;
    hide VarOrdinal;
    hide NormFields;
    var s := b.schema;
    RecordAlike(b, i);
    if f < |s.fields| {
      OrdinalAlike(s.fields, f);
      if Record(b, i).Some? {
        RawValueAlike(Record(b, i).value, s.fields[f]);
        if s.fields[f].guarded { GuardAlike(b, Record(b, i).value, s.fields[f]); }
      }
    }
  }

  lemma GuardAlike(b: Batch, rec: bytes, f: Field)
    requires f.guarded
    ensures GuardHolds(b.(schema := Norm(b.schema)), rec, NormField(f)) == GuardHolds(b, rec, f)
  {
    hide Extracted;
    hide NormConversion;
  }

  // --- frames, summaries and restatements --------------------------------------------------------------

  lemma AxisAlike(m: Meter, b: Batch, i: nat)
    ensures Axis(m, b.(schema := Norm(b.schema)), i) == Axis(m, b, i)
  {
    NormKeeps(b.schema);
    hide Raw;
    hide Norm;
    RawAlike(b, i, b.schema.axisField);
    forall x: u64 ensures AxisAt(m, Norm(b.schema), b.base, i, x) == AxisAt(m, b.schema, b.base, i, x) {
      AxisAtAlike(m, b.schema, b.base, i, x);
    }
    hide AxisAt;
  }

  lemma NormKeeps(s: Schema)
    ensures Norm(s) == s.(fields := Norm(s).fields)
  {
    hide NormFields;
  }

  lemma AxisAtAlike(m: Meter, s: Schema, base: u64, i: nat, x: u64)
    ensures AxisAt(m, Norm(s), base, i, x) == AxisAt(m, s, base, i, x)
  {
    hide NormFields;
  }

  lemma FrameAlike(m: Meter, e: Event, k: nat)
    requires e.out.Records?
    ensures FrameOf(m, PlainEvent(e), k) == FrameOf(m, e, k)
  {
    var b := e.out.batch;
    NormKeeps(b.schema);
    hide Norm;
    hide Axis;
    hide Ticks;
    AxisAlike(m, b, 0);
    if b.count > 0 { AxisAlike(m, b, b.count - 1); }
  }

  lemma EpochAlike(m: Meter, e: Event)
    requires e.out.Records?
    ensures EpochOf(m, PlainEvent(e)) == EpochOf(m, e)
  {
    NormKeeps(e.out.batch.schema);
    hide Norm;
    hide Axis;
    hide Ticks;
    AxisAlike(m, e.out.batch, 0);
  }

  lemma {:induction false} SamplesAlike(m: Meter, model: Schema, b: Batch, f: nat, n: nat)
    requires f < |model.fields|
    ensures Samples(m, model, b.(schema := Norm(b.schema)), f, n) == Samples(m, model, b, f, n)
    ensures Occurrences(b.(schema := Norm(b.schema)), f, n) == Occurrences(b, f, n)
  {
    hide Raw;
    hide Drawn;
    hide Norm;
    if n > 0 {
      SamplesAlike(m, model, b, f, n - 1);
      RawAlike(b, n - 1, f);
    }
  }

  lemma RowAlike(m: Meter, model: Schema, b: Batch)
    ensures StatRow(m, model, b.(schema := Norm(b.schema))) == StatRow(m, model, b)
  {
    var c := b.(schema := Norm(b.schema));
    forall f | 0 <= f < |model.fields| ensures FieldStat(m, model, c, f, b.count) == FieldStat(m, model, b, f, b.count) {
      SamplesAlike(m, model, b, f, b.count);
      hide Samples;
      hide Occurrences;
      hide Norm;
    }
    hide FieldStat;
    assert StatRow(m, model, c) == StatRow(m, model, b);
  }

  lemma RestatedAlike(m: Meter, model: Schema, h: Held, at: nat)
    ensures RestatedOf(m, model, h.(schema := Norm(h.schema)), at) == RestatedOf(m, model, h, at)
  {
    var g := h.(schema := Norm(h.schema));
    forall i | 0 <= i < |model.fields| ensures Values(m, model, g)[i] == Values(m, model, h)[i] {
      RawAlike(Batch(h.schema, h.runID, h.base, 1, h.record, h.tails), 0, i);
      hide Raw;
      hide Norm;
    }
    assert Values(m, model, g) == Values(m, model, h);
    hide Values;
    hide Norm;
  }

  // --- the index -------------------------------------------------------------------------------------------

  lemma {:induction false} SegmentsAlike(evs: seq<Event>)
    ensures Segments(PlainAll(evs)) == Segments(evs)
    decreases |evs|
  {
    if evs != [] {
      PlainSnoc(evs);
      SegmentsAlike(Init(evs));
      hide NormFields;
    }
  }

  lemma {:induction false} ModelsAlike(evs: seq<Event>)
    ensures Models(PlainAll(evs)) == Models(evs)
    decreases |evs|
  {
    if evs != [] {
      PlainSnoc(evs);
      ModelsAlike(Init(evs));
      match Shows(Last(evs)) {
        case None =>
        case Some(s) => ModelAlike(s);
      }
      hide NormFields;
      hide Model;
    }
  }

  lemma {:induction false} DataAlike(m: Meter, evs: seq<Event>)
    ensures Data(m, PlainAll(evs)) == Data(m, evs) && Epoch(m, PlainAll(evs)) == Epoch(m, evs)
    decreases |evs|
  {
    if evs != [] {
      PlainSnoc(evs);
      DataAlike(m, Init(evs));
      SegmentsAlike(evs);
      SegmentsSome(evs);
      if Last(evs).out.Records? {
        FrameAlike(m, Last(evs), |Segments(evs)| - 1);
        EpochAlike(m, Last(evs));
      }
      hide FrameOf;
      hide Segments;
      hide Norm;
      hide Axis;
    }
  }

  lemma {:induction false} RowsAlike(m: Meter, evs: seq<Event>, u: bytes)
    ensures Rows(m, PlainAll(evs), u) == Rows(m, evs, u)
    decreases |evs|
  {
    if evs != [] {
      PlainSnoc(evs);
      RowsAlike(m, Init(evs), u);
      ModelsAlike(evs);
      ModelKnown(evs, u);
      if IsOf(Last(evs), u) { RowAlike(m, Models(evs)[u], Last(evs).out.batch); }
      hide StatRow;
      hide Models;
      hide NormFields;
    }
  }

  lemma {:induction false} HoldsAlike(m: Meter, evs: seq<Event>, u: bytes)
    ensures Holds(m, PlainAll(evs), u) == Holds(m, evs, u)
    decreases |evs|
  {
    if evs != [] {
      PlainSnoc(evs);
      HoldsAlike(m, Init(evs), u);
      ModelsAlike(evs);
      if Restates(evs, u) { RestatedAlike(m, Models(evs)[u], Last(evs).out.held, Last(evs).at); }
      hide RestatedOf;
      hide HoldsSomething;
      hide Models;
      hide NormFields;
    }
  }

  lemma ClosedAlike(evs: seq<Event>)
    ensures Closed(PlainAll(evs)) == Closed(evs)
  {
    if Closed(evs) {
      var i :| 0 <= i < |evs| && evs[i].frame.typ == FRAME_END;
      assert PlainAll(evs)[i].frame.typ == FRAME_END;
    }
  }

  /** The index of a scan is that of its plain events. */
  lemma IndexAlike(m: Meter, evs: seq<Event>, tr: bool)
    ensures IndexOf(m, PlainAll(evs), tr) == IndexOf(m, evs, tr)
  {
    hide *;
    SegmentsAlike(evs);
    ModelsAlike(evs);
    DataAlike(m, evs);
    ClosedAlike(evs);
    var p := PlainAll(evs);
    Merging.IndexParts(m, p, tr);
    Merging.IndexParts(m, evs, tr);
    forall u | u in Models(evs) ensures StreamOf(m, p, u) == StreamOf(m, evs, u) {
      RowsAlike(m, evs, u);
      HoldsAlike(m, evs, u);
      Merging.StreamParts(m, p, u);
      Merging.StreamParts(m, evs, u);
    }
    assert IndexOf(m, p, tr).streams == IndexOf(m, evs, tr).streams;
  }
}
