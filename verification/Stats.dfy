/** What one DATA frame holds, summarised field by field. */
module Stats {
  import opened Bytes
  import opened Format
  import opened Records

  /** The floating-point part of decoding, left open: a value as a number under a
      conversion (nothing when it is not one, or not finite), the float an explicit
      axis is read from, that float as an integer, a position on an axis that is not
      time (by mode, step, scale, base, record and explicit value), and a float's
      value. */
  datatype Meter = Meter(
    number: (Conversion, Value) -> Option<real>,
    explicit: Value -> Option<u64>,
    whole: u64 -> u64,
    position: (byte, u64, u64, u64, nat, u64) -> u64,
    float: u64 -> real)

  // --- how a field is drawn ----------------------------------------------------------------

  datatype Class = Numeric | Categorical | Happening | Opaque

  /** A bool is categorical whatever its conversion, and a text conversion makes a
      field categorical whatever its type. */
  function Classify(f: Field): Class {
    if f.dataType == TYPE_BYTES || f.dataType == TYPE_STRING then Happening
    else if f.dataType == TYPE_COMPLEX then Opaque
    else if f.dataType == TYPE_BOOL then Categorical
    else if f.conv.ValueToText? || f.conv.RangeToText? then Categorical
    else Numeric
  }

  predicate IsAxis(model: Schema, f: nat) { model.axisMode == AXIS_EXPLICIT && f == model.axisField }

  /** Where a record stands: time is counted in whole ticks, in a word. */
  function AxisAt(m: Meter, s: Schema, base: u64, i: nat, explicit: u64): u64 {
    if s.axisKind == AXIS_TIME then
      (base + (if s.axisMode == AXIS_IMPLICIT then i * s.axisStep else m.whole(explicit) * s.axisScale)) % TWO64
    else m.position(s.axisMode, s.axisStep, s.axisScale, base, i, explicit)
  }

  /** The axis value of a record. */
  function Axis(m: Meter, b: Batch, i: nat): Option<u64> {
    if b.schema.axisMode != AXIS_EXPLICIT then Some(AxisAt(m, b.schema, b.base, i, 0))
    else
      match Raw(b, i, b.schema.axisField)
      case Value(v) =>
        (match m.explicit(v)
         case None => None
         case Some(x) => Some(AxisAt(m, b.schema, b.base, i, x)))
      case _ => None
  }

  /** A categorical field keeps its raw value; any other is converted. */
  function Drawn(m: Meter, f: Field, a: Answer): Option<real> {
    match a
    case Value(v) => m.number(if Classify(f).Categorical? then Identity else f.conv, v)
    case _ => None
  }

  function Number(m: Meter, model: Schema, b: Batch, i: nat, f: nat): Option<real>
    requires f < |model.fields|
  {
    Drawn(m, model.fields[f], Raw(b, i, f))
  }

  predicate InRecord(b: Batch, i: nat, f: nat) { Raw(b, i, f).Value? }

  // --- the summary of a list of samples ------------------------------------------------------

  datatype Bounds = Bounds(min: real, max: real, first: real, last: real)

  /** No bounds is what the code marks with NaN. */
  datatype Stat = Stat(bounds: Option<Bounds>, nPresent: nat, distinct: bool)

  /** `b` is what is to be known of the samples: bounds that are attained, the ends,
      and whether they differ. */
  ghost predicate Summarises(s: Stat, vals: seq<real>) {
    s.nPresent == |vals| && (s.bounds == None <==> vals == []) &&
    (s.distinct <==> exists i, j :: 0 <= i < |vals| && 0 <= j < |vals| && vals[i] != vals[j]) &&
    (s.bounds.Some? ==>
      var b := s.bounds.value;
      b.min in vals && b.max in vals && (forall v :: v in vals ==> b.min <= v <= b.max) &&
      b.first == vals[0] && b.last == vals[|vals| - 1])
  }

  /** One more sample. */
  function Grown(s: Stat, v: real): Stat {
    match s.bounds
    case None => Stat(Some(Bounds(v, v, v, v)), 1, false)
    case Some(b) =>
      Stat(Some(Bounds(if v < b.min then v else b.min, if v > b.max then v else b.max, b.first, v)),
           s.nPresent + 1, s.distinct || v != b.first)
  }

  function StatOf(vals: seq<real>): Stat {
    if vals == [] then Stat(None, 0, false) else Grown(StatOf(vals[..|vals| - 1]), vals[|vals| - 1])
  }

  lemma {:induction false} StatIsSummary(vals: seq<real>)
    ensures Summarises(StatOf(vals), vals)
    decreases |vals|
  {
    if vals != [] {
      var n := |vals| - 1;
      var rest, v := vals[..n], vals[n];
      StatIsSummary(rest);
      var s, r := StatOf(rest), StatOf(vals);
      assert vals == rest + [v];
      assert v in vals;
      if rest != [] {
        assert forall x :: x in rest ==> x in vals;
        assert forall x :: x in vals ==> x in rest || x == v;
        if s.distinct {
          var i, j :| 0 <= i < |rest| && 0 <= j < |rest| && rest[i] != rest[j];
          assert vals[i] != vals[j];
        } else if v != rest[0] {
          assert vals[n] != vals[0];
        } else {
          forall i, j | 0 <= i < |vals| && 0 <= j < |vals| ensures vals[i] == vals[j] {
            assert i < n ==> vals[i] == rest[i] == rest[0];
            assert j < n ==> vals[j] == rest[j] == rest[0];
          }
        }
      }
    }
  }

  /** The present samples of a field over the first `n` records. */
  function Samples(m: Meter, model: Schema, b: Batch, f: nat, n: nat): seq<real>
    requires f < |model.fields|
  {
    if n == 0 then []
    else
      Samples(m, model, b, f, n - 1) +
      (match Number(m, model, b, n - 1, f) case None => [] case Some(v) => [v])
  }

  function Occurrences(b: Batch, f: nat, n: nat): nat {
    if n == 0 then 0 else Occurrences(b, f, n - 1) + (if InRecord(b, n - 1, f) then 1 else 0)
  }

  /** What the first `n` records of a frame say about a field: an axis or an opaque
      field nothing, an event field how often it happened, any other its samples. */
  function FieldStat(m: Meter, model: Schema, b: Batch, f: nat, n: nat): Stat
    requires f < |model.fields|
  {
    if IsAxis(model, f) || Classify(model.fields[f]).Opaque? then Stat(None, 0, false)
    else if Classify(model.fields[f]).Happening? then Stat(None, Occurrences(b, f, n), false)
    else StatOf(Samples(m, model, b, f, n))
  }

  /** An event field is counted as often as a record has it. */
  lemma {:induction false} HappeningCount(b: Batch, f: nat, n: nat)
    ensures Occurrences(b, f, n) == |set i: nat | i < n && Raw(b, i, f).Value?|
  {
    hide Raw;
    var s := set i: nat | i < n && Raw(b, i, f).Value?;
    if n == 0 {
      assert s == {};
    } else {
      HappeningCount(b, f, n - 1);
      var t := set i: nat | i < n - 1 && Raw(b, i, f).Value?;
      assert s == t + if Raw(b, n - 1, f).Value? then {n - 1} else {};
    }
  }

  function StatRow(m: Meter, model: Schema, b: Batch): (r: seq<Stat>)
    ensures |r| == |model.fields|
  {
    seq(|model.fields|, f requires 0 <= f < |model.fields| => FieldStat(m, model, b, f, b.count))
  }

  // --- as samples arrive -----------------------------------------------------------------------

  class StatAccum {
    var min: real
    var max: real
    var first: real
    var last: real
    var nPresent: nat
    var distinct: bool
    var begun: bool

    function Result(): Stat
      reads this
    {
      if !begun then Stat(None, nPresent, false) else Stat(Some(Bounds(min, max, first, last)), nPresent, distinct)
    }

    constructor ()
      ensures Result() == Stat(None, 0, false) && !distinct
    {
      min, max, first, last := 0.0, 0.0, 0.0, 0.0;
      nPresent, distinct, begun := 0, false, false;
    }

    method Add(v: Option<real>)
      requires begun || (nPresent == 0 && !distinct)
      modifies this
      ensures Result() == match v case None => old(Result()) case Some(x) => Grown(old(Result()), x)
      ensures begun || (nPresent == 0 && !distinct)
    {
      if v == None { return; }
      var x := v.value;
      if !begun {
        begun := true;
        min, max := x, x;
        first, last := x, x;
        nPresent := 1;
        return;
      }
      if x < min { min := x; }
      if x > max { max := x; }
      if x != first { distinct := true; }
      last := x;
      nPresent := nPresent + 1;
    }

    method AddPresence(present: bool)
      requires !begun
      modifies this
      ensures !begun && Result() == Stat(None, old(Result()).nPresent + (if present then 1 else 0), false)
    {
      if present { nPresent := nPresent + 1; }
    }
  }

  /** An accumulator that has taken the first `n` records of a field. */
  ghost predicate Took(a: StatAccum, m: Meter, model: Schema, b: Batch, f: nat, n: nat)
    requires f < |model.fields|
    reads a
  {
    a.Result() == FieldStat(m, model, b, f, n) &&
    (if Classify(model.fields[f]).Happening? then !a.begun else a.begun || (a.nPresent == 0 && !a.distinct))
  }

  method AddRecord(a: StatAccum, m: Meter, model: Schema, b: Batch, f: nat, i: nat)
    requires f < |model.fields| && Took(a, m, model, b, f, i)
    modifies a
    ensures Took(a, m, model, b, f, i + 1)
  {
    hide Classify;
    hide Drawn;
    var fd := model.fields[f];
    if IsAxis(model, f) || Classify(fd).Opaque? { return; }
    if Classify(fd).Happening? {
      a.AddPresence(InRecord(b, i, f));
      return;
    }
    var v := Number(m, model, b, i, f);
    a.Add(v);
    SamplesNext(m, model, b, f, i);
  }

  lemma SamplesNext(m: Meter, model: Schema, b: Batch, f: nat, i: nat)
    requires f < |model.fields|
    ensures StatOf(Samples(m, model, b, f, i + 1)) ==
      match Number(m, model, b, i, f)
      case None => StatOf(Samples(m, model, b, f, i))
      case Some(v) => Grown(StatOf(Samples(m, model, b, f, i)), v)
  {
    hide Number;
    var s := Samples(m, model, b, f, i);
    match Number(m, model, b, i, f) {
      case None => assert s + [] == s;
      case Some(v) => assert (s + [v])[..|s|] == s;
    }
  }

  /** Every field of a frame, record by record. */
  method StatsFor(m: Meter, model: Schema, b: Batch) returns (r: seq<Stat>)
    ensures r == StatRow(m, model, b)
  {
    hide FieldStat;
    hide Classify;
    var n := |model.fields|;
    var acc: seq<StatAccum> := [];
    for f := 0 to n
      invariant |acc| == f && fresh(acc) && Apart(acc)
      invariant forall k :: 0 <= k < f ==> Took(acc[k], m, model, b, k, 0)
    {
      var a := new StatAccum();
      NothingTaken(a, m, model, b, f);
      acc := acc + [a];
    }
    for i := 0 to b.count
      invariant fresh(acc)
      invariant forall k :: 0 <= k < n ==> Took(acc[k], m, model, b, k, i)
    {
      for f := 0 to n
        invariant fresh(acc)
        invariant forall k :: 0 <= k < n ==> Took(acc[k], m, model, b, k, if k < f then i + 1 else i)
      {
        AddRecord(acc[f], m, model, b, f, i);
      }
    }
    r := [];
    for f := 0 to n
      invariant |r| == f && forall k :: 0 <= k < f ==> r[k] == FieldStat(m, model, b, k, b.count)
    {
      r := r + [acc[f].Result()];
    }
  }

  predicate Apart(acc: seq<StatAccum>) { forall i, j :: 0 <= i < j < |acc| ==> acc[i] != acc[j] }

  lemma NothingTaken(a: StatAccum, m: Meter, model: Schema, b: Batch, f: nat)
    requires f < |model.fields| && a.Result() == Stat(None, 0, false) && !a.distinct
    ensures Took(a, m, model, b, f, 0)
  {
  }
}
