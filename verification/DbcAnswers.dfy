/** What a frame was asked to say is what its schema reads out of it, told of the request
    and of the decoded record alone. */
module DbcAnswers {
  import opened Bytes
  import opened BitOps
  import opened Format
  import opened Extract
  import opened Dbc
  import opened DbcEncode
  import opened DbcSchema
  import Records

  /** A frame of the message, and the record a reader of its schema makes of it: the axis
      and then the frame. */
  ghost predicate Read(fl: Floats, m: Message, req: request, mux: Option<nat>, d: bytes,
                       fields: seq<Field>, at: seq<Option<nat>>, b: Records.Batch, i: nat, axis: bytes)
  {
    MuxIs(m, mux) && Encodable(fl, m, req, mux) && Encodes(fl, m, req, mux, d) &&
    (mux.Some? ==> Selected(m.signals[mux.value], mux, RawMux(fl, m, req, mux))) &&
    Filled(fl, m, mux, fields, at, |m.signals|) && b.schema.fields == fields &&
    |axis| == 8 && Records.Record(b, i) == Some(axis + d)
  }

  /** Signal `j` is in the frame. */
  ghost predicate InFrame(fl: Floats, m: Message, req: request, mux: Option<nat>, j: nat) {
    MuxIs(m, mux) && j < |m.signals| && Selected(m.signals[j], mux, RawMux(fl, m, req, mux))
  }

  /** The number field `k` of the record shows. */
  function Shows(b: Records.Batch, i: nat, k: Option<nat>): Option<real> {
    match k
    case None => None
    case Some(f) =>
      match Records.Raw(b, i, f)
      case Value(v) => if v.Unsigned? || v.Signed? || v.Flag? then Some(Whole(v)) else None
      case _ => None
  }

  lemma ReadsRaw(fl: Floats, m: Message, req: request, mux: Option<nat>, d: bytes,
                 fields: seq<Field>, at: seq<Option<nat>>, b: Records.Batch, i: nat, axis: bytes, j: nat)
    requires Read(fl, m, req, mux, d, fields, at, b, i, axis) && InFrame(fl, m, req, mux, j)
    ensures j < |m.signals| == |at| && at[j].Some?
    ensures ReadsBack(b, i, at[j], m.signals[j], RawFor(fl, m.signals[j], req)) && RawFor(fl, m.signals[j], req).Bits?
  {
    hide *;
    ReadIs(fl, m, req, mux, d, fields, at, b, i, axis, j);
    FilledSize(fl, m, mux, fields, at, |m.signals|);
    DecodesBack(fl, m, req, mux, d, fields, at, b, i, axis, j);
    BitsThere(b, i, at[j], m.signals[j], RawFor(fl, m.signals[j], req));
  }

  lemma BitsThere(b: Records.Batch, i: nat, k: Option<nat>, s: Signal, raw: RawOutcome)
    requires ReadsBack(b, i, k, s, raw)
    ensures raw.Bits? && k.Some?
  {
  }

  lemma ReadIs(fl: Floats, m: Message, req: request, mux: Option<nat>, d: bytes,
               fields: seq<Field>, at: seq<Option<nat>>, b: Records.Batch, i: nat, axis: bytes, j: nat)
    requires Read(fl, m, req, mux, d, fields, at, b, i, axis) && InFrame(fl, m, req, mux, j)
    ensures MuxIs(m, mux) && Encodable(fl, m, req, mux) && Encodes(fl, m, req, mux, d)
    ensures mux.Some? ==> mux.value < |m.signals| && Selected(m.signals[mux.value], mux, RawMux(fl, m, req, mux))
    ensures Filled(fl, m, mux, fields, at, |m.signals|) && b.schema.fields == fields
    ensures |axis| == 8 && Records.Record(b, i) == Some(axis + d)
    ensures j < |m.signals| && Selected(m.signals[j], mux, RawMux(fl, m, req, mux))
  {
    hide Encodable;
    hide Encodes;
    hide Filled;
    hide RawMux;
    hide Records.Record;
  }

  lemma ShowsInteger(b: Records.Batch, i: nat, k: Option<nat>, s: Signal, raw: RawOutcome)
    requires ReadsBack(b, i, k, s, raw) && !s.float && raw.Bits? && raw.n < Pow2(s.length)
    ensures raw.Bits? && 0 < s.length <= 64 && Shows(b, i, k) == Some(Integer(s, raw.n) as real)
  {
    hide Records.Raw;
    hide Integer;
    ShownWhole(s, raw.n);
  }

  // --- flags -------------------------------------------------------------------------------------------

  /** A flag asked for is the flag read. */
  lemma FlagBack(fl: Floats, m: Message, req: request, mux: Option<nat>, d: bytes,
                 fields: seq<Field>, at: seq<Option<nat>>, b: Records.Batch, i: nat, axis: bytes, j: nat, t: bool)
    requires Read(fl, m, req, mux, d, fields, at, b, i, axis) && InFrame(fl, m, req, mux, j)
    requires var s := m.signals[j];
      s.length == 1 && !s.signed && !s.float && s.name in req && req[s.name] == Truth(t)
    ensures at[j].Some? && Records.Raw(b, i, at[j].value) == Records.Value(Records.Flag(t))
  {
    hide *;
    ReadsRaw(fl, m, req, mux, d, fields, at, b, i, axis, j);
    TruthRaw(fl, m.signals[j], req, t);
    FlagShown(b, i, at[j], m.signals[j], t);
  }

  lemma TruthRaw(fl: Floats, s: Signal, req: request, t: bool)
    requires s.name in req && req[s.name] == Truth(t) && !s.float && RawFor(fl, s, req).Bits?
    requires s.length == 1 && !s.signed
    ensures RawFor(fl, s, req) == Bits(if t then 1 else 0)
  {
    hide InRange;
    var phys := if t then 1.0 * s.factor + s.offset else s.offset;
    assert RawFor(fl, s, req) == Scaled(fl, s, phys);
    Divided(s.factor, if t then 1.0 else 0.0);
    assert phys - s.offset == (if t then 1.0 else 0.0) * s.factor;
  }

  lemma Divided(f: real, x: real)
    requires f != 0.0
    ensures (x * f) / f == x
  {
  }

  lemma FlagShown(b: Records.Batch, i: nat, k: Option<nat>, s: Signal, t: bool)
    requires ReadsBack(b, i, k, s, Bits(if t then 1 else 0)) && s.length == 1 && !s.signed && !s.float
    ensures k.Some? && Records.Raw(b, i, k.value) == Records.Value(Records.Flag(t))
  {
    hide Records.Raw;
  }

  // --- names and start values ----------------------------------------------------------------------------

  /** A name asked for is the text of the key read. */
  lemma NameBack(fl: Floats, m: Message, req: request, mux: Option<nat>, d: bytes,
                 fields: seq<Field>, at: seq<Option<nat>>, b: Records.Batch, i: nat, axis: bytes, j: nat) returns (k: u64)
    requires Read(fl, m, req, mux, d, fields, at, b, i, axis) && InFrame(fl, m, req, mux, j)
    requires var s := m.signals[j]; !s.float && s.name in req && req[s.name].Named?
    ensures |at| == |m.signals| && k in m.signals[j].values && m.signals[j].values[k] == req[m.signals[j].name].name
    ensures Shows(b, i, at[j]) == Some(k as real)
  {
    hide *;
    ReadsRaw(fl, m, req, mux, d, fields, at, b, i, axis, j);
    k := NamedRaw(fl, m.signals[j], req);
    ShowsInteger(b, i, at[j], m.signals[j], RawFor(fl, m.signals[j], req));
  }

  /** And the rows of the conversion of the field that reads it give that text, and no
      other, to the number read. */
  lemma NameText(fl: Floats, value: u64 -> real, m: Message, req: request, mux: Option<nat>, d: bytes,
                 fields: seq<Field>, at: seq<Option<nat>>, b: Records.Batch, i: nat, axis: bytes, j: nat)
    requires Read(fl, m, req, mux, d, fields, at, b, i, axis) && InFrame(fl, m, req, mux, j)
    requires forall x :: value(fl.double(x)) == x
    requires var s := m.signals[j]; !s.float && s.name in req && req[s.name].Named?
    ensures |at| == |m.signals| && at[j].Some? && at[j].value < |fields| && fields[at[j].value].conv.ValueToText?
    ensures var rows := fields[at[j].value].conv.rows;
      (exists r :: 0 <= r < |rows| && Some(value(rows[r].x)) == Shows(b, i, at[j])) &&
      forall r :: 0 <= r < |rows| && Some(value(rows[r].x)) == Shows(b, i, at[j]) ==>
        rows[r].text == req[m.signals[j].name].name
  {
    hide *;
    ReadIs(fl, m, req, mux, d, fields, at, b, i, axis, j);
    ReadsRaw(fl, m, req, mux, d, fields, at, b, i, axis, j);
    var k := NameBack(fl, m, req, mux, d, fields, at, b, i, axis, j);
    FieldTexts(fl, value, m, mux, fields, at, j, k);
  }

  lemma FieldTexts(fl: Floats, value: u64 -> real, m: Message, mux: Option<nat>, fields: seq<Field>, at: seq<Option<nat>>,
                   j: nat, k: u64)
    requires Filled(fl, m, mux, fields, at, |m.signals|) && j < |m.signals| && |at| == |m.signals| && at[j].Some?
    requires k in m.signals[j].values && forall x :: value(fl.double(x)) == x
    ensures at[j].value < |fields| && fields[at[j].value].conv.ValueToText?
    ensures var rows, s := fields[at[j].value].conv.rows, m.signals[j];
      (exists r :: 0 <= r < |rows| && value(rows[r].x) == k as real) &&
      forall r :: 0 <= r < |rows| && value(rows[r].x) == k as real ==> rows[r].text == s.values[k]
  {
    var s := m.signals[j];
    assert Placed(fl, m, mux, fields, at[j], |m.signals|, j);
    hide BitOffset;
    hide Carried;
    hide Holds;
    assert s.values != map[];
    var c := fields[at[j].value].conv;
    var ks: seq<u64> :| Ascending(ks) && (forall x :: x in ks <==> x in s.values) && c == ValueToText(TextRows(fl, s, ks), []);
    hide Ascending;
    assert k in ks;
    var r :| 0 <= r < |ks| && ks[r] == k;
    assert value(c.rows[r].x) == k as real;
  }

  lemma NamedRaw(fl: Floats, s: Signal, req: request) returns (k: u64)
    requires s.name in req && req[s.name].Named? && !s.float && RawFor(fl, s, req).Bits?
    ensures k in s.values && s.values[k] == req[s.name].name && 0 < s.length <= 64
    ensures RawFor(fl, s, req).n < Pow2(s.length) && Integer(s, RawFor(fl, s, req).n) as real == k as real
  {
    hide FitRaw;
    var name := req[s.name].name;
    assert exists k :: Names(s, name, k);
    k :| Names(s, name, k);
    assert forall x, y :: Names(s, name, x) && Names(s, name, y) ==> x == y;
    FitBack(fl, s, k as real);
  }

  /** A signal not asked for shows its start value. */
  lemma StartBack(fl: Floats, m: Message, req: request, mux: Option<nat>, d: bytes,
                  fields: seq<Field>, at: seq<Option<nat>>, b: Records.Batch, i: nat, axis: bytes, j: nat)
    requires Read(fl, m, req, mux, d, fields, at, b, i, axis) && InFrame(fl, m, req, mux, j)
    requires var s := m.signals[j]; !s.float && s.name !in req
    ensures |at| == |m.signals| && m.signals[j].initial.Some? && Shows(b, i, at[j]) == m.signals[j].initial
  {
    hide *;
    ReadsRaw(fl, m, req, mux, d, fields, at, b, i, axis, j);
    StartRaw(fl, m.signals[j], req);
    ShowsInteger(b, i, at[j], m.signals[j], RawFor(fl, m.signals[j], req));
  }

  lemma StartRaw(fl: Floats, s: Signal, req: request)
    requires s.name !in req && !s.float && RawFor(fl, s, req).Bits?
    ensures s.initial.Some? && 0 < s.length <= 64
    ensures RawFor(fl, s, req).n < Pow2(s.length) && Integer(s, RawFor(fl, s, req).n) as real == s.initial.value
  {
    hide FitRaw;
    FitBack(fl, s, s.initial.value);
  }

  // --- numbers -------------------------------------------------------------------------------------------

  function Line(a: real, b: real, x: real): real { a + b * x }

  /** A float's bits as the number they stand for, the conversion of a field applied to
      it: a line, or nothing. */
  function Converted(value: u64 -> real, c: Conversion, x: real): Option<real> {
    match c
    case Linear(a, b) => Some(Line(value(a), value(b), x))
    case NoConversion => Some(x)
    case _ => None
  }

  /** What the database declares of a number: none, or between its ends, to within a
      thousand-millionth of the larger. */
  ghost predicate Declared(s: Signal, x: real) {
    (s.min == 0.0 && s.max == 0.0) ||
    exists t :: Slack(s, t) && s.min - t <= x <= s.max + t
  }

  predicate Slack(s: Signal, t: real) {
    1000000000.0 * t >= 1.0 && 1000000000.0 * t >= Abs(s.min) && 1000000000.0 * t >= Abs(s.max) &&
    (1000000000.0 * t == 1.0 || 1000000000.0 * t == Abs(s.min) || 1000000000.0 * t == Abs(s.max))
  }

  /** A number asked of an integer signal that has no names is, under the conversion of
      the field that reads it, the number to within half a factor; and it is one the
      database declares. */
  lemma NumberBack(fl: Floats, value: u64 -> real, m: Message, req: request, mux: Option<nat>, d: bytes,
                   fields: seq<Field>, at: seq<Option<nat>>, b: Records.Batch, i: nat, axis: bytes, j: nat)
    requires Read(fl, m, req, mux, d, fields, at, b, i, axis) && InFrame(fl, m, req, mux, j)
    requires forall x :: value(fl.double(x)) == x
    requires var s := m.signals[j]; !s.float && s.values == map[] && s.name in req && req[s.name].Number?
    ensures |at| == |m.signals| && at[j].Some? && at[j].value < |fields| && Shows(b, i, at[j]).Some?
    ensures var s := m.signals[j];
      var y := Converted(value, fields[at[j].value].conv, Shows(b, i, at[j]).value);
      y.Some? && Abs(y.value - req[s.name].x) <= Abs(s.factor) * 0.5 && Declared(s, req[s.name].x)
  {
    hide *;
    ReadIs(fl, m, req, mux, d, fields, at, b, i, axis, j);
    ReadsRaw(fl, m, req, mux, d, fields, at, b, i, axis, j);
    var s := m.signals[j];
    var x := req[s.name].x;
    NumberScales(fl, s, req);
    NumberRaw(fl, s, x);
    ShowsInteger(b, i, at[j], s, Scaled(fl, s, x));
    FieldConverts(fl, value, m, mux, fields, at, j);
    ConvertedIs(value, fields[at[j].value].conv, s, Scaled(fl, s, x).n);
  }

  lemma NumberRaw(fl: Floats, s: Signal, x: real)
    requires !s.float && Scaled(fl, s, x).Bits?
    ensures 0 < s.length <= 64 && Scaled(fl, s, x).n < Pow2(s.length) && Declared(s, x)
    ensures Abs(Physical(s, Scaled(fl, s, x).n) - x) <= Abs(s.factor) * 0.5
  {
    HalfStep(fl, s, x);
    hide FitRaw;
    hide Integer;
    hide Pow2;
    var t := 0.000000001 * Larger(1.0, Larger(Abs(s.min), Abs(s.max)));
    assert Slack(s, t);
  }

  lemma FieldConverts(fl: Floats, value: u64 -> real, m: Message, mux: Option<nat>, fields: seq<Field>, at: seq<Option<nat>>, j: nat)
    requires Filled(fl, m, mux, fields, at, |m.signals|) && j < |m.signals| && |at| == |m.signals| && at[j].Some?
    requires m.signals[j].values == map[] && forall x :: value(fl.double(x)) == x
    ensures at[j].value < |fields|
    ensures var c, s := fields[at[j].value].conv, m.signals[j];
      (c == NoConversion && s.factor == 1.0 && s.offset == 0.0) ||
      (c.Linear? && value(c.a) == s.offset && value(c.b) == s.factor)
  {
    assert Placed(fl, m, mux, fields, at[j], |m.signals|, j);
    hide BitOffset;
    hide Carried;
    hide Holds;
  }

  lemma ConvertedIs(value: u64 -> real, c: Conversion, s: Signal, n: nat)
    requires 0 < s.length <= 64
    requires (c == NoConversion && s.factor == 1.0 && s.offset == 0.0) ||
      (c.Linear? && value(c.a) == s.offset && value(c.b) == s.factor)
    ensures Converted(value, c, Integer(s, n) as real) == Some(Physical(s, n))
  {
    hide Integer;
    var y := Integer(s, n) as real;
    Dbc.PhysicalIs(s, n, y);
    hide Physical;
    hide Line;
    if c.Linear? {
      LineIs(value(c.a), value(c.b), y, Physical(s, n));
    } else {
      SameLine(s.factor, s.offset, y, Physical(s, n));
    }
  }

  lemma LineIs(o: real, f: real, y: real, p: real)
    requires p == y * f + o
    ensures Line(o, f, y) == p
  {
  }

  lemma SameLine(f: real, o: real, y: real, p: real)
    requires p == y * f + o && f == 1.0 && o == 0.0
    ensures p == y
  {
  }

  // --- what can be answered --------------------------------------------------------------------------------

  /** A whole number the signal's bits can stand for. */
  predicate Carries(s: Signal, n: int) {
    0 < s.length <= 64 &&
    if s.signed then -(Pow2(s.length - 1) as int) <= n < Pow2(s.length - 1) else 0 <= n < Pow2(s.length)
  }

  /** A raw value the signal can stand for: a float of 32 bits or of 64, or a whole
      number of its width. */
  ghost predicate Takes(s: Signal, r: real) {
    if s.float then (s.length == 32 && -MAX_FLOAT32 <= r <= MAX_FLOAT32) || s.length == 64
    else exists n :: Stands(n, r) && Carries(s, n)
  }

  predicate Stands(n: int, r: real) { n as real == r }

  /** `n` is the whole number nearest to `r`, and of two the one further from zero. */
  predicate Nearest(n: int, r: real) {
    var d := n as real - r;
    -0.5 <= d <= 0.5 && (d == 0.5 ==> r > 0.0) && (d == -0.5 ==> r < 0.0)
  }

  ghost predicate TakesNumber(s: Signal, x: real) {
    Declared(s, x) && s.factor != 0.0 &&
    var r := (x - s.offset) / s.factor;
    if s.float then Takes(s, r) else exists n :: Nearest(n, r) && Carries(s, n)
  }

  /** The first of the table's keys with this text. */
  ghost predicate FirstKey(s: Signal, name: bytes, k: u64) {
    k in s.values && s.values[k] == name && forall j :: j in s.values && j < k ==> s.values[j] != name
  }

  /** There is something to say: a start value, or what is asked, and the signal can say
      it. */
  ghost predicate Answerable(s: Signal, req: request) {
    if s.name !in req then s.initial.Some? && Takes(s, s.initial.value)
    else
      match req[s.name]
      case Named(name) => exists k :: FirstKey(s, name, k) && Takes(s, k as real)
      case Number(x) => TakesNumber(s, x)
      case Truth(t) => TakesNumber(s, if t then s.factor + s.offset else s.offset)
      case NotFinite => false
      case NotAValue => false
  }

  lemma FitTakes(fl: Floats, s: Signal, r: real)
    ensures FitRaw(fl, s, r).Some? <==> Takes(s, r)
  {
    if !s.float {
      if FitRaw(fl, s, r).Some? {
        assert Stands(r.Floor, r) && Carries(s, r.Floor);
      }
      if Takes(s, r) {
        var n :| Stands(n, r) && Carries(s, n);
        assert r.Floor == n;
      }
    }
  }

  lemma DeclaredIs(s: Signal, x: real)
    ensures InRange(s, x) <==> Declared(s, x)
  {
    var t := 0.000000001 * Larger(1.0, Larger(Abs(s.min), Abs(s.max)));
    assert Slack(s, t);
    if Declared(s, x) && !(s.min == 0.0 && s.max == 0.0) {
      var u :| Slack(s, u) && s.min - u <= x <= s.max + u;
      assert u == t;
    }
  }

  lemma RoundNearest(r: real, n: int)
    ensures Nearest(n, r) <==> n == Round(r)
  {
  }

  lemma ScaledTakes(fl: Floats, s: Signal, x: real)
    ensures Scaled(fl, s, x).Bits? <==> TakesNumber(s, x)
  {
    hide FitRaw;
    hide Takes;
    hide InRange;
    hide Declared;
    hide Round;
    hide Nearest;
    DeclaredIs(s, x);
    if s.factor != 0.0 {
      var r := (x - s.offset) / s.factor;
      FitTakes(fl, s, if s.float then r else Round(r) as real);
      WholeTakes(s, Round(r));
      RoundNearest(r, Round(r));
      forall n ensures Nearest(n, r) <==> n == Round(r) { RoundNearest(r, n); }
    }
  }

  lemma WholeTakes(s: Signal, n: int)
    ensures !s.float ==> (Takes(s, n as real) <==> Carries(s, n))
  {
    assert Stands(n, n as real);
    if !s.float && Takes(s, n as real) {
      var k :| Stands(k, n as real) && Carries(s, k);
      assert k == n;
    }
  }

  lemma NamesFirst(s: Signal, name: bytes, k: u64)
    ensures Names(s, name, k) <==> FirstKey(s, name, k)
  {
  }

  lemma OneFirst(s: Signal, name: bytes, j: u64, k: u64)
    requires FirstKey(s, name, j) && FirstKey(s, name, k)
    ensures j == k
  {
  }

  /** A signal has bits for a frame exactly when there is something to say that it can
      say: nothing else is refused. */
  lemma Answered(fl: Floats, s: Signal, req: request)
    ensures RawFor(fl, s, req).Bits? <==> Answerable(s, req)
  {
    hide Takes;
    hide TakesNumber;
    hide FitRaw;
    hide Scaled;
    if s.name !in req {
      if s.initial.Some? { FitTakes(fl, s, s.initial.value); }
    } else {
      match req[s.name]
      case Named(name) => NamedAnswered(fl, s, req, name);
      case Number(x) => ScaledTakes(fl, s, x);
      case Truth(t) => ScaledTakes(fl, s, if t then s.factor + s.offset else s.offset);
      case NotFinite =>
      case NotAValue =>
    }
  }

  lemma NamedAnswered(fl: Floats, s: Signal, req: request, name: bytes)
    requires s.name in req && req[s.name] == Named(name)
    ensures RawFor(fl, s, req).Bits? <==> exists k :: FirstKey(s, name, k) && Takes(s, k as real)
  {
    hide Takes;
    hide FitRaw;
    hide FirstKey;
    hide Names;
    forall k ensures Names(s, name, k) <==> FirstKey(s, name, k) { NamesFirst(s, name, k); }
    if exists k :: Names(s, name, k) {
      var k :| Names(s, name, k);
      forall j | Names(s, name, j) ensures j == k { OneFirst(s, name, j, k); }
      FitTakes(fl, s, k as real);
    }
  }

  // --- floats ---------------------------------------------------------------------------------------------

  /** The bits of a float in the signal's width. */
  function FloatBits(fl: Floats, s: Signal, x: real): nat { if s.length == 32 then fl.single(x) else fl.double(x) }

  /** A number asked of a float signal is read as the float that scales to it. */
  lemma FloatBack(fl: Floats, m: Message, req: request, mux: Option<nat>, d: bytes,
                  fields: seq<Field>, at: seq<Option<nat>>, b: Records.Batch, i: nat, axis: bytes, j: nat) returns (y: real)
    requires Read(fl, m, req, mux, d, fields, at, b, i, axis) && InFrame(fl, m, req, mux, j)
    requires var s := m.signals[j]; s.float && s.name in req && req[s.name].Number?
    ensures |at| == |m.signals| && at[j].Some?
    ensures var s := m.signals[j];
      (s.length == 32 || s.length == 64) && Line(s.offset, s.factor, y) == req[s.name].x && Declared(s, req[s.name].x) &&
      Records.Raw(b, i, at[j].value) == Records.Value(Records.Float(FloatBits(fl, s, y), s.length))
  {
    hide *;
    ReadsRaw(fl, m, req, mux, d, fields, at, b, i, axis, j);
    var s := m.signals[j];
    NumberScales(fl, s, req);
    y := FloatRaw(fl, s, req[s.name].x);
    FloatShown(b, i, at[j], s, Scaled(fl, s, req[s.name].x));
  }

  lemma FloatRaw(fl: Floats, s: Signal, x: real) returns (y: real)
    requires s.float && Scaled(fl, s, x).Bits?
    ensures (s.length == 32 || s.length == 64) && Line(s.offset, s.factor, y) == x && Declared(s, x)
    ensures Scaled(fl, s, x) == Bits(FloatBits(fl, s, y))
  {
    DeclaredIs(s, x);
    hide InRange;
    hide Declared;
    y := (x - s.offset) / s.factor;
    ScalesTo(s.factor, s.offset, x, y);
  }

  lemma ScalesTo(f: real, o: real, x: real, y: real)
    requires f != 0.0 && y == (x - o) / f
    ensures Line(o, f, y) == x
  {
  }

  lemma FloatShown(b: Records.Batch, i: nat, k: Option<nat>, s: Signal, raw: RawOutcome)
    requires ReadsBack(b, i, k, s, raw) && s.float
    ensures k.Some? && raw.Bits? && Records.Raw(b, i, k.value) == Records.Value(Records.Float(raw.n, s.length))
  {
    hide Records.Raw;
  }
}
