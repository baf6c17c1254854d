/** What a recording says: schemas, fields, conversions and runs, and the payload
    codecs of the frames that carry them. Floats are their 64 bits. */
module Format {
  import opened Bytes
  import opened Wire

  // --- entities --------------------------------------------------------------------

  const AXIS_TIME: byte := 0
  const AXIS_IMPLICIT: byte := 0
  const AXIS_EXPLICIT: byte := 1
  const AXIS_LOG: byte := 2

  const TYPE_UINT: byte := 0
  const TYPE_SINT: byte := 1
  const TYPE_FLOAT: byte := 2
  const TYPE_BOOL: byte := 3
  const TYPE_BYTES: byte := 4
  const TYPE_STRING: byte := 5
  const TYPE_COMPLEX: byte := 6

  /** One row of a conversion table: a key and a value, a key and a text, or a
      range and a text. What a kind of table does not use is zero. */
  datatype Row = Row(x: u64, y: u64, text: bytes)

  datatype Conversion =
    | NoConversion
    | Identity
    | Linear(a: u64, b: u64)
    | Rational(p: seq<u64>)
    | Table(rows: seq<Row>, interp: bool)
    | ValueToText(rows: seq<Row>, default: bytes)
    | RangeToText(rows: seq<Row>, default: bytes)

  datatype Field = Field(
    name: bytes, bitOffset: u32, bitWidth: u32, dataType: byte, bigEndian: bool,
    variable: bool, guarded: bool, hold: bool, unit: bytes, desc: bytes,
    conv: Conversion, guardField: u16, guardValue: u64, meta: kvmap)

  datatype Schema = Schema(
    uuid: bytes, name: bytes, recordBits: u32, axisKind: byte, axisMode: byte, axisExp: byte,
    axisUnit: bytes, axisStep: u64, axisScale: u64, axisField: u16, fields: seq<Field>, meta: kvmap)
  {
    /** The fixed portion of a record; the addition wraps as a u32 does. */
    function RecordBytes(): nat { ((recordBits + 7) % TWO32) / 8 }

    function VarCount(): nat { Variables(fields) }

    predicate KnownMode() { axisMode == AXIS_IMPLICIT || axisMode == AXIS_EXPLICIT || axisMode == AXIS_LOG }
  }

  /** A guard must name an exact, unguarded field that is not its own. */
  predicate GuardResolves(fs: seq<Field>, i: nat)
    requires i < |fs|
  {
    fs[i].guarded ==>
      fs[i].guardField < |fs| && fs[i].guardField != i &&
      var g := fs[fs[i].guardField]; g.dataType in {TYPE_UINT, TYPE_SINT, TYPE_BOOL} && !g.variable && !g.guarded
  }

  function Variables(fs: seq<Field>): nat {
    if fs == [] then 0 else (if fs[0].variable then 1 else 0) + Variables(fs[1..])
  }

  datatype Run = Run(id: u32, index: u32, params: kvmap)

  /** A schema as a reader knows it: no conversion is the identity, and an
      unguarded field's guard says nothing. */
  function NormConversion(c: Conversion): Conversion {
    if c == NoConversion then Identity else c
  }

  function NormField(f: Field): Field {
    f.(conv := NormConversion(f.conv),
       guardField := if f.guarded then f.guardField else 0,
       guardValue := if f.guarded then f.guardValue else 0)
  }

  function NormFields(fs: seq<Field>): (r: seq<Field>)
    ensures |r| == |fs|
    ensures forall i :: 0 <= i < |fs| ==> r[i] == NormField(fs[i])
  {
    if fs == [] then [] else [NormField(fs[0])] + NormFields(fs[1..])
  }

  function Norm(s: Schema): Schema { s.(fields := NormFields(s.fields)) }

  lemma {:induction false} NormVariables(fs: seq<Field>)
    ensures Variables(NormFields(fs)) == Variables(fs)
  {
    if fs != [] {
      NormVariables(fs[1..]);
      assert NormFields(fs)[1..] == NormFields(fs[1..]);
    }
  }

  // --- what fits the counts the wire has room for -------------------------------------

  predicate RowsFit(rows: seq<Row>, two: bool, text: bool) {
    |rows| < TWO32 &&
    forall r :: r in rows ==> StrFits(r.text) && (two || r.y == 0) && (text || r.text == [])
  }

  predicate ConversionFits(c: Conversion) {
    match c
    case NoConversion => true
    case Identity => true
    case Linear(_, _) => true
    case Rational(p) => |p| == 6
    case Table(rows, _) => RowsFit(rows, true, false)
    case ValueToText(rows, d) => RowsFit(rows, false, true) && StrFits(d)
    case RangeToText(rows, d) => RowsFit(rows, true, true) && StrFits(d)
  }

  predicate FieldFits(f: Field) {
    StrFits(f.name) && StrFits(f.unit) && StrFits(f.desc) && ConversionFits(f.conv) && KvFits(f.meta)
  }

  predicate SchemaFits(s: Schema) {
    |s.uuid| == 16 && StrFits(s.name) && StrFits(s.axisUnit) && |s.fields| < TWO16 && KvFits(s.meta) &&
    forall f :: f in s.fields ==> FieldFits(f)
  }

  predicate RunFits(r: Run) { KvFits(r.params) }

  // --- encoders --------------------------------------------------------------------

  function PutNums(ns: seq<u64>, tail: bytes): bytes {
    if ns == [] then tail else LE(8, ns[0]) + PutNums(ns[1..], tail)
  }

  function PutRows(rows: seq<Row>, two: bool, text: bool, tail: bytes): bytes {
    if rows == [] then tail
    else
      var r := rows[0];
      var rest := PutRows(rows[1..], two, text, tail);
      var t := if text then PutStr(r.text, rest) else rest;
      LE(8, r.x) + (if two then LE(8, r.y) + t else t)
  }

  function Kind(c: Conversion): byte {
    match c
    case NoConversion => 0
    case Identity => 0
    case Linear(_, _) => 1
    case Rational(_) => 2
    case Table(_, interp) => if interp then 4 else 3
    case ValueToText(_, _) => 5
    case RangeToText(_, _) => 6
  }

  function PutConversion(c: Conversion, tail: bytes): bytes { [Kind(c)] + PutConversionBody(c, tail) }

  function PutConversionBody(c: Conversion, tail: bytes): bytes {
    match c
    case NoConversion => tail
    case Identity => tail
    case Linear(a, b) => PutNums([a, b], tail)
    case Rational(p) => PutNums(p, tail)
    case Table(rows, _) => LE(4, |rows|) + PutRows(rows, true, false, tail)
    case ValueToText(rows, d) => LE(4, |rows|) + PutRows(rows, false, true, PutStr(d, tail))
    case RangeToText(rows, d) => LE(4, |rows|) + PutRows(rows, true, true, PutStr(d, tail))
  }

  function Flags(f: Field): byte {
    (if f.variable then 1 else 0) + (if f.guarded then 2 else 0) + (if f.hold then 4 else 0)
  }

  ghost function PutGuard(f: Field, tail: bytes): bytes {
    if f.guarded then LE(2, f.guardField) + (LE(8, f.guardValue) + tail) else tail
  }

  ghost function PutField(f: Field, tail: bytes): bytes {
    PutStr(f.name, LE(4, f.bitOffset) + (LE(4, f.bitWidth) +
      ([f.dataType] + ([if f.bigEndian then 1 else 0] + ([Flags(f)] + PutFieldTail(f, tail))))))
  }

  ghost function PutFieldTail(f: Field, tail: bytes): bytes {
    PutStr(f.unit, PutStr(f.desc, PutConversion(f.conv, PutGuard(f, PutKv(f.meta, tail)))))
  }

  ghost function PutFields(fs: seq<Field>, tail: bytes): bytes {
    if fs == [] then tail else PutField(fs[0], PutFields(fs[1..], tail))
  }

  ghost function PutSchema(s: Schema): bytes {
    s.uuid + PutStr(s.name, LE(4, s.recordBits) + ([s.axisKind] + ([s.axisMode] + ([s.axisExp] + ([0] +
      PutAxis(s))))))
  }

  ghost function PutAxis(s: Schema): bytes {
    PutStr(s.axisUnit, LE(8, s.axisStep) + (LE(8, s.axisScale) + (LE(2, s.axisField) +
      (LE(2, |s.fields|) + PutFields(s.fields, PutKv(s.meta, []))))))
  }

  ghost function PutRun(r: Run): bytes { LE(4, r.id) + (LE(4, r.index) + PutKv(r.params, [])) }

  // --- decoders --------------------------------------------------------------------

  function TakeU8(s: bytes): Parsed<byte> {
    if s == [] then Bad else Good(s[0], s[1..])
  }

  function TakeU16(s: bytes): (r: Parsed<u16>)
    ensures r == TakeInt(2, s)
  {
    if |s| < 2 then Bad else FromLEBound(s[..2]); WidthBounds(); Good(FromLE(s[..2]), s[2..])
  }

  function TakeU32(s: bytes): (r: Parsed<u32>)
    ensures r == TakeInt(4, s)
  {
    if |s| < 4 then Bad else FromLEBound(s[..4]); WidthBounds(); Good(FromLE(s[..4]), s[4..])
  }

  function TakeU64(s: bytes): (r: Parsed<u64>)
    ensures r == TakeInt(8, s)
  {
    if |s| < 8 then Bad else FromLEBound(s[..8]); WidthBounds(); Good(FromLE(s[..8]), s[8..])
  }

  function TakeNums(n: nat, s: bytes, acc: seq<u64>): Parsed<seq<u64>>
    decreases n
  {
    if n == 0 then Good(acc, s)
    else
      var (v, s1) :- TakeU64(s);
      TakeNums(n - 1, s1, acc + [v])
  }

  function TakeRow(two: bool, text: bool, s: bytes): Parsed<Row> {
    var (x, s1) :- TakeU64(s);
    var (y, s2) :- if two then TakeU64(s1) else Good(0, s1);
    var (t, s3) :- if text then TakeStr(s2) else Good([], s2);
    Good(Row(x, y, t), s3)
  }

  function TakeRows(n: nat, two: bool, text: bool, s: bytes, acc: seq<Row>): Parsed<seq<Row>>
    decreases n
  {
    if n == 0 then Good(acc, s)
    else
      var (r, s1) :- TakeRow(two, text, s);
      TakeRows(n - 1, two, text, s1, acc + [r])
  }

  function TakeCounted(two: bool, text: bool, s: bytes): Parsed<seq<Row>> {
    var (n, s1) :- TakeU32(s);
    TakeRows(n, two, text, s1, [])
  }

  function TakeConversion(s: bytes): Parsed<Conversion> {
    var (kind, s1) :- TakeU8(s);
    TakeConversionBody(kind, s1)
  }

  function TakeConversionBody(kind: byte, s: bytes): Parsed<Conversion> {
    match kind
    case 0 => Good(Identity, s)
    case 1 =>
      var (p, s1) :- TakeNums(2, s, []);
      if |p| == 2 then Good(Linear(p[0], p[1]), s1) else Bad
    case 2 =>
      var (p, s1) :- TakeNums(6, s, []);
      Good(Rational(p), s1)
    case 3 =>
      var (rows, s1) :- TakeCounted(true, false, s);
      Good(Table(rows, false), s1)
    case 4 =>
      var (rows, s1) :- TakeCounted(true, false, s);
      Good(Table(rows, true), s1)
    case 5 =>
      var (rows, s1) :- TakeCounted(false, true, s);
      var (d, s2) :- TakeStr(s1);
      Good(ValueToText(rows, d), s2)
    case 6 =>
      var (rows, s1) :- TakeCounted(true, true, s);
      var (d, s2) :- TakeStr(s1);
      Good(RangeToText(rows, d), s2)
    case _ => Bad
  }

  function TakeGuard(guarded: bool, s: bytes): Parsed<(u16, u64)> {
    if !guarded then Good((0, 0), s)
    else
      var (g, s1) :- TakeU16(s);
      var (v, s2) :- TakeU64(s1);
      Good((g, v), s2)
  }

  function TakeField(s: bytes): Parsed<Field> {
    var (name, s1) :- TakeStr(s);
    var (off, s2) :- TakeU32(s1);
    var (width, s3) :- TakeU32(s2);
    var (ty, s4) :- TakeU8(s3);
    var (be, s5) :- TakeU8(s4);
    var (flags, s6) :- TakeU8(s5);
    TakeFieldTail(name, off, width, ty, be == 1, flags, s6)
  }

  function TakeFieldTail(name: bytes, off: u32, width: u32, ty: byte, be: bool, flags: byte, s: bytes):
    Parsed<Field>
  {
    var (unit, s1) :- TakeStr(s);
    var (desc, s2) :- TakeStr(s1);
    var (conv, s3) :- TakeConversion(s2);
    var guarded := flags / 2 % 2 == 1;
    var (g, s4) :- TakeGuard(guarded, s3);
    var (meta, s5) :- TakeKv(s4);
    Good(Field(name, off, width, ty, be, flags % 2 == 1, guarded, flags / 4 % 2 == 1,
               unit, desc, conv, g.0, g.1, meta), s5)
  }

  function TakeFields(n: nat, s: bytes, acc: seq<Field>): Parsed<seq<Field>>
    decreases n
  {
    if n == 0 then Good(acc, s)
    else
      var (f, s1) :- TakeField(s);
      TakeFields(n - 1, s1, acc + [f])
  }

  function TakeSchema(s: bytes): Parsed<Schema> {
    var (uuid, s1) :- TakeRaw(16, s);
    var (name, s2) :- TakeStr(s1);
    var (bits, s3) :- TakeU32(s2);
    var (kind, s4) :- TakeU8(s3);
    var (mode, s5) :- TakeU8(s4);
    var (exp, s6) :- TakeU8(s5);
    var (_, s7) :- TakeU8(s6);
    TakeAxis(uuid, name, bits, kind, mode, exp, s7)
  }

  function TakeAxis(uuid: bytes, name: bytes, bits: u32, kind: byte, mode: byte, exp: byte, s: bytes):
    Parsed<Schema>
  {
    var (unit, s1) :- TakeStr(s);
    var (step, s2) :- TakeU64(s1);
    var (scale, s3) :- TakeU64(s2);
    var (field, s4) :- TakeU16(s3);
    var (n, s5) :- TakeU16(s4);
    var (fields, s6) :- TakeFields(n, s5, []);
    var (meta, s7) :- TakeKv(s6);
    Good(Schema(uuid, name, bits, kind, mode, exp, unit, step, scale, field, fields, meta), s7)
  }

  function TakeRun(s: bytes): Parsed<Run> {
    var (id, s1) :- TakeU32(s);
    var (index, s2) :- TakeU32(s1);
    var (params, s3) :- TakeKv(s2);
    Good(Run(id, index, params), s3)
  }

  // --- decoding undoes encoding ------------------------------------------------------

  lemma Snoc<T>(a: seq<T>, x: T, b: seq<T>)
    ensures (a + [x]) + b == a + ([x] + b)
  {
  }

  lemma U8Back(v: byte, tail: bytes)
    ensures TakeU8([v] + tail) == Good(v, tail)
  {
    assert ([v] + tail)[1..] == tail;
  }

  lemma U16Back(v: u16, tail: bytes)
    ensures TakeU16(LE(2, v) + tail) == Good(v, tail)
  { WidthBounds(); IntBack(2, v, tail); }

  lemma U32Back(v: u32, tail: bytes)
    ensures TakeU32(LE(4, v) + tail) == Good(v, tail)
  { WidthBounds(); IntBack(4, v, tail); }

  lemma U64Back(v: u64, tail: bytes)
    ensures TakeU64(LE(8, v) + tail) == Good(v, tail)
  { WidthBounds(); IntBack(8, v, tail); }

  lemma {:induction false} NumsBack(ns: seq<u64>, acc: seq<u64>, tail: bytes)
    ensures TakeNums(|ns|, PutNums(ns, tail), acc) == Good(acc + ns, tail)
    decreases |ns|
  {
    if ns == [] {
      assert acc + ns == acc;
    } else {
      U64Back(ns[0], PutNums(ns[1..], tail));
      NumsBack(ns[1..], acc + [ns[0]], tail);
      assert acc + [ns[0]] + ns[1..] == acc + ns;
    }
  }

  lemma {:induction false} RowsBack(rows: seq<Row>, two: bool, text: bool, acc: seq<Row>, tail: bytes)
    requires RowsFit(rows, two, text)
    ensures TakeRows(|rows|, two, text, PutRows(rows, two, text, tail), acc) == Good(acc + rows, tail)
    decreases |rows|
  {
    if rows == [] {
      assert acc + rows == acc;
    } else {
      var rest := PutRows(rows[1..], two, text, tail);
      RowThenRest(rows, two, text, tail);
      RowsBack(rows[1..], two, text, acc + [rows[0]], tail);
      Snoc(acc, rows[0], rows[1..]);
      assert [rows[0]] + rows[1..] == rows;
      assert TakeRows(|rows|, two, text, PutRows(rows, two, text, tail), acc)
          == TakeRows(|rows| - 1, two, text, rest, acc + [rows[0]]);
    }
  }

  lemma RowThenRest(rows: seq<Row>, two: bool, text: bool, tail: bytes)
    requires rows != [] && RowsFit(rows, two, text)
    ensures TakeRow(two, text, PutRows(rows, two, text, tail))
         == Good(rows[0], PutRows(rows[1..], two, text, tail))
  {
    var r, rest := rows[0], PutRows(rows[1..], two, text, tail);
    assert r in rows;
    var t := if text then PutStr(r.text, rest) else rest;
    U64Back(r.x, if two then LE(8, r.y) + t else t);
    U64Back(r.y, t);
    if text { StrBack(r.text, rest); }
  }

  lemma CountedBack(rows: seq<Row>, two: bool, text: bool, tail: bytes)
    requires RowsFit(rows, two, text)
    ensures TakeCounted(two, text, LE(4, |rows|) + PutRows(rows, two, text, tail)) == Good(rows, tail)
  {
    U32Back(|rows|, PutRows(rows, two, text, tail));
    RowsBack(rows, two, text, [], tail);
    assert [] + rows == rows;
  }

  lemma ConversionBack(c: Conversion, tail: bytes)
    requires ConversionFits(c)
    ensures TakeConversion(PutConversion(c, tail)) == Good(NormConversion(c), tail)
  {
    U8Back(Kind(c), PutConversionBody(c, tail));
    match c {
      case NoConversion =>
      case Identity =>
      case Linear(a, b) =>
        NumsBack([a, b], [], tail);
        assert [] + [a, b] == [a, b];
      case Rational(p) =>
        NumsBack(p, [], tail);
        assert [] + p == p;
      case Table(rows, interp) =>
        CountedBack(rows, true, false, tail);
      case ValueToText(rows, d) =>
        CountedBack(rows, false, true, PutStr(d, tail));
        StrBack(d, tail);
      case RangeToText(rows, d) =>
        CountedBack(rows, true, true, PutStr(d, tail));
        StrBack(d, tail);
    }
  }

  lemma GuardBack(f: Field, tail: bytes)
    ensures TakeGuard(f.guarded, PutGuard(f, tail)) == Good((NormField(f).guardField, NormField(f).guardValue), tail)
  {
    if f.guarded {
      U16Back(f.guardField, LE(8, f.guardValue) + tail);
      U64Back(f.guardValue, tail);
    }
  }

  lemma FlagsBack(f: Field)
    ensures Flags(f) % 2 == 1 <==> f.variable
    ensures Flags(f) / 2 % 2 == 1 <==> f.guarded
    ensures Flags(f) / 4 % 2 == 1 <==> f.hold
  {
  }

  lemma FieldBack(f: Field, tail: bytes)
    requires FieldFits(f)
    ensures TakeField(PutField(f, tail)) == Good(NormField(f), tail)
  {
    var t6 := PutFieldTail(f, tail);
    var t5 := [Flags(f)] + t6;
    var t4 := [if f.bigEndian then 1 else 0] + t5;
    var t3 := [f.dataType] + t4;
    var t2 := LE(4, f.bitWidth) + t3;
    var t1 := LE(4, f.bitOffset) + t2;
    StrBack(f.name, t1);
    U32Back(f.bitOffset, t2);
    U32Back(f.bitWidth, t3);
    U8Back(f.dataType, t4);
    U8Back(if f.bigEndian then 1 else 0, t5);
    U8Back(Flags(f), t6);
    FieldTailBack(f, tail);
    assert PutField(f, tail) == PutStr(f.name, t1);
  }

  lemma FieldTailBack(f: Field, tail: bytes)
    requires FieldFits(f)
    ensures TakeFieldTail(f.name, f.bitOffset, f.bitWidth, f.dataType, f.bigEndian, Flags(f), PutFieldTail(f, tail))
         == Good(NormField(f), tail)
  {
    var t4 := PutKv(f.meta, tail);
    var t3 := PutGuard(f, t4);
    var t2 := PutConversion(f.conv, t3);
    StrBack(f.unit, PutStr(f.desc, t2));
    StrBack(f.desc, t2);
    ConversionBack(f.conv, t3);
    FlagsBack(f);
    GuardBack(f, t4);
    KvBack(f.meta, tail);
  }

  lemma {:induction false} FieldsBack(fs: seq<Field>, acc: seq<Field>, tail: bytes)
    requires forall f :: f in fs ==> FieldFits(f)
    ensures TakeFields(|fs|, PutFields(fs, tail), acc) == Good(acc + NormFields(fs), tail)
    decreases |fs|
  {
    if fs == [] {
      assert acc + [] == acc;
    } else {
      var rest := PutFields(fs[1..], tail);
      FieldBack(fs[0], rest);
      assert TakeFields(|fs|, PutFields(fs, tail), acc) == TakeFields(|fs| - 1, rest, acc + [NormField(fs[0])]);
      FieldsBack(fs[1..], acc + [NormField(fs[0])], tail);
      Snoc(acc, NormField(fs[0]), NormFields(fs[1..]));
    }
  }

  /** A reader learns every schema as it was written, up to `Norm`. */
  lemma SchemaBack(s: Schema)
    requires SchemaFits(s)
    ensures TakeSchema(PutSchema(s)) == Good(Norm(s), [])
  {
    var t7 := PutAxis(s);
    var t6 := [0] + t7;
    var t5 := [s.axisExp] + t6;
    var t4 := [s.axisMode] + t5;
    var t3 := [s.axisKind] + t4;
    var t2 := LE(4, s.recordBits) + t3;
    RawBack(s.uuid, PutStr(s.name, t2));
    StrBack(s.name, t2);
    U32Back(s.recordBits, t3);
    U8Back(s.axisKind, t4);
    U8Back(s.axisMode, t5);
    U8Back(s.axisExp, t6);
    U8Back(0, t7);
    AxisBack(s);
    assert PutSchema(s) == s.uuid + PutStr(s.name, t2);
  }

  lemma AxisBack(s: Schema)
    requires SchemaFits(s)
    ensures TakeAxis(s.uuid, s.name, s.recordBits, s.axisKind, s.axisMode, s.axisExp, PutAxis(s))
         == Good(Norm(s), [])
  {
    hide LE;
    hide FromLE;
    hide TakeFields;
    hide PutFields;
    hide NormFields;
    hide PutKv;
    hide TakeKv;
    var t6 := PutKv(s.meta, []);
    var t5 := PutFields(s.fields, t6);
    var t4 := LE(2, |s.fields|) + t5;
    var t3 := LE(2, s.axisField) + t4;
    var t2 := LE(8, s.axisScale) + t3;
    var t1 := LE(8, s.axisStep) + t2;
    StrBack(s.axisUnit, t1);
    U64Back(s.axisStep, t2);
    U64Back(s.axisScale, t3);
    U16Back(s.axisField, t4);
    U16Back(|s.fields|, t5);
    FieldsBack(s.fields, [], t6);
    assert [] + NormFields(s.fields) == NormFields(s.fields);
    KvBack(s.meta, []);
  }

  lemma RunBack(r: Run)
    requires RunFits(r)
    ensures TakeRun(PutRun(r)) == Good(r, [])
  {
    U32Back(r.id, LE(4, r.index) + PutKv(r.params, []));
    U32Back(r.index, PutKv(r.params, []));
    KvBack(r.params, []);
  }
}
