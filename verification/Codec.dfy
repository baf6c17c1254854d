/** The schema codec as the writer and the reader run it: appending to a buffer,
    and a decoder that gives up at the first damage. */
module Codec {
  import opened Bytes
  import opened Wire
  import opened Format

  /** `b` followed by `rest` is the whole payload. */
  ghost predicate Upto(b: bytes, rest: bytes, whole: bytes) { b + rest == whole }

  lemma Advance(b: bytes, piece: bytes, rest: bytes, whole: bytes)
    requires Upto(b, piece + rest, whole)
    ensures Upto(b + piece, rest, whole)
  {
    Assoc(b, piece, rest);
  }

  lemma AdvanceStr(b: bytes, v: bytes, rest: bytes, whole: bytes)
    requires Upto(b, PutStr(v, rest), whole)
    ensures Upto(b + PutStr(v, []), rest, whole)
  {
    StrTail(v, rest);
    Advance(b, PutStr(v, []), rest, whole);
  }

  lemma AdvanceKv(b: bytes, m: kvmap, rest: bytes, whole: bytes)
    requires Upto(b, PutKv(m, rest), whole)
    ensures Upto(b + PutKv(m, []), rest, whole)
  {
    KvTail(m, rest);
    Advance(b, PutKv(m, []), rest, whole);
  }

  method AppendByte(e: Buf, v: byte, ghost rest: bytes, ghost whole: bytes)
    requires Upto(e.b, [v] + rest, whole)
    modifies e
    ensures Upto(e.b, rest, whole)
  {
    Advance(e.b, [v], rest, whole);
    assert LE(1, v) == [v];
    e.Int(1, v);
  }

  method AppendInt(e: Buf, n: nat, v: nat, ghost rest: bytes, ghost whole: bytes)
    requires Upto(e.b, LE(n, v) + rest, whole)
    modifies e
    ensures Upto(e.b, rest, whole)
  {
    Advance(e.b, LE(n, v), rest, whole);
    e.Int(n, v);
  }

  method AppendStr(e: Buf, v: bytes, ghost rest: bytes, ghost whole: bytes)
    requires Upto(e.b, PutStr(v, rest), whole)
    modifies e
    ensures Upto(e.b, rest, whole)
  {
    AdvanceStr(e.b, v, rest, whole);
    e.Str(v);
  }

  method AppendKv(e: Buf, m: kvmap, ghost rest: bytes, ghost whole: bytes)
    requires Upto(e.b, PutKv(m, rest), whole)
    modifies e
    ensures Upto(e.b, rest, whole)
  {
    AdvanceKv(e.b, m, rest, whole);
    e.Kv(m);
  }

  method AppendNums(e: Buf, ns: seq<u64>, ghost rest: bytes, ghost whole: bytes)
    requires Upto(e.b, PutNums(ns, rest), whole)
    modifies e
    ensures Upto(e.b, rest, whole)
  {
    assert ns[0..] == ns;
    for i := 0 to |ns|
      invariant Upto(e.b, PutNums(ns[i..], rest), whole)
    {
      assert ns[i..][1..] == ns[i + 1..];
      AppendInt(e, 8, ns[i], PutNums(ns[i + 1..], rest), whole);
    }
    assert ns[|ns|..] == [];
  }

  method AppendRows(e: Buf, rows: seq<Row>, two: bool, text: bool, ghost rest: bytes, ghost whole: bytes)
    requires Upto(e.b, PutRows(rows, two, text, rest), whole)
    modifies e
    ensures Upto(e.b, rest, whole)
  {
    assert rows[0..] == rows;
    for i := 0 to |rows|
      invariant Upto(e.b, PutRows(rows[i..], two, text, rest), whole)
    {
      assert rows[i..][1..] == rows[i + 1..];
      var r := rows[i];
      ghost var after := PutRows(rows[i + 1..], two, text, rest);
      ghost var t := if text then PutStr(r.text, after) else after;
      AppendInt(e, 8, r.x, if two then LE(8, r.y) + t else t, whole);
      if two { AppendInt(e, 8, r.y, t, whole); }
      if text { AppendStr(e, r.text, after, whole); }
    }
    assert rows[|rows|..] == [];
  }

  method AppendConversion(e: Buf, c: Conversion, ghost rest: bytes, ghost whole: bytes)
    requires Upto(e.b, PutConversion(c, rest), whole)
    modifies e
    ensures Upto(e.b, rest, whole)
  {
    AppendByte(e, Kind(c), PutConversionBody(c, rest), whole);
    match c {
      case NoConversion =>
      case Identity =>
      case Linear(a, b) => AppendNums(e, [a, b], rest, whole);
      case Rational(p) => AppendNums(e, p, rest, whole);
      case Table(rows, _) =>
        AppendInt(e, 4, |rows|, PutRows(rows, true, false, rest), whole);
        AppendRows(e, rows, true, false, rest, whole);
      case ValueToText(rows, d) =>
        AppendInt(e, 4, |rows|, PutRows(rows, false, true, PutStr(d, rest)), whole);
        AppendRows(e, rows, false, true, PutStr(d, rest), whole);
        AppendStr(e, d, rest, whole);
      case RangeToText(rows, d) =>
        AppendInt(e, 4, |rows|, PutRows(rows, true, true, PutStr(d, rest)), whole);
        AppendRows(e, rows, true, true, PutStr(d, rest), whole);
        AppendStr(e, d, rest, whole);
    }
  }

  method AppendField(e: Buf, f: Field, ghost rest: bytes, ghost whole: bytes)
    requires Upto(e.b, PutField(f, rest), whole)
    modifies e
    ensures Upto(e.b, rest, whole)
  {
    ghost var t6 := PutFieldTail(f, rest);
    ghost var t5 := [Flags(f)] + t6;
    var order: byte := if f.bigEndian then 1 else 0;
    ghost var t4 := [order] + t5;
    ghost var t3 := [f.dataType] + t4;
    ghost var t2 := LE(4, f.bitWidth) + t3;
    AppendStr(e, f.name, LE(4, f.bitOffset) + t2, whole);
    AppendInt(e, 4, f.bitOffset, t2, whole);
    AppendInt(e, 4, f.bitWidth, t3, whole);
    AppendByte(e, f.dataType, t4, whole);
    AppendByte(e, order, t5, whole);
    AppendByte(e, Flags(f), t6, whole);
    ghost var k := PutKv(f.meta, rest);
    ghost var g := PutGuard(f, k);
    AppendStr(e, f.unit, PutStr(f.desc, PutConversion(f.conv, g)), whole);
    AppendStr(e, f.desc, PutConversion(f.conv, g), whole);
    AppendConversion(e, f.conv, g, whole);
    if f.guarded {
      AppendInt(e, 2, f.guardField, LE(8, f.guardValue) + k, whole);
      AppendInt(e, 8, f.guardValue, k, whole);
    }
    AppendKv(e, f.meta, rest, whole);
  }

  /** The SCHEMA payload. */
  method EncodeSchema(s: Schema) returns (b: bytes)
    ensures b == PutSchema(s)
  {
    var e := new Buf();
    ghost var whole := PutSchema(s);
    ghost var t7 := PutAxis(s);
    ghost var t6 := [0] + t7;
    ghost var t5 := [s.axisExp] + t6;
    ghost var t4 := [s.axisMode] + t5;
    ghost var t3 := [s.axisKind] + t4;
    ghost var t2 := LE(4, s.recordBits) + t3;
    Advance([], s.uuid, PutStr(s.name, t2), whole);
    e.Raw(s.uuid);
    AppendStr(e, s.name, t2, whole);
    AppendInt(e, 4, s.recordBits, t3, whole);
    AppendByte(e, s.axisKind, t4, whole);
    AppendByte(e, s.axisMode, t5, whole);
    AppendByte(e, s.axisExp, t6, whole);
    AppendByte(e, 0, t7, whole);
    AppendAxis(e, s, whole);
    b := e.b;
    assert b + [] == b;
  }

  method AppendAxis(e: Buf, s: Schema, ghost whole: bytes)
    requires Upto(e.b, PutAxis(s), whole)
    modifies e
    ensures Upto(e.b, [], whole)
  {
    ghost var k := PutKv(s.meta, []);
    ghost var t4 := LE(2, |s.fields|) + PutFields(s.fields, k);
    ghost var t3 := LE(2, s.axisField) + t4;
    ghost var t2 := LE(8, s.axisScale) + t3;
    AppendStr(e, s.axisUnit, LE(8, s.axisStep) + t2, whole);
    AppendInt(e, 8, s.axisStep, t2, whole);
    AppendInt(e, 8, s.axisScale, t3, whole);
    AppendInt(e, 2, s.axisField, t4, whole);
    AppendInt(e, 2, |s.fields|, PutFields(s.fields, k), whole);
    assert s.fields[0..] == s.fields;
    for i := 0 to |s.fields|
      invariant Upto(e.b, PutFields(s.fields[i..], k), whole)
    {
      assert s.fields[i..][1..] == s.fields[i + 1..];
      AppendField(e, s.fields[i], PutFields(s.fields[i + 1..], k), whole);
    }
    assert s.fields[|s.fields|..] == [];
    AppendKv(e, s.meta, [], whole);
  }

  // --- decoding ---------------------------------------------------------------------

  method ReadU8(d: Dec) returns (v: byte)
    requires d.Valid()
    modifies d
    ensures d.Valid() && Took(old(d.Left()), TakeU8(old(d.Ahead())), v, d.Left())
  {
    ghost var s := d.Ahead();
    WidthBounds();
    v := d.Int(1);
    assert s != [] ==> s[..1] == [s[0]] && FromLE(s[..1][1..]) == 0;
  }

  method ReadU16(d: Dec) returns (v: u16)
    requires d.Valid()
    modifies d
    ensures d.Valid() && Took(old(d.Left()), TakeU16(old(d.Ahead())), v, d.Left())
  {
    WidthBounds();
    v := d.Int(2);
  }

  method ReadU32(d: Dec) returns (v: u32)
    requires d.Valid()
    modifies d
    ensures d.Valid() && Took(old(d.Left()), TakeU32(old(d.Ahead())), v, d.Left())
  {
    WidthBounds();
    v := d.Int(4);
  }

  method ReadU64(d: Dec) returns (v: u64)
    requires d.Valid()
    modifies d
    ensures d.Valid() && Took(old(d.Left()), TakeU64(old(d.Ahead())), v, d.Left())
  {
    WidthBounds();
    v := d.Int(8);
  }

  method ReadNums(d: Dec, n: nat) returns (ns: seq<u64>)
    requires d.Valid()
    modifies d
    ensures d.Valid() && Took(old(d.Left()), TakeNums(n, old(d.Ahead()), []), ns, d.Left())
  {
    ns := [];
    ghost var whole := TakeNums(n, d.Ahead(), []);
    var k := 0;
    while k < n && !d.err
      invariant d.Valid() && k <= n
      invariant old(d.Left()) == None ==> d.Left() == None
      invariant old(d.Left()).Some? && d.Left() == None ==> whole == Bad
      invariant d.Left().Some? ==> TakeNums(n - k, d.Ahead(), ns) == whole
      decreases n - k
    {
      var v := ReadU64(d);
      ns := ns + [v];
      k := k + 1;
    }
  }

  method ReadRows(d: Dec, two: bool, text: bool) returns (rows: seq<Row>)
    requires d.Valid()
    modifies d
    ensures d.Valid() && Took(old(d.Left()), TakeCounted(two, text, old(d.Ahead())), rows, d.Left())
  {
    var n := ReadU32(d);
    rows := ReadCounted(d, n, two, text);
  }

  method ReadCounted(d: Dec, n: nat, two: bool, text: bool) returns (rows: seq<Row>)
    requires d.Valid()
    modifies d
    ensures d.Valid() && Took(old(d.Left()), TakeRows(n, two, text, old(d.Ahead()), []), rows, d.Left())
  {
    rows := [];
    ghost var whole := TakeRows(n, two, text, d.Ahead(), []);
    var k := 0;
    while k < n && !d.err
      invariant d.Valid() && k <= n
      invariant old(d.Left()) == None ==> d.Left() == None
      invariant old(d.Left()).Some? && d.Left() == None ==> whole == Bad
      invariant d.Left().Some? ==> TakeRows(n - k, two, text, d.Ahead(), rows) == whole
      decreases n - k
    {
      RowsUnroll(n - k, two, text, d.Ahead(), rows);
      var r := ReadRow(d, two, text);
      rows := rows + [r];
      k := k + 1;
    }
  }

  lemma RowsUnroll(n: nat, two: bool, text: bool, s: bytes, acc: seq<Row>)
    requires n > 0
    ensures TakeRow(two, text, s) == Bad ==> TakeRows(n, two, text, s, acc) == Bad
    ensures TakeRow(two, text, s).Good? ==>
      TakeRows(n, two, text, s, acc)
      == TakeRows(n - 1, two, text, TakeRow(two, text, s).rest, acc + [TakeRow(two, text, s).value])
  {
  }

  lemma FieldsUnroll(n: nat, s: bytes, acc: seq<Field>)
    requires n > 0
    ensures TakeField(s) == Bad ==> TakeFields(n, s, acc) == Bad
    ensures TakeField(s).Good? ==>
      TakeFields(n, s, acc) == TakeFields(n - 1, TakeField(s).rest, acc + [TakeField(s).value])
  {
  }

  method ReadRow(d: Dec, two: bool, text: bool) returns (r: Row)
    requires d.Valid()
    modifies d
    ensures d.Valid() && Took(old(d.Left()), TakeRow(two, text, old(d.Ahead())), r, d.Left())
  {
    var x := ReadU64(d);
    var y: u64, t: bytes := 0, [];
    if two { y := ReadU64(d); }
    if text { t := d.Str(); }
    r := Row(x, y, t);
  }

  method ReadConversion(d: Dec) returns (c: Conversion)
    requires d.Valid()
    modifies d
    ensures d.Valid() && Took(old(d.Left()), TakeConversion(old(d.Ahead())), c, d.Left())
  {
    c := Identity;
    var kind := ReadU8(d);
    if kind == 1 {
      var p := ReadNums(d, 2);
      if |p| == 2 { c := Linear(p[0], p[1]); } else { d.err := true; }
    } else if kind == 2 {
      var p := ReadNums(d, 6);
      c := Rational(p);
    } else if kind == 3 || kind == 4 {
      var rows := ReadRows(d, true, false);
      c := Table(rows, kind == 4);
    } else if kind == 5 {
      var rows := ReadRows(d, false, true);
      var t := d.Str();
      c := ValueToText(rows, t);
    } else if kind == 6 {
      var rows := ReadRows(d, true, true);
      var t := d.Str();
      c := RangeToText(rows, t);
    } else if kind != 0 {
      d.err := true;
    }
  }

  method ReadField(d: Dec) returns (f: Field)
    requires d.Valid()
    modifies d
    ensures d.Valid() && Took(old(d.Left()), TakeField(old(d.Ahead())), f, d.Left())
  {
    var name := d.Str();
    var off := ReadU32(d);
    var width := ReadU32(d);
    var ty := ReadU8(d);
    var be := ReadU8(d);
    var flags := ReadU8(d);
    f := ReadFieldTail(d, name, off, width, ty, be == 1, flags);
  }

  method ReadFieldTail(d: Dec, name: bytes, off: u32, width: u32, ty: byte, be: bool, flags: byte)
    returns (f: Field)
    requires d.Valid()
    modifies d
    ensures d.Valid() && Took(old(d.Left()), TakeFieldTail(name, off, width, ty, be, flags, old(d.Ahead())), f, d.Left())
  {
    var unit := d.Str();
    var desc := d.Str();
    var conv := ReadConversion(d);
    var guarded := flags / 2 % 2 == 1;
    var g: u16, v: u64 := 0, 0;
    if guarded {
      g := ReadU16(d);
      v := ReadU64(d);
    }
    var meta := d.Kv();
    f := Field(name, off, width, ty, be, flags % 2 == 1, guarded, flags / 4 % 2 == 1,
               unit, desc, conv, g, v, meta);
  }

  /** The schema a SCHEMA payload declares, or nothing if it is damaged. */
  method DecodeSchema(payload: bytes) returns (r: Option<Schema>)
    ensures r == match TakeSchema(payload) case Bad => None case Good(s, _) => Some(s)
  {
    hide TakeKinds;
    hide TakeStr;
    hide TakeRaw;
    HeadAndKinds(payload);
    hide TakeSchema;
    var d := new Dec(payload);
    var uuid := d.Raw(16);
    var name := d.Str();
    var bits := ReadU32(d);
    var s := ReadKinds(d, uuid, name, bits);
    r := if d.err then None else Some(s);
  }

  function TakeKinds(uuid: bytes, name: bytes, bits: u32, s: bytes): Parsed<Schema> {
    var (kind, s1) :- TakeU8(s);
    var (mode, s2) :- TakeU8(s1);
    var (exp, s3) :- TakeU8(s2);
    var (_, s4) :- TakeU8(s3);
    TakeAxis(uuid, name, bits, kind, mode, exp, s4)
  }

  function TakeHead(s: bytes): Parsed<Schema> {
    var (uuid, s1) :- TakeRaw(16, s);
    var (name, s2) :- TakeStr(s1);
    var (bits, s3) :- TakeU32(s2);
    TakeKinds(uuid, name, bits, s3)
  }

  lemma HeadAndKinds(s: bytes)
    ensures TakeSchema(s) == TakeHead(s)
  {
    hide TakeAxis;
    hide TakeStr;
    hide TakeU32;
    hide TakeU8;
  }

  method ReadKinds(d: Dec, uuid: bytes, name: bytes, bits: u32) returns (s: Schema)
    requires d.Valid()
    modifies d
    ensures d.Valid() && Took(old(d.Left()), TakeKinds(uuid, name, bits, old(d.Ahead())), s, d.Left())
  {
    hide TakeAxis;
    hide TakeU8;
    var kind := ReadU8(d);
    var mode := ReadU8(d);
    var exp := ReadU8(d);
    var _ := ReadU8(d);
    s := ReadAxis(d, uuid, name, bits, kind, mode, exp);
  }

  method ReadAxis(d: Dec, uuid: bytes, name: bytes, bits: u32, kind: byte, mode: byte, exp: byte)
    returns (s: Schema)
    requires d.Valid()
    modifies d
    ensures d.Valid() && Took(old(d.Left()), TakeAxis(uuid, name, bits, kind, mode, exp, old(d.Ahead())), s, d.Left())
  {
    var unit := d.Str();
    var step := ReadU64(d);
    var scale := ReadU64(d);
    var field := ReadU16(d);
    var n := ReadU16(d);
    var fields := ReadFields(d, n);
    var meta := d.Kv();
    s := Schema(uuid, name, bits, kind, mode, exp, unit, step, scale, field, fields, meta);
  }

  method ReadFields(d: Dec, n: nat) returns (fs: seq<Field>)
    requires d.Valid()
    modifies d
    ensures d.Valid() && Took(old(d.Left()), TakeFields(n, old(d.Ahead()), []), fs, d.Left())
  {
    hide TakeField;
    fs := [];
    ghost var whole := TakeFields(n, d.Ahead(), []);
    var k := 0;
    while k < n && !d.err
      invariant d.Valid() && k <= n
      invariant old(d.Left()) == None ==> d.Left() == None
      invariant old(d.Left()).Some? && d.Left() == None ==> whole == Bad
      invariant d.Left().Some? ==> TakeFields(n - k, d.Ahead(), fs) == whole
      decreases n - k
    {
      FieldsUnroll(n - k, d.Ahead(), fs);
      var f := ReadField(d);
      fs := fs + [f];
      k := k + 1;
    }
  }
}
