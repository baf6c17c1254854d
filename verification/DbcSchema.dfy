/** The stream schema of a CAN message, and why a reader of it recovers what the
    encoder was given: same bits, same order, same guards. */
module DbcSchema {
  import opened Bytes
  import opened BitOps
  import opened Wire
  import opened Format
  import opened Extract
  import opened Dbc
  import opened DbcEncode
  import Records
  import Sample

  /** Every record starts with its tick count. */
  const AXIS_BITS: nat := 64

  const AXIS_FIELD: Field := Field([], 0, 64, TYPE_SINT, false, false, false, false, [], [], NoConversion, 0, 0, map[])

  // --- one signal ---------------------------------------------------------------------------------

  function FieldType(s: Signal): byte {
    if s.float then TYPE_FLOAT
    else if s.signed then TYPE_SINT
    else if s.length == 1 then TYPE_BOOL
    else TYPE_UINT
  }

  function TextRows(fl: Floats, s: Signal, ks: seq<u64>): seq<Row>
    requires forall k :: k in ks ==> k in s.values
  {
    seq(|ks|, i requires 0 <= i < |ks| => Row(fl.double(ks[i] as real), 0, s.values[ks[i]]))
  }

  /** A table of names wins over a scaling. */
  ghost predicate Converts(fl: Floats, s: Signal, c: Conversion) {
    if s.values != map[] then
      exists ks: seq<u64> :: Ascending(ks) && (forall k :: k in ks <==> k in s.values) && c == ValueToText(TextRows(fl, s, ks), [])
    else if s.factor != 1.0 || s.offset != 0.0 then c == Linear(fl.double(s.offset), fl.double(s.factor))
    else c == NoConversion
  }

  /** `f` reads the signal out of the axis-prefixed record. */
  ghost predicate Reads(fl: Floats, s: Signal, f: Field) {
    f.name == s.name && f.bitOffset == AXIS_BITS + BitOffset(s) && f.bitWidth == s.length && f.bigEndian == s.bigEndian &&
    f.dataType == FieldType(s) && !f.variable && !f.hold && Converts(fl, s, f.conv)
  }

  method FieldOf(fl: Floats, s: Signal, length: nat) returns (r: Option<Field>)
    requires length <= 64
    ensures r.Some? <==> Holds(s, length)
    ensures r.Some? ==> Reads(fl, s, r.value) && !r.value.guarded
  {
    if s.length <= 0 || s.length > 64 { return None; }
    if BitOffset(s) + s.length > 8 * length { return None; }
    var conv := NoConversion;
    if s.values != map[] {
      var ks := SortedTable(s.values);
      conv := ValueToText(TextRows(fl, s, ks), []);
    } else if s.factor != 1.0 || s.offset != 0.0 {
      conv := Linear(fl.double(s.offset), fl.double(s.factor));
    }
    return Some(Field(s.name, AXIS_BITS + BitOffset(s), s.length, FieldType(s), s.bigEndian,
                      false, false, false, [], [], conv, 0, 0, map[]));
  }

  // --- the message ----------------------------------------------------------------------------------

  /** At most one multiplexor, and that one on the first level. */
  predicate OneMux(m: Message) {
    (forall i :: 0 <= i < |m.signals| ==> !(m.signals[i].multiplexor && m.signals[i].extendedMux)) &&
    forall i, j :: 0 <= i < j < |m.signals| ==> !(m.signals[i].multiplexor && m.signals[j].multiplexor)
  }

  method FindSelector(m: Message) returns (ok: bool, mux: Option<nat>)
    ensures ok <==> OneMux(m)
    ensures ok ==> MuxIs(m, mux)
  {
    mux := None;
    for i := 0 to |m.signals|
      invariant forall j :: 0 <= j < i ==> !(m.signals[j].multiplexor && m.signals[j].extendedMux)
      invariant mux == None ==> forall j :: 0 <= j < i ==> !m.signals[j].multiplexor
      invariant mux.Some? ==> mux.value < i && m.signals[mux.value].multiplexor
      invariant mux.Some? ==> forall j :: 0 <= j < i && j != mux.value ==> !m.signals[j].multiplexor
    {
      var s := m.signals[i];
      if s.multiplexor {
        if mux.Some? || s.extendedMux { return false, mux; }
        mux := Some(i);
      }
    }
    ok := true;
  }

  /** The signals a schema can say: the multiplexor, and the others that fit and
      have a guard that one field can express. */
  predicate Carried(m: Message, mux: Option<nat>, j: nat)
    requires j < |m.signals|
  {
    Holds(m.signals[j], if m.length < 0 then 0 else m.length) &&
    (mux == Some(j) || (!m.signals[j].extendedMux && (m.signals[j].muxed ==> mux.Some?)))
  }

  /** `f` is signal `j`, guarded on the multiplexor's field when it is multiplexed. */
  ghost predicate Mapped(fl: Floats, m: Message, mux: Option<nat>, j: nat, f: Field)
    requires j < |m.signals|
  {
    Reads(fl, m.signals[j], f) && f.guarded == (m.signals[j].muxed && mux != Some(j)) &&
    (f.guarded ==> f.guardField == 1 && f.guardValue == m.signals[j].muxValue)
  }

  /** The first `i` signals, and the multiplexor, have their fields; `at` says where. */
  ghost predicate Filled(fl: Floats, m: Message, mux: Option<nat>, fields: seq<Field>, at: seq<Option<nat>>, i: nat) {
    |at| == |m.signals| && 0 < |fields| && fields[0] == AXIS_FIELD &&
    (forall j :: 0 <= j < |at| ==> Placed(fl, m, mux, fields, at[j], i, j)) &&
    Covered(|fields|, at) && InOrder(mux, at)
  }

  /** A signal has a field if it was reached and can be carried, and it is its own. */
  ghost predicate Placed(fl: Floats, m: Message, mux: Option<nat>, fields: seq<Field>, k: Option<nat>, i: nat, j: nat)
    requires j < |m.signals|
  {
    (k.Some? <==> ((j < i || mux == Some(j)) && Carried(m, mux, j))) &&
    (k.Some? ==> 0 < k.value < |fields| && Mapped(fl, m, mux, j, fields[k.value]))
  }

  /** Past the axis, every field is some signal's. */
  ghost predicate Covered(n: nat, at: seq<Option<nat>>) {
    forall k :: 0 < k < n ==> exists j :: 0 <= j < |at| && at[j] == Some(k)
  }

  /** The multiplexor is field 1, and the others follow in the message's order. */
  ghost predicate InOrder(mux: Option<nat>, at: seq<Option<nat>>) {
    (mux.Some? ==> mux.value < |at| && at[mux.value] == Some(1)) &&
    (forall j :: 0 <= j < |at| && at[j].Some? && mux.Some? && mux.value != j ==> at[j].value > 1) &&
    forall a, b :: 0 <= a < b < |at| && at[a].Some? && at[b].Some? && mux != Some(a) && mux != Some(b) ==> at[a].value < at[b].value
  }

  lemma FilledAxis(fl: Floats, m: Message, at: seq<Option<nat>>)
    requires |at| == |m.signals| && forall j :: 0 <= j < |at| ==> at[j] == None
    ensures Filled(fl, m, None, [AXIS_FIELD], at, 0)
  {
  }

  lemma FilledMux(fl: Floats, m: Message, mux: nat, f: Field, at: seq<Option<nat>>)
    requires |at| == |m.signals| && mux < |at| && (forall j :: 0 <= j < |at| ==> at[j] == None)
    requires Reads(fl, m.signals[mux], f) && !f.guarded && Holds(m.signals[mux], if m.length < 0 then 0 else m.length)
    ensures Filled(fl, m, Some(mux), [AXIS_FIELD, f], at[mux := Some(1)], 0)
  {
    hide Reads;
    hide Holds;
    var now := at[mux := Some(1)];
    assert now[mux] == Some(1);
    forall j | 0 <= j < |now| ensures Placed(fl, m, Some(mux), [AXIS_FIELD, f], now[j], 0, j) { }
  }

  lemma FilledSkip(fl: Floats, m: Message, mux: Option<nat>, fields: seq<Field>, at: seq<Option<nat>>, i: nat)
    requires Filled(fl, m, mux, fields, at, i) && i < |m.signals|
    requires mux == Some(i) || !Carried(m, mux, i)
    ensures Filled(fl, m, mux, fields, at, i + 1)
  {
    hide Mapped;
    hide Carried;
    hide Covered;
    hide InOrder;
    forall j | 0 <= j < |at| ensures Placed(fl, m, mux, fields, at[j], i + 1, j) {
      assert Placed(fl, m, mux, fields, at[j], i, j);
    }
  }

  lemma FilledMore(fl: Floats, m: Message, mux: Option<nat>, fields: seq<Field>, at: seq<Option<nat>>, i: nat, f: Field)
    requires Filled(fl, m, mux, fields, at, i) && i < |m.signals|
    requires mux != Some(i) && Carried(m, mux, i) && Mapped(fl, m, mux, i, f)
    ensures Filled(fl, m, mux, fields + [f], at[i := Some(|fields|)], i + 1)
  {
    hide Placed;
    hide Covered;
    hide InOrder;
    hide Mapped;
    hide Carried;
    var now := at[i := Some(|fields|)];
    forall j | 0 <= j < |now|
      ensures Placed(fl, m, mux, fields + [f], now[j], i + 1, j)
      ensures at[j].Some? ==> at[j].value < |fields| && (mux == Some(j) || j < i)
      ensures j == i ==> at[j] == None
    {
      PlacedMore(fl, m, mux, fields, at[j], i, j, f);
    }
    CoveredMore(|fields|, at, i);
    InOrderMore(mux, at, i, |fields|);
  }

  lemma PlacedMore(fl: Floats, m: Message, mux: Option<nat>, fields: seq<Field>, k: Option<nat>, i: nat, j: nat, f: Field)
    requires i < |m.signals| && j < |m.signals| && 0 < |fields| && Placed(fl, m, mux, fields, k, i, j)
    requires mux != Some(i) && Carried(m, mux, i) && Mapped(fl, m, mux, i, f)
    ensures Placed(fl, m, mux, fields + [f], if j == i then Some(|fields|) else k, i + 1, j)
    ensures k.Some? ==> k.value < |fields| && (mux == Some(j) || j < i)
    ensures j == i ==> k == None
  {
    hide Mapped;
    hide Carried;
    if j == i {
      assert (fields + [f])[|fields|] == f;
    } else if k.Some? {
      assert (fields + [f])[k.value] == fields[k.value];
    }
  }

  lemma CoveredMore(n: nat, at: seq<Option<nat>>, i: nat)
    requires Covered(n, at) && i < |at| && at[i] == None
    ensures Covered(n + 1, at[i := Some(n)])
  {
    var now := at[i := Some(n)];
    forall k | 0 < k < n + 1 ensures exists j :: 0 <= j < |now| && now[j] == Some(k) {
      if k == n {
        assert now[i] == Some(k);
      } else {
        var j :| 0 <= j < |at| && at[j] == Some(k);
        assert now[j] == Some(k);
      }
    }
  }

  lemma InOrderMore(mux: Option<nat>, at: seq<Option<nat>>, i: nat, n: nat)
    requires InOrder(mux, at) && i < |at| && mux != Some(i)
    requires forall j :: 0 <= j < |at| && at[j].Some? ==> at[j].value < n && (mux == Some(j) || j < i)
    ensures InOrder(mux, at[i := Some(n)])
  {
    assert mux.Some? ==> at[mux.value] == Some(1);
  }

  method Validate(fs: seq<Field>) returns (ok: bool)
    ensures ok <==> forall i :: 0 <= i < |fs| ==> GuardResolves(fs, i)
  {
    for i := 0 to |fs|
      invariant forall j :: 0 <= j < i ==> GuardResolves(fs, j)
    {
      if !GuardResolves(fs, i) { return false; }
    }
    ok := true;
  }

  /** The multiplexor's bits are a float's, and some field hangs on them. */
  ghost predicate GuardsOnFloat(m: Message, mux: Option<nat>) {
    mux.Some? && mux.value < |m.signals| && m.signals[mux.value].float &&
    exists j :: 0 <= j < |m.signals| && j != mux.value && m.signals[j].muxed && Carried(m, mux, j)
  }

  lemma GuardsChecked(fl: Floats, m: Message, mux: Option<nat>, fields: seq<Field>, at: seq<Option<nat>>)
    requires Filled(fl, m, mux, fields, at, |m.signals|)
    ensures (forall k :: 0 <= k < |fields| ==> GuardResolves(fields, k)) <==> !GuardsOnFloat(m, mux)
  {
    hide Carried;
    hide Converts;
    hide Holds;
    hide BitOffset;
    if GuardsOnFloat(m, mux) {
      var j :| 0 <= j < |m.signals| && j != mux.value && m.signals[j].muxed && Carried(m, mux, j);
      assert Placed(fl, m, mux, fields, at[j], |m.signals|, j);
      assert Placed(fl, m, mux, fields, at[mux.value], |m.signals|, mux.value);
      assert at[j].Some? && !GuardResolves(fields, at[j].value);
    } else {
      forall k | 0 <= k < |fields| ensures GuardResolves(fields, k) {
        if k > 0 {
          var j :| 0 <= j < |at| && at[j] == Some(k);
          assert Placed(fl, m, mux, fields, at[j], |m.signals|, j);
          if fields[k].guarded { GuardTarget(fl, m, mux, fields, at, j); }
        }
      }
    }
  }

  lemma GuardTarget(fl: Floats, m: Message, mux: Option<nat>, fields: seq<Field>, at: seq<Option<nat>>, j: nat)
    requires Filled(fl, m, mux, fields, at, |m.signals|) && !GuardsOnFloat(m, mux)
    requires j < |at| && at[j].Some? && m.signals[j].muxed && mux != Some(j)
    ensures GuardResolves(fields, at[j].value)
  {
    assert Placed(fl, m, mux, fields, at[j], |m.signals|, j);
    assert Carried(m, mux, j);
    hide Carried;
    hide Converts;
    hide Holds;
    hide BitOffset;
    var g := m.signals[mux.value];
    assert Placed(fl, m, mux, fields, at[mux.value], |m.signals|, mux.value);
    assert !g.float;
  }

  /** What a message needs to have a schema at all. */
  ghost predicate HasSchema(m: Message, mux: Option<nat>) {
    0 < m.length <= 64 && OneMux(m) && !GuardsOnFloat(m, mux) &&
    (mux.Some? ==> mux.value < |m.signals| && Holds(m.signals[mux.value], m.length))
  }

  /** The schema's fields, the axis first, the multiplexor next. */
  method SchemaFields(fl: Floats, m: Message) returns (r: Option<seq<Field>>, ghost mux: Option<nat>, ghost at: seq<Option<nat>>)
    ensures OneMux(m) ==> MuxIs(m, mux)
    ensures r.Some? <==> HasSchema(m, mux)
    ensures r.Some? ==> Filled(fl, m, mux, r.value, at, |m.signals|)
  {
    hide Filled;
    hide Reads;
    hide GuardsOnFloat;
    hide OneMux;
    hide GuardResolves;
    hide Holds;
    r := None;
    at := seq(|m.signals|, _ => None);
    var one, sel := FindSelector(m);
    mux := sel;
    if m.length <= 0 || m.length > 64 { return; }
    if !one { return; }
    var fields := [AXIS_FIELD];
    if sel.Some? {
      var f := FieldOf(fl, m.signals[sel.value], m.length);
      if f == None { return; }
      FilledMux(fl, m, sel.value, f.value, at);
      fields := [AXIS_FIELD, f.value];
      at := at[sel.value := Some(1)];
    } else {
      FilledAxis(fl, m, at);
    }
    for i := 0 to |m.signals|
      invariant Filled(fl, m, mux, fields, at, i)
    {
      var s := m.signals[i];
      if sel == Some(i) || s.extendedMux {
        FilledSkip(fl, m, mux, fields, at, i);
      } else {
        var f := FieldOf(fl, s, m.length);
        if f == None || (s.muxed && sel == None) {
          FilledSkip(fl, m, mux, fields, at, i);
        } else {
          var g := if s.muxed then f.value.(guarded := true, guardField := 1, guardValue := s.muxValue) else f.value;
          GuardedReads(fl, s, f.value);
          FilledMore(fl, m, mux, fields, at, i, g);
          FilledSize(fl, m, mux, fields, at, i);
          at := at[i := Some(|fields|)];
          fields := fields + [g];
        }
      }
    }
    GuardsChecked(fl, m, mux, fields, at);
    var valid := Validate(fields);
    if valid { r := Some(fields); }
  }

  lemma FilledSize(fl: Floats, m: Message, mux: Option<nat>, fields: seq<Field>, at: seq<Option<nat>>, i: nat)
    requires Filled(fl, m, mux, fields, at, i)
    ensures |at| == |m.signals|
  {
  }

  lemma GuardedReads(fl: Floats, s: Signal, f: Field)
    requires Reads(fl, s, f)
    ensures Reads(fl, s, f.(guarded := true, guardField := 1, guardValue := s.muxValue))
  {
  }

  // --- what a reader makes of an encoded frame -------------------------------------------------------

  /** A raw value as its field's type shows it. */
  function Shown(s: Signal, n: nat): Records.Value
    requires 0 < s.length <= 64
  {
    if s.float then Records.Float(n, s.length)
    else if s.signed then Records.Signed(Integer(s, n))
    else if s.length == 1 then Records.Flag(n != 0)
    else Records.Unsigned(n)
  }

  /** A signal's bits are found past the axis where they were put in the frame. */
  lemma PastAxis(fl: Floats, s: Signal, f: Field, axis: bytes, d: bytes)
    requires Reads(fl, s, f) && Holds(s, |d|) && |axis| == 8
    ensures Extracted(axis + d, f.bitOffset, f.bitWidth, f.bigEndian) == Some(FieldValue(d, BitOffset(s), s.length, s.bigEndian))
    ensures FieldValue(d, BitOffset(s), s.length, s.bigEndian) < Pow2(s.length)
  {
    hide FieldValue;
    hide Converts;
    hide BitOffset;
    Sample.FieldInside(axis, d, [], BitOffset(s), s.length, s.bigEndian);
    assert axis + d + [] == axis + d;
    FieldBound(d, BitOffset(s), s.length, s.bigEndian);
  }

  lemma ShownRaw(fl: Floats, s: Signal, f: Field, axis: bytes, d: bytes)
    requires Reads(fl, s, f) && Holds(s, |d|) && |axis| == 8 && (s.float ==> s.length == 32 || s.length == 64)
    ensures Records.RawValue(axis + d, f) == Records.Value(Shown(s, FieldValue(d, BitOffset(s), s.length, s.bigEndian)))
  {
    PastAxis(fl, s, f, axis, d);
    hide FieldValue;
    hide Extracted;
    hide BitOffset;
    hide Converts;
    ShownValue(s, f, axis + d, FieldValue(d, BitOffset(s), s.length, s.bigEndian));
  }

  lemma ShownValue(s: Signal, f: Field, rec: bytes, v: nat)
    requires f.dataType == FieldType(s) && f.bitWidth == s.length && 0 < s.length <= 64 && !f.variable
    requires s.float ==> s.length == 32 || s.length == 64
    requires Extracted(rec, f.bitOffset, f.bitWidth, f.bigEndian) == Some(v) && v < Pow2(s.length)
    ensures Records.RawValue(rec, f) == Records.Value(Shown(s, v))
  {
    hide Extracted;
    hide Pow2;
    hide Records.TrimZero;
    hide Sample.SignExtend;
    Pow2Sixty4();
    Pow2Mono(s.length, 64);
    Sample.SignExtendIsTwosComplement(v, s.length);
  }

  /** The multiplexor's field holds the raw value the guards compare with. */
  lemma GuardCompares(fl: Floats, m: Message, mux: Option<nat>, fields: seq<Field>, at: seq<Option<nat>>, b: Records.Batch,
                      axis: bytes, d: bytes, j: nat)
    requires Filled(fl, m, mux, fields, at, |m.signals|) && b.schema.fields == fields && |axis| == 8
    requires mux.Some? && j < |at| && at[j].Some? && m.signals[j].muxed && mux != Some(j)
    requires Holds(m.signals[mux.value], |d|)
    ensures var s := m.signals[mux.value];
      Records.GuardHolds(b, axis + d, fields[at[j].value])
        == Some(FieldValue(d, BitOffset(s), s.length, s.bigEndian) == m.signals[j].muxValue)
  {
    var s := m.signals[mux.value];
    hide FieldValue;
    hide Converts;
    hide Carried;
    hide Holds;
    hide BitOffset;
    hide Extracted;
    assert Placed(fl, m, mux, fields, at[mux.value], |m.signals|, mux.value);
    assert Placed(fl, m, mux, fields, at[j], |m.signals|, j);
    PastAxis(fl, s, fields[1], axis, d);
  }

  /** Field `k` of record `i` shows the raw value. */
  predicate ReadsBack(b: Records.Batch, i: nat, k: Option<nat>, s: Signal, raw: RawOutcome) {
    k.Some? && raw.Bits? && 0 < s.length <= 64 && Records.Raw(b, i, k.value) == Records.Value(Shown(s, raw.n))
  }

  /** Whatever the encoder put in a frame, the schema reads back, and a signal the
      multiplexor did not select is absent. */
  lemma DecodesBack(fl: Floats, m: Message, req: request, mux: Option<nat>, d: bytes,
                    fields: seq<Field>, at: seq<Option<nat>>, b: Records.Batch, i: nat, axis: bytes, j: nat)
    requires MuxIs(m, mux) && Encodable(fl, m, req, mux) && Encodes(fl, m, req, mux, d)
    requires mux.Some? ==> Selected(m.signals[mux.value], mux, RawMux(fl, m, req, mux))
    requires Filled(fl, m, mux, fields, at, |m.signals|) && b.schema.fields == fields
    requires |axis| == 8 && Records.Record(b, i) == Some(axis + d) && j < |m.signals|
    ensures if Selected(m.signals[j], mux, RawMux(fl, m, req, mux)) then
        ReadsBack(b, i, at[j], m.signals[j], RawFor(fl, m.signals[j], req))
      else at[j] == None || Records.Raw(b, i, at[j].value) == Records.Absent
  {
    hide RawFor;
    hide FieldValue;
    hide Shown;
    hide Records.RawValue;
    hide Records.GuardHolds;
    hide Records.Record;
    hide Nobodys;
    hide Known;
    hide Apart;
    hide Converts;
    hide BitOffset;
    var s, v := m.signals[j], RawMux(fl, m, req, mux);
    assert SignalOk(fl, m, req, mux, j);
    if mux.Some? {
      assert Selected(m.signals[mux.value], mux, v);
      assert Holds(m.signals[mux.value], |d|);
    }
    assert Placed(fl, m, mux, fields, at[j], |m.signals|, j);
    if at[j].Some? {
      if s.muxed && mux != Some(j) { GuardCompares(fl, m, mux, fields, at, b, axis, d, j); }
    }
    if Selected(s, mux, v) {
      assert Carried(m, mux, j);
      FloatWidth(fl, s, req);
      ShownRaw(fl, s, fields[at[j].value], axis, d);
    }
  }

  lemma FloatWidth(fl: Floats, s: Signal, req: request)
    requires RawFor(fl, s, req).Bits?
    ensures s.float ==> s.length == 32 || s.length == 64
  {
  }

  /** A message a frame can be built of has a schema, exactly when no guard would hang on
      a float. */
  lemma EncodableHasSchema(fl: Floats, m: Message, req: request, mux: Option<nat>)
    requires MuxIs(m, mux) && Encodable(fl, m, req, mux)
    requires mux.Some? ==> Selected(m.signals[mux.value], mux, RawMux(fl, m, req, mux))
    ensures HasSchema(m, mux) <==> !GuardsOnFloat(m, mux)
  {
    hide RawFor;
    hide Apart;
    hide Known;
    hide GuardsOnFloat;
    if mux.Some? { assert SignalOk(fl, m, req, mux, mux.value); }
  }

  // --- where the two directions part ----------------------------------------------------------------

  /** A number's signal of `length` bits from `start`, which starts at zero. */
  function Plain(name: bytes, start: nat, length: int): Signal {
    Signal(name, start, length, false, false, false, 1.0, 0.0, 0.0, 0.0, false, false, 0, map[], Some(0.0), false)
  }

  /** A float selects a signal. */
  const FLOAT_MUX: Message := Message([77], 8, [
    Plain([65], 0, 32).(float := true, multiplexor := true),
    Plain([66], 32, 8).(muxed := true)])

  /** A signal of a second level of selection, and none of the first. */
  const EXTENDED: Message := Message([77], 8, [Plain([65], 0, 8).(extendedMux := true)])

  /** A frame can be built of it, and it has no schema to read the frame with. */
  lemma FloatMuxRefused(fl: Floats)
    ensures MuxIs(FLOAT_MUX, Some(0)) && Encodable(fl, FLOAT_MUX, map[], Some(0)) && !HasSchema(FLOAT_MUX, Some(0))
  {
    var m, mux := FLOAT_MUX, Some(0);
    assert RawFor(fl, m.signals[0], map[]).Bits? && RawFor(fl, m.signals[1], map[]).Bits?;
    assert Carried(m, mux, 1);
  }

  /** It has a schema, and no frame can be built of it whatever is asked. */
  lemma ExtendedRefused(fl: Floats, req: request)
    ensures MuxIs(EXTENDED, None) && HasSchema(EXTENDED, None) && !Encodable(fl, EXTENDED, req, None)
  {
    assert EXTENDED.signals[0].extendedMux;
  }

  /** Of a message that has a schema, only a signal of a second level can be what the
      encoder's look at its multiplexing refuses. */
  lemma SchemaOneLevel(m: Message, mux: Option<nat>)
    requires HasSchema(m, mux)
    ensures OneLevel(m) <==> forall i :: 0 <= i < |m.signals| ==> !m.signals[i].extendedMux
  {
  }

  /** The number a decoded value stands for. */
  function Whole(v: Records.Value): real
    requires v.Unsigned? || v.Signed? || v.Flag?
  {
    match v
    case Unsigned(n) => n as real
    case Signed(i) => i as real
    case Flag(b) => if b then 1.0 else 0.0
  }

  /** A number asked of an integer signal is read back to within half a step. */
  lemma DecodesNear(fl: Floats, m: Message, req: request, mux: Option<nat>, d: bytes,
                    fields: seq<Field>, at: seq<Option<nat>>, b: Records.Batch, i: nat, axis: bytes, j: nat)
    requires MuxIs(m, mux) && Encodable(fl, m, req, mux) && Encodes(fl, m, req, mux, d)
    requires mux.Some? ==> Selected(m.signals[mux.value], mux, RawMux(fl, m, req, mux))
    requires Filled(fl, m, mux, fields, at, |m.signals|) && b.schema.fields == fields
    requires |axis| == 8 && Records.Record(b, i) == Some(axis + d) && j < |m.signals|
    requires Selected(m.signals[j], mux, RawMux(fl, m, req, mux)) && !m.signals[j].float
    requires m.signals[j].name in req && req[m.signals[j].name].Number?
    ensures at[j].Some? && Near(Records.Raw(b, i, at[j].value), m.signals[j], req[m.signals[j].name].x)
  {
    hide *;
    var s := m.signals[j];
    DecodesBack(fl, m, req, mux, d, fields, at, b, i, axis, j);
    NumberScales(fl, s, req);
    FilledSize(fl, m, mux, fields, at, |m.signals|);
    ReadsNear(fl, b, i, at[j], s, req[s.name].x);
  }

  lemma ReadsNear(fl: Floats, b: Records.Batch, i: nat, k: Option<nat>, s: Signal, x: real)
    requires ReadsBack(b, i, k, s, Scaled(fl, s, x)) && !s.float
    ensures k.Some? && Near(Records.Raw(b, i, k.value), s, x)
  {
    hide Scaled;
    hide Shown;
    hide Records.Raw;
    hide Near;
    hide Physical;
    hide Whole;
    hide Integer;
    hide Abs;
    hide Pow2;
    HalfStep(fl, s, x);
    var n := Scaled(fl, s, x).n;
    ShownWhole(s, n);
    NearIs(Records.Raw(b, i, k.value), s, n, x, Shown(s, n));
  }

  lemma NearIs(a: Records.Answer, s: Signal, n: nat, x: real, v: Records.Value)
    requires 0 < s.length <= 64 && a == Records.Value(v) && (v.Unsigned? || v.Signed? || v.Flag?)
    requires Whole(v) == Integer(s, n) as real && Abs(Physical(s, n) - x) <= Abs(s.factor) * 0.5
    ensures Near(a, s, x)
  {
    hide Whole;
    hide Integer;
    hide Abs;
  }

  predicate Near(a: Records.Answer, s: Signal, x: real) {
    a.Value? && (a.v.Unsigned? || a.v.Signed? || a.v.Flag?) && Abs(Whole(a.v) * s.factor + s.offset - x) <= Abs(s.factor) * 0.5
  }

  lemma NumberScales(fl: Floats, s: Signal, req: request)
    requires s.name in req && req[s.name].Number?
    ensures RawFor(fl, s, req) == Scaled(fl, s, req[s.name].x)
  {
    hide Scaled;
  }

  lemma ShownWhole(s: Signal, n: nat)
    requires 0 < s.length <= 64 && !s.float && n < Pow2(s.length)
    ensures var v := Shown(s, n); (v.Unsigned? || v.Signed? || v.Flag?) && Whole(v) == Integer(s, n) as real
  {
    assert Pow2(1) == 2;
  }
}
