/** Batches of records, and what one field of one record holds. */
module Records {
  import opened Bytes
  import opened BitOps
  import opened Wire
  import opened Format
  import opened Extract
  import Sample

  /** One DATA frame: records sharing a schema and a run, with the tail of each
      record already cut into its variable-length values. */
  datatype Batch = Batch(schema: Schema, runID: u32, base: u64, count: u32, data: bytes, tails: seq<seq<bytes>>)

  /** A stream's held values as of a segment boundary. */
  datatype Held = Held(schema: Schema, base: u64, runID: u32, present: seq<bool>, record: bytes, tails: seq<seq<bytes>>)

  // --- tails ------------------------------------------------------------------------

  function TakeBlobs(n: nat, s: bytes, acc: seq<bytes>): Parsed<seq<bytes>>
    decreases n
  {
    if n == 0 then Good(acc, s)
    else
      var (v, s1) :- TakeStr(s);
      TakeBlobs(n - 1, s1, acc + [v])
  }

  /** A row of `nvar` counted blobs for each of `count` records. */
  function TakeTails(count: nat, nvar: nat, s: bytes, acc: seq<seq<bytes>>): Parsed<seq<seq<bytes>>>
    decreases count
  {
    if count == 0 then Good(acc, s)
    else
      var (row, s1) :- TakeBlobs(nvar, s, []);
      TakeTails(count - 1, nvar, s1, acc + [row])
  }

  function PutBlobs(row: seq<bytes>, tail: bytes): bytes {
    if row == [] then tail else PutStr(row[0], PutBlobs(row[1..], tail))
  }

  function PutTails(rows: seq<seq<bytes>>, tail: bytes): bytes {
    if rows == [] then tail else PutBlobs(rows[0], PutTails(rows[1..], tail))
  }

  /** The tails of `count` records whose fixed parts take `fixed` bytes; nothing
      is parsed for a schema without variable fields. */
  function TailsOf(s: Schema, count: nat, data: bytes): Option<seq<seq<bytes>>> {
    var nvar := s.VarCount();
    var fixed := count * s.RecordBytes();
    if nvar == 0 then Some([])
    else if fixed > |data| then None
    else
      match TakeTails(count, nvar, data[fixed..], [])
      case Bad => None
      case Good(rows, _) => Some(rows)
  }

  lemma {:induction false} BlobsBack(row: seq<bytes>, acc: seq<bytes>, tail: bytes)
    requires forall v :: v in row ==> StrFits(v)
    ensures TakeBlobs(|row|, PutBlobs(row, tail), acc) == Good(acc + row, tail)
    decreases |row|
  {
    if row == [] {
      assert acc + row == acc;
    } else {
      assert row[0] in row;
      StrBack(row[0], PutBlobs(row[1..], tail));
      BlobsBack(row[1..], acc + [row[0]], tail);
      Snoc(acc, row[0], row[1..]);
      assert [row[0]] + row[1..] == row;
    }
  }

  /** Every blob of every record comes back. */
  lemma {:induction false} TailsBack(rows: seq<seq<bytes>>, nvar: nat, acc: seq<seq<bytes>>, tail: bytes)
    requires forall r :: r in rows ==> |r| == nvar && forall v :: v in r ==> StrFits(v)
    ensures TakeTails(|rows|, nvar, PutTails(rows, tail), acc) == Good(acc + rows, tail)
    decreases |rows|
  {
    hide TakeBlobs;
    hide PutBlobs;
    hide StrFits;
    if rows == [] {
      assert acc + rows == acc;
    } else {
      assert rows[0] in rows;
      BlobsBack(rows[0], [], PutTails(rows[1..], tail));
      assert [] + rows[0] == rows[0];
      forall r | r in rows[1..] ensures |r| == nvar && forall v :: v in r ==> StrFits(v) { assert r in rows; }
      TailsBack(rows[1..], nvar, acc + [rows[0]], tail);
      Snoc(acc, rows[0], rows[1..]);
      assert [rows[0]] + rows[1..] == rows;
    }
  }

  // --- one field of one record --------------------------------------------------------

  datatype Value =
    | Unsigned(n: nat)
    | Signed(i: int)
    | Flag(b: bool)
    | Float(bits: nat, width: nat)
    | Complex(re: nat, im: nat, width: nat)
    | Blob(data: bytes)
    | Text(chars: bytes)

  /** Absent is a fact about the record; Corrupt is a fault. */
  datatype Answer = Value(v: Value) | Absent | Corrupt

  /** A fixed string ends at its first zero byte. */
  function TrimZero(s: bytes): bytes {
    if s == [] || s[0] == 0 then [] else [s[0]] + TrimZero(s[1..])
  }

  function RawValue(rec: bytes, f: Field): Answer {
    if f.variable then Corrupt
    else if f.dataType == TYPE_BYTES || f.dataType == TYPE_STRING then
      if f.bitOffset % 8 != 0 || f.bitWidth % 8 != 0 then Corrupt
      else
        var off, n := f.bitOffset / 8, f.bitWidth / 8;
        if off + n > |rec| then Corrupt
        else if f.dataType == TYPE_STRING then Value(Text(TrimZero(rec[off..off + n])))
        else Value(Blob(rec[off..off + n]))
    else if f.dataType == TYPE_BOOL then
      match Extracted(rec, f.bitOffset, 1, f.bigEndian)
      case None => Corrupt
      case Some(v) => Value(Flag(v != 0))
    else if f.dataType == TYPE_COMPLEX then
      var half := f.bitWidth / 2;
      match (Extracted(rec, f.bitOffset, half, f.bigEndian), Extracted(rec, f.bitOffset + half, half, f.bigEndian))
      case (Some(re), Some(im)) => if half == 32 || half == 64 then Value(Complex(re, im, half)) else Corrupt
      case _ => Corrupt
    else
      match Extracted(rec, f.bitOffset, f.bitWidth, f.bigEndian)
      case None => Corrupt
      case Some(v) =>
        if f.dataType == TYPE_UINT then Value(Unsigned(v))
        else if f.dataType == TYPE_SINT then
          FieldBound(rec, f.bitOffset, f.bitWidth, f.bigEndian);
          Pow2Sixty4();
          Pow2Mono(f.bitWidth, 64);
          Value(Signed(Sample.SignExtend(v, f.bitWidth)))
        else if f.dataType == TYPE_FLOAT && (f.bitWidth == 32 || f.bitWidth == 64) then Value(Float(v, f.bitWidth))
        else Corrupt
  }

  /** The fixed portion of record `i`: bounded by the count, because data runs on
      into the tails. */
  function Record(b: Batch, i: nat): Option<bytes> {
    var n := b.schema.RecordBytes();
    if i >= b.count || (i + 1) * n > |b.data| then None
    else
      assert i * n <= (i + 1) * n by { MulMono(n, i, i + 1); }
      Some(b.data[i * n..(i + 1) * n])
  }

  /** A guard compares raw bits; a bool guard is one bit however it is spelled. */
  function GuardHolds(b: Batch, rec: bytes, f: Field): Option<bool> {
    if f.guardField >= |b.schema.fields| then None
    else
      var g := b.schema.fields[f.guardField];
      match Extracted(rec, g.bitOffset, if g.dataType == TYPE_BOOL then 1 else g.bitWidth, g.bigEndian)
      case None => None
      case Some(v) => Some(v == f.guardValue)
  }

  function VarOrdinal(fs: seq<Field>, f: nat): nat
    requires f <= |fs|
  {
    if f == 0 then 0 else VarOrdinal(fs, f - 1) + (if fs[f - 1].variable then 1 else 0)
  }

  /** Field `f` of record `i`, before any conversion. */
  function Raw(b: Batch, i: nat, f: nat): Answer {
    if f >= |b.schema.fields| then Corrupt
    else
      var fd := b.schema.fields[f];
      var rec := Record(b, i);
      if fd.guarded && rec == None then Corrupt
      else if fd.guarded && GuardHolds(b, rec.value, fd) == None then Corrupt
      else if fd.guarded && GuardHolds(b, rec.value, fd) == Some(false) then Absent
      else if fd.variable then
        var k := VarOrdinal(b.schema.fields, f);
        if i >= |b.tails| || k >= |b.tails[i]| then Corrupt
        else if fd.dataType == TYPE_BYTES then Value(Blob(b.tails[i][k]))
        else if fd.dataType == TYPE_STRING then Value(Text(b.tails[i][k]))
        else Corrupt
      else
        match rec
        case None => Corrupt
        case Some(r) => RawValue(r, fd)
  }

  // --- a whole column ---------------------------------------------------------------

  datatype ColumnError = ColumnCorrupt | ColumnShape | ColumnType | ColumnGuarded
  datatype ColumnResult = Copied(n: nat) | Refused(e: ColumnError)

  /** The element types a column can be read into, and the field they match. */
  predicate ColumnMatches(f: Field, want: byte, bits: nat) { f.dataType == want && f.bitWidth == bits }

  /** Whole bytes of every record, present in all of them. */
  predicate Bytewise(f: Field) {
    !f.guarded && !f.variable && f.bitOffset % 8 == 0 && f.bitWidth % 8 == 0 &&
    f.dataType in {TYPE_UINT, TYPE_SINT, TYPE_FLOAT}
  }

  /** How far into the data the first `n` elements of a column reach. */
  function Reach(b: Batch, f: Field, n: nat): int
    requires n > 0
  {
    (n - 1) * b.schema.RecordBytes() + f.bitOffset / 8 + f.bitWidth / 8
  }

  /** The raw bits of field `f` of every record, straight out of the data. It reads
      what `Raw` reads, or refuses: a field that may be absent, one that is not whole
      bytes, an element type that is not the field's, a field that leaves the record,
      data that ends too soon. */
  method Column(b: Batch, f: int, d: array<nat>, want: byte, bits: nat) returns (r: ColumnResult)
    requires want in {TYPE_UINT, TYPE_SINT, TYPE_FLOAT} && bits in {8, 16, 32, 64}
    modifies d
    ensures r.Refused? ==> d[..] == old(d[..])
    ensures r.Copied? <==>
      0 <= f < |b.schema.fields| &&
      var fd, n := b.schema.fields[f], if d.Length < b.count then d.Length else b.count;
      Bytewise(fd) && ColumnMatches(fd, want, bits) && fd.bitOffset + fd.bitWidth <= 8 * b.schema.RecordBytes() &&
      (n == 0 || Reach(b, fd, n) <= |b.data|)
    ensures r == Refused(ColumnGuarded) <==> 0 <= f < |b.schema.fields| && b.schema.fields[f].guarded
    ensures r == Refused(ColumnType) <==>
      0 <= f < |b.schema.fields| && Bytewise(b.schema.fields[f]) && !ColumnMatches(b.schema.fields[f], want, bits)
    ensures r == Refused(ColumnShape) <==>
      0 <= f < |b.schema.fields| &&
      var fd := b.schema.fields[f];
      !fd.guarded && (!Bytewise(fd) ||
        (ColumnMatches(fd, want, bits) && fd.bitOffset + fd.bitWidth > 8 * b.schema.RecordBytes()))
    ensures r.Copied? ==> r.n == (if d.Length < b.count then d.Length else b.count)
    ensures r.Copied? ==> d[r.n..] == old(d[r.n..])
    ensures r.Copied? ==> forall i :: 0 <= i < r.n && Record(b, i).Some? ==>
      var fd := b.schema.fields[f];
      Extracted(Record(b, i).value, fd.bitOffset, fd.bitWidth, fd.bigEndian) == Some(d[i])
  {
    hide FieldValue;
    hide Extracted;
    hide Record;
    if f < 0 || f >= |b.schema.fields| { return Refused(ColumnCorrupt); }
    var fd := b.schema.fields[f];
    if fd.guarded { return Refused(ColumnGuarded); }
    if fd.variable || fd.bitOffset % 8 != 0 || fd.bitWidth % 8 != 0 { return Refused(ColumnShape); }
    if fd.dataType !in {TYPE_UINT, TYPE_SINT, TYPE_FLOAT} { return Refused(ColumnShape); }
    if !ColumnMatches(fd, want, bits) { return Refused(ColumnType); }
    var stride := b.schema.RecordBytes();
    var base, width := fd.bitOffset / 8, fd.bitWidth / 8;
    if stride <= 0 || base + width > stride { return Refused(ColumnShape); }
    var n := if d.Length < b.count then d.Length else b.count;
    if n == 0 { return Copied(0); }
    if (n - 1) * stride + base + width > |b.data| { return Refused(ColumnCorrupt); }
    CopyColumn(d, b.data, base, width, stride, n, fd.bigEndian);
    forall i | 0 <= i < n && Record(b, i).Some?
      ensures Extracted(Record(b, i).value, fd.bitOffset, fd.bitWidth, fd.bigEndian) == Some(d[i])
    {
      ColumnElement(b, i, base, width, fd.bigEndian);
    }
    return Copied(n);
  }

  lemma ColumnElement(b: Batch, i: nat, base: nat, width: nat, be: bool)
    requires Record(b, i).Some? && 0 < width <= 8 && base + width <= b.schema.RecordBytes()
    ensures i * b.schema.RecordBytes() + base + width <= |b.data|
    ensures Extracted(Record(b, i).value, 8 * base, 8 * width, be)
         == Some(FieldValue(b.data, 8 * (i * b.schema.RecordBytes() + base), 8 * width, be))
  {
    hide FieldValue;
    var n := b.schema.RecordBytes();
    var at := i * n;
    assert (i + 1) * n == at + n;
    Sample.SliceField(b.data, at, n, 8 * base, 8 * width, be);
    assert 8 * at + 8 * base == 8 * (at + base);
  }
}
