/** Records laid out field by field, and every field read back as what was laid there. */
module Cells {
  import opened Bytes
  import opened BitOps
  import opened Wire
  import opened Format
  import opened Extract
  import opened Records
  import Sample

  // --- laying records out -----------------------------------------------------------------------------

  function Joined(parts: seq<bytes>): bytes {
    if parts == [] then [] else Joined(parts[..|parts| - 1]) + parts[|parts| - 1]
  }

  /** What is given for the variable ones of the first `n` fields, in field order. */
  function Given(fs: seq<Field>, cells: seq<bytes>, n: nat): seq<bytes>
    requires n <= |fs| == |cells|
  {
    if n == 0 then [] else Given(fs, cells, n - 1) + if fs[n - 1].variable then [cells[n - 1]] else []
  }

  function Rows(fs: seq<Field>, cells: seq<seq<bytes>>): (r: seq<seq<bytes>>)
    requires forall c :: c in cells ==> |c| == |fs|
    ensures |r| == |cells| && forall i :: 0 <= i < |cells| ==> r[i] == Given(fs, cells[i], |fs|)
  {
    seq(|cells|, i requires 0 <= i < |cells| => Given(fs, cells[i], |fs|))
  }

  /** A fixed part and a cell a field, of each record. */
  predicate Shaped(s: Schema, fixed: seq<bytes>, cells: seq<seq<bytes>>) {
    |cells| == |fixed| && (forall r :: r in fixed ==> |r| == s.RecordBytes()) &&
    forall c :: c in cells ==> |c| == |s.fields| && forall v :: v in c ==> StrFits(v)
  }

  /** The fixed parts, and behind them each record's blobs in field order. */
  function LaidOut(s: Schema, fixed: seq<bytes>, cells: seq<seq<bytes>>): bytes
    requires Shaped(s, fixed, cells)
  {
    Joined(fixed) + PutTails(Rows(s.fields, cells), [])
  }

  /** A batch that decodes from such data. */
  ghost predicate Holds(b: Batch, fixed: seq<bytes>, cells: seq<seq<bytes>>) {
    Shaped(b.schema, fixed, cells) && b.count == |fixed| && b.data == LaidOut(b.schema, fixed, cells) &&
    TailsOf(b.schema, b.count, b.data) == Some(b.tails)
  }

  // --- where things are -------------------------------------------------------------------------------

  lemma {:induction false} JoinedAt(parts: seq<bytes>, n: nat, i: nat)
    requires i < |parts| && forall p :: p in parts ==> |p| == n
    ensures |Joined(parts)| == |parts| * n && i * n <= (i + 1) * n <= |Joined(parts)|
    ensures Joined(parts)[i * n..(i + 1) * n] == parts[i]
    decreases |parts|
  {
    var k := |parts| - 1;
    var rest := parts[..k];
    JoinedSize(rest, n);
    assert (k + 1) * n == k * n + n && (i + 1) * n == i * n + n;
    if i < k {
      JoinedAt(rest, n, i);
      assert Joined(parts)[i * n..(i + 1) * n] == Joined(rest)[i * n..(i + 1) * n];
    }
  }

  lemma {:induction false} JoinedSize(parts: seq<bytes>, n: nat)
    requires forall p :: p in parts ==> |p| == n
    ensures |Joined(parts)| == |parts| * n
  {
    if parts != [] {
      var k := |parts| - 1;
      JoinedSize(parts[..k], n);
      OneMore(k, n);
      hide *;
    }
  }

  lemma OneMore(k: nat, n: nat)
    ensures (k + 1) * n == k * n + n
  {
  }

  lemma {:induction false} GivenSize(fs: seq<Field>, cells: seq<bytes>, n: nat)
    requires n <= |fs| == |cells|
    ensures |Given(fs, cells, n)| == VarOrdinal(fs, n)
  {
    if n > 0 { GivenSize(fs, cells, n - 1); }
  }

  lemma {:induction false} GivenAt(fs: seq<Field>, cells: seq<bytes>, n: nat, f: nat)
    requires f < n <= |fs| == |cells| && fs[f].variable
    ensures VarOrdinal(fs, f) < |Given(fs, cells, n)| && Given(fs, cells, n)[VarOrdinal(fs, f)] == cells[f]
  {
    if f < n - 1 { GivenAt(fs, cells, n - 1, f); } else { GivenSize(fs, cells, f); }
  }

  lemma {:induction false} GivenFits(fs: seq<Field>, cells: seq<bytes>, n: nat)
    requires n <= |fs| == |cells| && forall v :: v in cells ==> StrFits(v)
    ensures forall v :: v in Given(fs, cells, n) ==> StrFits(v)
  {
    if n > 0 { GivenFits(fs, cells, n - 1); }
  }

  lemma {:induction false} OrdinalShift(f: Field, fs: seq<Field>, n: nat)
    requires n <= |fs|
    ensures VarOrdinal([f] + fs, n + 1) == (if f.variable then 1 else 0) + VarOrdinal(fs, n)
  {
    if n == 0 {
      assert VarOrdinal([f] + fs, 0) == 0;
    } else {
      OrdinalShift(f, fs, n - 1);
    }
  }

  lemma {:induction false} OrdinalAll(fs: seq<Field>)
    ensures VarOrdinal(fs, |fs|) == Variables(fs)
  {
    if fs != [] {
      OrdinalAll(fs[1..]);
      OrdinalShift(fs[0], fs[1..], |fs| - 1);
      assert [fs[0]] + fs[1..] == fs;
    }
  }

  lemma RowsFit(fs: seq<Field>, cells: seq<seq<bytes>>)
    requires forall c :: c in cells ==> |c| == |fs| && forall v :: v in c ==> StrFits(v)
    ensures forall r :: r in Rows(fs, cells) ==> |r| == Variables(fs) && forall v :: v in r ==> StrFits(v)
  {
    hide StrFits;
    var rows := Rows(fs, cells);
    OrdinalAll(fs);
    forall r | r in rows ensures |r| == Variables(fs) && forall v :: v in r ==> StrFits(v) {
      var i :| 0 <= i < |rows| && rows[i] == r;
      assert cells[i] in cells;
      GivenSize(fs, cells[i], |fs|);
      GivenFits(fs, cells[i], |fs|);
    }
  }

  /** The data decodes, and to these rows. */
  lemma LaidOutDecodes(s: Schema, fixed: seq<bytes>, cells: seq<seq<bytes>>)
    requires Shaped(s, fixed, cells)
    ensures TailsOf(s, |fixed|, LaidOut(s, fixed, cells)) == Some(if s.VarCount() == 0 then [] else Rows(s.fields, cells))
  {
    var rows := Rows(s.fields, cells);
    RowsFit(s.fields, cells);
    JoinedSize(fixed, s.RecordBytes());
    var data := LaidOut(s, fixed, cells);
    assert data[|fixed| * s.RecordBytes()..] == PutTails(rows, []);
    TailsBack(rows, s.VarCount(), [], []);
    assert [] + rows == rows;
    hide TakeTails;
    hide PutTails;
    hide Joined;
    hide Rows;
  }

  predicate SliceIs(s: bytes, lo: nat, hi: nat, part: bytes) { lo <= hi <= |s| && s[lo..hi] == part }

  lemma RecordBack(b: Batch, fixed: seq<bytes>, cells: seq<seq<bytes>>, i: nat)
    requires Holds(b, fixed, cells) && i < |fixed|
    ensures Record(b, i) == Some(fixed[i])
  {
    hide *;
    var n := b.schema.RecordBytes();
    var j, tail := DataParts(b, fixed, cells);
    FixedAt(fixed, n, i, j);
    SliceInside(j, tail, i * n, (i + 1) * n, fixed[i]);
    RecordIs(b, i, n, fixed[i]);
  }

  lemma DataParts(b: Batch, fixed: seq<bytes>, cells: seq<seq<bytes>>) returns (j: bytes, tail: bytes)
    requires Holds(b, fixed, cells)
    ensures b.count == |fixed| && b.data == j + tail && j == Joined(fixed)
    ensures forall r :: r in fixed ==> |r| == b.schema.RecordBytes()
  {
    hide PutTails;
    hide TailsOf;
    hide Rows;
    hide Joined;
    j, tail := Joined(fixed), PutTails(Rows(b.schema.fields, cells), []);
  }

  lemma FixedAt(fixed: seq<bytes>, n: nat, i: nat, j: bytes)
    requires j == Joined(fixed) && i < |fixed| && forall r :: r in fixed ==> |r| == n
    ensures SliceIs(j, i * n, (i + 1) * n, fixed[i])
  {
    JoinedAt(fixed, n, i);
    hide Joined;
  }

  lemma SliceInside(j: bytes, tail: bytes, lo: nat, hi: nat, part: bytes)
    requires SliceIs(j, lo, hi, part)
    ensures SliceIs(j + tail, lo, hi, part)
  {
  }

  lemma RecordIs(b: Batch, i: nat, n: nat, rec: bytes)
    requires n == b.schema.RecordBytes() && i < b.count && SliceIs(b.data, i * n, (i + 1) * n, rec)
    ensures Record(b, i) == Some(rec)
  {
  }

  // --- reading them back --------------------------------------------------------------------------------

  /** What a variable field's cell is read as. */
  function CellValue(f: Field, cell: bytes): Answer {
    if f.dataType == TYPE_BYTES then Answer.Value(Blob(cell))
    else if f.dataType == TYPE_STRING then Answer.Value(Text(cell))
    else Corrupt
  }

  /** A variable field reads as its own cell, whatever other fields there are; where it
      is guarded, when its discriminator has the value it asks for, and is absent when it
      has another. */
  lemma CellBack(b: Batch, fixed: seq<bytes>, cells: seq<seq<bytes>>, i: nat, f: nat)
    requires Holds(b, fixed, cells) && i < |fixed| && f < |b.schema.fields| && b.schema.fields[f].variable
    ensures var fd := b.schema.fields[f];
      !fd.guarded ==> Raw(b, i, f) == CellValue(fd, cells[i][f])
    ensures var fd := b.schema.fields[f];
      fd.guarded && fd.guardField < |b.schema.fields| ==>
        var g := b.schema.fields[fd.guardField];
        match Extracted(fixed[i], g.bitOffset, if g.dataType == TYPE_BOOL then 1 else g.bitWidth, g.bigEndian)
        case None => Raw(b, i, f) == Corrupt
        case Some(v) => Raw(b, i, f) == if v == fd.guardValue then CellValue(fd, cells[i][f]) else Absent
  {
    hide *;
    RecordBack(b, fixed, cells, i);
    TailThere(b, fixed, cells, i, f);
    RawVariable(b, i, f, fixed[i], cells[i][f]);
  }

  /** The cell is where the field's ordinal says. */
  predicate Kept(b: Batch, i: nat, f: nat, cell: bytes) {
    f <= |b.schema.fields| && i < |b.tails| && VarOrdinal(b.schema.fields, f) < |b.tails[i]| &&
    b.tails[i][VarOrdinal(b.schema.fields, f)] == cell
  }

  lemma TailThere(b: Batch, fixed: seq<bytes>, cells: seq<seq<bytes>>, i: nat, f: nat)
    requires Holds(b, fixed, cells) && i < |fixed| && f < |b.schema.fields| && b.schema.fields[f].variable
    ensures |cells| == |fixed| && |cells[i]| == |b.schema.fields| && Kept(b, i, f, cells[i][f])
  {
    var s := b.schema;
    LaidOutDecodes(s, fixed, cells);
    SomeVariable(s.fields, f);
    assert cells[i] in cells;
    GivenAt(s.fields, cells[i], |s.fields|, f);
    hide VarOrdinal;
    hide Given;
    hide LaidOut;
    hide TailsOf;
  }

  lemma RawVariable(b: Batch, i: nat, f: nat, rec: bytes, cell: bytes)
    requires Record(b, i) == Some(rec) && f < |b.schema.fields| && b.schema.fields[f].variable && Kept(b, i, f, cell)
    ensures var fd := b.schema.fields[f];
      !fd.guarded ==> Raw(b, i, f) == CellValue(fd, cell)
    ensures var fd := b.schema.fields[f];
      fd.guarded && fd.guardField < |b.schema.fields| ==>
        var g := b.schema.fields[fd.guardField];
        match Extracted(rec, g.bitOffset, if g.dataType == TYPE_BOOL then 1 else g.bitWidth, g.bigEndian)
        case None => Raw(b, i, f) == Corrupt
        case Some(v) => Raw(b, i, f) == if v == fd.guardValue then CellValue(fd, cell) else Absent
  {
    hide Extracted;
    hide Record;
    hide VarOrdinal;
  }

  lemma {:induction false} SomeVariable(fs: seq<Field>, f: nat)
    requires f < |fs| && fs[f].variable
    ensures Variables(fs) > 0
  {
    if f > 0 { SomeVariable(fs[1..], f - 1); }
  }

  /** A fixed field reads as its bits in the record's fixed part, in its own type. */
  lemma FixedBack(b: Batch, fixed: seq<bytes>, cells: seq<seq<bytes>>, i: nat, f: nat)
    requires Holds(b, fixed, cells) && i < |fixed| && f < |b.schema.fields|
    requires var fd := b.schema.fields[f];
      !fd.variable && !fd.guarded && 0 < fd.bitWidth <= 64 && fd.bitOffset + fd.bitWidth <= 8 * b.schema.RecordBytes()
    ensures var fd := b.schema.fields[f];
      var n := FieldValue(fixed[i], fd.bitOffset, fd.bitWidth, fd.bigEndian);
      var half := Pow2(fd.bitWidth - 1);
      (fd.dataType == TYPE_UINT ==> Raw(b, i, f) == Answer.Value(Unsigned(n))) &&
      (fd.dataType == TYPE_SINT ==> Raw(b, i, f) == Answer.Value(Signed(if n < half then n else n - 2 * half))) &&
      (fd.dataType == TYPE_BOOL && fd.bitWidth == 1 ==> Raw(b, i, f) == Answer.Value(Flag(n == 1))) &&
      (fd.dataType == TYPE_FLOAT && (fd.bitWidth == 32 || fd.bitWidth == 64) ==>
        Raw(b, i, f) == Answer.Value(Float(n, fd.bitWidth)))
  {
    hide *;
    RecordBack(b, fixed, cells, i);
    var j, tail := DataParts(b, fixed, cells);
    assert fixed[i] in fixed;
    RawFixed(b, i, f, fixed[i]);
    TypedBits(fixed[i], b.schema.fields[f]);
  }

  /** A guarded one does when its discriminator has the value it asks for. */
  lemma GuardedBack(b: Batch, fixed: seq<bytes>, cells: seq<seq<bytes>>, i: nat, f: nat)
    requires Holds(b, fixed, cells) && i < |fixed| && f < |b.schema.fields|
    requires var fd := b.schema.fields[f]; !fd.variable && fd.guarded && fd.guardField < |b.schema.fields|
    ensures var fd := b.schema.fields[f];
      var g := b.schema.fields[fd.guardField];
      match Extracted(fixed[i], g.bitOffset, if g.dataType == TYPE_BOOL then 1 else g.bitWidth, g.bigEndian)
      case None => Raw(b, i, f) == Corrupt
      case Some(v) => Raw(b, i, f) == if v == fd.guardValue then RawValue(fixed[i], fd) else Absent
  {
    RecordBack(b, fixed, cells, i);
    hide Record;
    hide RawValue;
    hide Extracted;
    hide Holds;
  }

  lemma RawFixed(b: Batch, i: nat, f: nat, rec: bytes)
    requires Record(b, i) == Some(rec) && f < |b.schema.fields|
    requires !b.schema.fields[f].variable && !b.schema.fields[f].guarded
    ensures Raw(b, i, f) == RawValue(rec, b.schema.fields[f])
  {
    hide Record;
    hide RawValue;
  }

  lemma TypedBits(rec: bytes, fd: Field)
    requires !fd.variable && 0 < fd.bitWidth <= 64 && fd.bitOffset + fd.bitWidth <= 8 * |rec|
    ensures var n := FieldValue(rec, fd.bitOffset, fd.bitWidth, fd.bigEndian);
      var half := Pow2(fd.bitWidth - 1);
      (fd.dataType == TYPE_UINT ==> RawValue(rec, fd) == Answer.Value(Unsigned(n))) &&
      (fd.dataType == TYPE_SINT ==> RawValue(rec, fd) == Answer.Value(Signed(if n < half then n else n - 2 * half))) &&
      (fd.dataType == TYPE_BOOL && fd.bitWidth == 1 ==> RawValue(rec, fd) == Answer.Value(Flag(n == 1))) &&
      (fd.dataType == TYPE_FLOAT && (fd.bitWidth == 32 || fd.bitWidth == 64) ==>
        RawValue(rec, fd) == Answer.Value(Float(n, fd.bitWidth)))
  {
    var n := FieldValue(rec, fd.bitOffset, fd.bitWidth, fd.bigEndian);
    FieldBound(rec, fd.bitOffset, fd.bitWidth, fd.bigEndian);
    hide FieldValue;
    hide RawValue;
    hide Pow2;
    if fd.dataType == TYPE_SINT {
      SignedBits(rec, fd, n);
    } else {
      PlainBits(rec, fd, n);
    }
  }

  lemma SignedBits(rec: bytes, fd: Field, n: nat)
    requires fd.dataType == TYPE_SINT && !fd.variable && 0 < fd.bitWidth <= 64 && n < Pow2(fd.bitWidth)
    requires Extracted(rec, fd.bitOffset, fd.bitWidth, fd.bigEndian) == Some(n)
    ensures var half := Pow2(fd.bitWidth - 1);
      RawValue(rec, fd) == Answer.Value(Signed(if n < half then n else n - 2 * half))
  {
    Sample.SignExtendIsTwosComplement(n, fd.bitWidth);
    assert Pow2(fd.bitWidth) == 2 * Pow2(fd.bitWidth - 1);
    hide Extracted;
    hide Sample.SignExtend;
    hide Pow2;
  }

  lemma PlainBits(rec: bytes, fd: Field, n: nat)
    requires fd.dataType != TYPE_SINT && !fd.variable && 0 < fd.bitWidth <= 64 && n < Pow2(fd.bitWidth)
    requires Extracted(rec, fd.bitOffset, fd.bitWidth, fd.bigEndian) == Some(n)
    ensures fd.dataType == TYPE_UINT ==> RawValue(rec, fd) == Answer.Value(Unsigned(n))
    ensures fd.dataType == TYPE_BOOL && fd.bitWidth == 1 ==> RawValue(rec, fd) == Answer.Value(Flag(n == 1))
    ensures fd.dataType == TYPE_FLOAT && (fd.bitWidth == 32 || fd.bitWidth == 64) ==>
      RawValue(rec, fd) == Answer.Value(Float(n, fd.bitWidth))
  {
    assert Pow2(1) == 2;
    hide Extracted;
    hide Sample.SignExtend;
    hide Pow2;
  }
}
