/** MDF's own decoding of a channel, and the same bits read through the record
    the importer writes: the axis, then the MDF record as it was, then whatever
    follows. */
module Sample {
  import opened Bytes
  import opened BitOps
  import opened Extract

  /** MDF's reading of `w` bits at `off` within `b`, assembled bit by bit. */
  method BitsOf(b: bytes, off: nat, w: nat, be: bool) returns (r: Option<nat>)
    ensures r == Extracted(b, off, w, be)
  {
    if w == 0 || w > 64 || off + w > 8 * |b| { return None; }
    if be {
      var v := BigEndianBits(b, off, w);
      return Some(v);
    }
    var v := 0;
    forall k: nat ensures !Bit(v, k) { BitZero(k); }
    for i := 0 to w
      invariant Gathered(v, b, off, i)
    {
      var p := off + i;
      var bit := And(Shr(b[p / 8], p % 8), 1);
      GatherBit(v, b, off, i);
      v := Or(v, Shl64(bit, i));
    }
    LowBits(v, w);
    FieldUnique(v, b, off, w, false);
    return Some(v);
  }

  lemma GatherBit(v: nat, b: bytes, off: nat, i: nat)
    requires off + i < 8 * |b| && i < 64 && Gathered(v, b, off, i)
    ensures Gathered(Or(v, Shl64(And(Shr(b[(off + i) / 8], (off + i) % 8), 1), i)), b, off, i + 1)
  {
    var p := off + i;
    var bit := And(Shr(b[p / 8], p % 8), 1);
    OneBit(b[p / 8], p % 8);
    forall k: nat ensures Bit(Or(v, Shl64(bit, i)), k) <==> k < i + 1 && k < 64 && RecBit(b, off + k, false) {
      BitOr(v, Shl64(bit, i), k);
      BitShl64(bit, i, k);
      if k > i { BitHigh(bit, 1, k - i); }
    }
  }

  function Sixty4(w: nat): nat { if w < 64 then w else 64 }

  /** A byte shifted into a word: what is pushed past the top is lost. */
  lemma ByteInBit(v: nat, x: byte, k: nat)
    ensures Bit(Or(Shl64(v, 8), x), k) <==> if k < 8 then Bit(x, k) else k < 64 && Bit(v, k - 8)
  {
    hide Bit, Or, Shl64;
    BitOr(Shl64(v, 8), x, k);
    BitShl64(v, 8, k);
    if k >= 8 {
      Pow2Sixty4();
      BitHigh(x, 8, k);
    }
  }

  lemma ByteInBound(v: nat, x: byte, w: nat)
    requires v < Pow2(w) && w <= 64
    ensures Or(Shl64(v, 8), x) < Pow2(Sixty4(w + 8))
  {
    hide Bit, Or, Shl64, Pow2;
    var r, n := Or(Shl64(v, 8), x), Sixty4(w + 8);
    forall k: nat | k >= n ensures !Bit(r, k) {
      ByteInBit(v, x, k);
      if k < 64 { BitHigh(v, w, k - 8); }
    }
    LowBits(r, n);
  }

  /** Whole bytes read from the last to the first: the low 64 bits of a channel that has
      more. */
  method BytesDown(b: bytes) returns (v: nat)
    ensures v == FieldValue(b, 0, Sixty4(8 * |b|), false)
  {
    v := 0;
    var i := |b|;
    assert FieldValue(b, 8 * |b|, 0, false) == 0;
    while i > 0
      invariant 0 <= i <= |b| && v == FieldValue(b, 8 * i, Sixty4(8 * (|b| - i)), false)
    {
      i := i - 1;
      DownStep(b, i, v);
      v := Or(Shl64(v, 8), b[i]);
    }
  }

  lemma DownStep(b: bytes, i: nat, v: nat)
    requires i < |b| && v == FieldValue(b, 8 * (i + 1), Sixty4(8 * (|b| - i - 1)), false)
    ensures Or(Shl64(v, 8), b[i]) == FieldValue(b, 8 * i, Sixty4(8 * (|b| - i)), false)
  {
    hide Bit, Or, Shl64, Pow2, FieldValue, RecBit;
    var w := Sixty4(8 * (|b| - i - 1));
    FieldBound(b, 8 * (i + 1), w, false);
    ByteInBound(v, b[i], w);
    var r, n := Or(Shl64(v, 8), b[i]), Sixty4(w + 8);
    forall k | 0 <= k < n ensures Bit(r, k) == RecBit(b, 8 * i + k, false) {
      ByteInBit(v, b[i], k);
      if k < 8 {
        ByteBit(b, i, k);
      } else {
        FieldBit(b, 8 * (i + 1), w, false, k - 8);
      }
    }
    FieldUnique(r, b, 8 * i, n, false);
  }

  lemma ByteBit(b: bytes, i: nat, k: nat)
    requires i < |b| && k < 8
    ensures RecBit(b, 8 * i + k, false) == Bit(b[i], k)
    ensures RecBit(b, 8 * i + 7 - k, true) == Bit(b[i], k)
  {
    hide Bit;
    DivUnique(8 * i + k, 8, i, k);
    DivUnique(8 * i + 7 - k, 8, i, 7 - k);
  }

  /** And from the first to the last: the last 64 bits. */
  method BytesUp(b: bytes) returns (v: nat)
    ensures v == FieldValue(b, 8 * |b| - Sixty4(8 * |b|), Sixty4(8 * |b|), true)
  {
    v := 0;
    assert FieldValue(b, 0, 0, true) == 0;
    for i := 0 to |b|
      invariant v == FieldValue(b, 8 * i - Sixty4(8 * i), Sixty4(8 * i), true)
    {
      UpStep(b, i, v);
      v := Or(Shl64(v, 8), b[i]);
    }
  }

  lemma UpStep(b: bytes, i: nat, v: nat)
    requires i < |b| && v == FieldValue(b, 8 * i - Sixty4(8 * i), Sixty4(8 * i), true)
    ensures Or(Shl64(v, 8), b[i]) == FieldValue(b, 8 * i + 8 - Sixty4(8 * i + 8), Sixty4(8 * i + 8), true)
  {
    hide Bit, Or, Shl64, Pow2, FieldValue, RecBit;
    var w := Sixty4(8 * i);
    FieldBound(b, 8 * i - w, w, true);
    ByteInBound(v, b[i], w);
    var r, n := Or(Shl64(v, 8), b[i]), Sixty4(w + 8);
    forall k | 0 <= k < n ensures Bit(r, k) == RecBit(b, 8 * i + 7 - k, true) {
      ByteInBit(v, b[i], k);
      if k < 8 {
        ByteBit(b, i, k);
      } else {
        FieldBit(b, 8 * i - w, w, true, k - 8);
      }
    }
    FieldUnique(r, b, 8 * i + 8 - n, n, true);
  }

  /** What a numeric channel's bits are: of whole bytes, at most 64 of them, whatever the
      width; otherwise a width no word holds is refused. */
  function ChannelValue(rec: bytes, byteOffset: nat, off: nat, w: nat, be: bool): Option<nat> {
    var at := 8 * byteOffset + off;
    if byteOffset + (off + w + 7) / 8 > |rec| then None
    else if off == 0 && w % 8 == 0 then Some(FieldValue(rec, if be then at + w - Sixty4(w) else at, Sixty4(w), be))
    else if w == 0 || w > 64 then None
    else Some(FieldValue(rec, at, w, be))
  }

  /** The channel's stored bits: `byteOffset` bytes into the record, `off` bits on. */
  method ChannelBits(rec: bytes, byteOffset: nat, off: nat, w: nat, be: bool) returns (r: Option<nat>)
    ensures r == ChannelValue(rec, byteOffset, off, w, be)
  {
    hide FieldValue;
    var n := (off + w + 7) / 8;
    if byteOffset + n > |rec| { return None; }
    var b := rec[byteOffset..byteOffset + n];
    if off == 0 && w % 8 == 0 {
      assert 8 * n == w;
      if be {
        SliceField(rec, byteOffset, n, w - Sixty4(w), Sixty4(w), true);
        var v := BytesUp(b);
        return Some(v);
      }
      SliceField(rec, byteOffset, n, 0, Sixty4(w), false);
      var v := BytesDown(b);
      return Some(v);
    }
    SliceField(rec, byteOffset, n, off, w, be);
    r := BitsOf(b, off, w, be);
  }

  lemma SliceField(rec: bytes, at: nat, n: nat, off: nat, w: nat, be: bool)
    requires at + n <= |rec| && off + w <= 8 * n
    ensures FieldValue(rec[at..at + n], off, w, be) == FieldValue(rec, 8 * at + off, w, be)
  {
    assert rec == rec[..at] + rec[at..at + n] + rec[at + n..];
    FieldInside(rec[..at], rec[at..at + n], rec[at + n..], off, w, be);
  }

  /** A field keeps its value when bytes are put before and after the record it is
      in and its offset is moved past the bytes before. */
  lemma {:induction false} FieldInside(pre: bytes, rec: bytes, post: bytes, off: nat, w: nat, be: bool)
    requires off + w <= 8 * |rec|
    ensures FieldValue(pre + rec + post, 8 * |pre| + off, w, be) == FieldValue(rec, off, w, be)
    decreases w
  {
    hide RecBit;
    if w > 0 {
      FieldInside(pre, rec, post, if be then off else off + 1, w - 1, be);
      BitInside(pre, rec, post, if be then off + w - 1 else off, be);
    }
  }

  lemma BitInside(pre: bytes, rec: bytes, post: bytes, at: nat, be: bool)
    requires at < 8 * |rec|
    ensures RecBit(pre + rec + post, 8 * |pre| + at, be) == RecBit(rec, at, be)
  {
    DivUnique(8 * |pre| + at, 8, |pre| + at / 8, at % 8);
    assert (pre + rec + post)[|pre| + at / 8] == rec[at / 8];
  }

  /** A channel read by MDF's rules is the field the importer declares for it, read
      out of the axis-prefixed record. */
  lemma ChannelIsField(axis: bytes, rec: bytes, inlined: bytes, byteOffset: nat, off: nat, w: nat, be: bool)
    requires 0 < w <= 64 && byteOffset + (off + w + 7) / 8 <= |rec|
    ensures Extracted(axis + rec + inlined, 8 * |axis| + 8 * byteOffset + off, w, be)
         == Some(FieldValue(rec, 8 * byteOffset + off, w, be))
  {
    hide FieldValue;
    FieldInside(axis, rec, inlined, 8 * byteOffset + off, w, be);
  }

  /** MDF marks a sample invalid with a bit in the bytes after the record. */
  predicate Invalid(rec: bytes, hasBit: bool, recordBytes: nat, invalBit: nat) {
    hasBit &&
    var i := recordBytes + invalBit / 8;
    i < |rec| && Bit(rec[i], invalBit % 8)
  }

  /** The importer's guard, a one-bit field that must hold zero, is satisfied
      exactly when MDF calls the sample valid. */
  lemma GuardIsValidity(axis: bytes, rec: bytes, inlined: bytes, recordBytes: nat, invalBit: nat)
    requires recordBytes + invalBit / 8 < |rec|
    ensures Extracted(axis + rec + inlined, 8 * (|axis| + recordBytes) + invalBit, 1, false) == Some(0)
      <==> !Invalid(rec, true, recordBytes, invalBit)
  {
    FieldInside(axis, rec, inlined, 8 * recordBytes + invalBit, 1, false);
    var at := 8 * recordBytes + invalBit;
    DivUnique(at, 8, recordBytes + invalBit / 8, invalBit % 8);
    assert FieldValue(rec, at + 1, 0, false) == 0;
  }

  // --- sign extension ---------------------------------------------------------------

  function Signed64(v: nat): int
    requires v < BitOps.TWO64
  {
    if v < BitOps.TWO64 / 2 then v else v - BitOps.TWO64
  }

  /** Shift the sign bit to the top of the word and arithmetically back. */
  function SignExtend(v: nat, w: nat): int
    requires v < BitOps.TWO64
  {
    if w >= 64 then Signed64(v)
    else
      var shift := 64 - w;
      Signed64(Shl64(v, shift)) / Pow2(shift)
  }

  lemma SignExtendIsTwosComplement(v: nat, w: nat)
    requires 0 < w <= 64 && v < Pow2(w)
    ensures v < BitOps.TWO64
    ensures SignExtend(v, w) == if v < Pow2(w - 1) then v else v - Pow2(w)
  {
    Pow2Sixty4();
    Pow2Mono(w, 64);
    if w < 64 {
      Pow2Add(w, 64 - w);
      Pow2Add(w - 1, 64 - w);
      ShiftedSign(v, Pow2(w - 1), Pow2(64 - w));
    }
  }

  lemma ShiftedSign(v: nat, half: nat, p: nat)
    requires p > 0 && v < 2 * half && half * p == BitOps.TWO64 / 2
    ensures v * p < BitOps.TWO64
    ensures Signed64((v * p) % BitOps.TWO64) / p == if v < half then v else v - 2 * half
  {
    MulMono(p, v + 1, 2 * half);
    assert p * (v + 1) == v * p + p && p * (2 * half) == BitOps.TWO64;
    var k := if v < half then v else v - 2 * half;
    if v < half {
      MulMono(p, v + 1, half);
    } else {
      MulMono(p, half, v);
      assert p * k == p * v - p * (2 * half);
    }
    assert Signed64(v * p) == p * k;
    DivUnique(p * k, p, k, 0);
  }

  // --- the record as one integer -----------------------------------------------------

  /** A record of bytes as one integer, read from either end. */
  function WholeRecord(rec: bytes, be: bool): nat { FieldValue(rec, 0, 8 * |rec|, be) }

  /** Each byte order's field is one shift and one mask of the whole record read
      in that order. */
  lemma FieldIsShift(rec: bytes, off: nat, w: nat, be: bool)
    requires off + w <= 8 * |rec|
    ensures FieldValue(rec, off, w, be)
         == Shr(WholeRecord(rec, be), if be then 8 * |rec| - off - w else off) % Pow2(w)
  {
    hide FieldValue, Bit, RecBit, Shr, Pow2;
    var n := 8 * |rec|;
    var s := if be then n - off - w else off;
    var r := WholeRecord(rec, be);
    forall i | 0 <= i < w
      ensures Bit(Shr(r, s) % Pow2(w), i) == RecBit(rec, if be then off + w - 1 - i else off + i, be)
    {
      BitMod(Shr(r, s), w, i);
      BitShr(r, s, i);
      FieldBit(rec, 0, n, be, i + s);
    }
    FieldUnique(Shr(r, s) % Pow2(w), rec, off, w, be);
  }
}
