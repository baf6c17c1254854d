/** Where a field's bits lie in a record, and every reader of them.

    Both byte orders name a field's first bit with its offset and count upward
    from there; they differ in where a byte's bits start being counted. */
module Extract {
  import opened Bytes
  import opened BitOps

  /** Bit `n` of a record in one of the two numberings. */
  predicate RecBit(rec: bytes, n: nat, be: bool)
    requires n < 8 * |rec|
  {
    Bit(rec[n / 8], if be then 7 - n % 8 else n % 8)
  }

  /** The definition: a little-endian field's first bit is its least significant
      one, a big-endian field's first bit its most significant one. */
  function FieldValue(rec: bytes, off: nat, w: nat, be: bool): nat
    requires off + w <= 8 * |rec|
    decreases w
  {
    if w == 0 then 0
    else if be then
      2 * FieldValue(rec, off, w - 1, be) + (if RecBit(rec, off + w - 1, be) then 1 else 0)
    else
      2 * FieldValue(rec, off + 1, w - 1, be) + (if RecBit(rec, off, be) then 1 else 0)
  }

  lemma {:induction false} FieldBound(rec: bytes, off: nat, w: nat, be: bool)
    requires off + w <= 8 * |rec|
    ensures FieldValue(rec, off, w, be) < Pow2(w)
    decreases w
  {
    if w > 0 {
      FieldBound(rec, if be then off else off + 1, w - 1, be);
    }
  }

  lemma {:induction false} FieldBit(rec: bytes, off: nat, w: nat, be: bool, i: nat)
    requires off + w <= 8 * |rec| && i < w
    ensures Bit(FieldValue(rec, off, w, be), i) == RecBit(rec, if be then off + w - 1 - i else off + i, be)
    decreases w
  {
    var next := if be then off else off + 1;
    var v := FieldValue(rec, off, w, be);
    assert v / 2 == FieldValue(rec, next, w - 1, be);
    if i == 0 {
      assert Bit(v, 0) == (v % 2 == 1);
    } else {
      FieldBit(rec, next, w - 1, be, i - 1);
      assert Bit(v, i) == Bit(v / 2, i - 1);
    }
  }

  /** A number with exactly the field's bits is the field's value. */
  lemma FieldUnique(v: nat, rec: bytes, off: nat, w: nat, be: bool)
    requires off + w <= 8 * |rec| && v < Pow2(w)
    requires forall i :: 0 <= i < w ==> Bit(v, i) == RecBit(rec, if be then off + w - 1 - i else off + i, be)
    ensures v == FieldValue(rec, off, w, be)
  {
    FieldBound(rec, off, w, be);
    forall i | 0 <= i < w ensures Bit(v, i) == Bit(FieldValue(rec, off, w, be), i) {
      FieldBit(rec, off, w, be, i);
    }
    SameBits(v, FieldValue(rec, off, w, be), w);
  }

  /** What a bit reader answers: nothing for a width no word holds or a field
      that leaves the record, otherwise the field's value. */
  function Extracted(rec: bytes, off: nat, w: nat, be: bool): Option<nat> {
    if w == 0 || w > 64 || off + w > 8 * |rec| then None else Some(FieldValue(rec, off, w, be))
  }

  // --- the core reader --------------------------------------------------------------

  method ExtractBits(rec: bytes, off: nat, w: nat, be: bool) returns (r: Option<nat>)
    ensures r == Extracted(rec, off, w, be)
  {
    if w == 0 || w > 64 { return None; }
    if off + w > |rec| * 8 { return None; }
    if be {
      if off % 8 == 0 && w % 8 == 0 {
        var v := BigEndianBytes(rec, off / 8, w / 8);
        return Some(v);
      }
      var v := BigEndianBits(rec, off, w);
      return Some(v);
    }
    var v := LittleEndianChunks(rec, off, w);
    return Some(v);
  }

  /** One bit at a time, most significant first. */
  method BigEndianBits(rec: bytes, off: nat, w: nat) returns (v: nat)
    requires 0 < w <= 64 && off + w <= 8 * |rec|
    ensures v == FieldValue(rec, off, w, true)
  {
    v := 0;
    for i := 0 to w
      invariant v == FieldValue(rec, off, i, true)
    {
      var p := off + i;
      var b := And(Shr(rec[p / 8], 7 - p % 8), 1);
      PushBit(rec, off, i, v, b);
      v := Or(Shl64(v, 1), b);
    }
  }

  lemma PushBit(rec: bytes, off: nat, i: nat, v: nat, b: nat)
    requires off + i < 8 * |rec| && i < 64
    requires v == FieldValue(rec, off, i, true)
    requires b == And(Shr(rec[(off + i) / 8], 7 - (off + i) % 8), 1)
    ensures Or(Shl64(v, 1), b) == FieldValue(rec, off, i + 1, true)
  {
    var x := rec[(off + i) / 8];
    OneBit(x, 7 - (off + i) % 8);
    FieldBound(rec, off, i, true);
    ShiftIn(v, b, i);
  }

  /** The low bit of a shifted word is the bit shifted down to it. */
  lemma OneBit(x: nat, k: nat)
    ensures And(Shr(x, k), 1) == if Bit(x, k) then 1 else 0
  {
    BitShr(x, k, 0);
    var y := Shr(x, k);
    if y > 0 { AndZero(y / 2); }
  }

  lemma ShiftIn(v: nat, b: nat, i: nat)
    requires i < 64 && v < Pow2(i) && b <= 1
    ensures Or(Shl64(v, 1), b) == 2 * v + b
  {
    Pow2Sixty4();
    Pow2Mono(i, 63);
    assert Pow2(64) == 2 * Pow2(63);
    assert Pow2(1) == 2;
    assert Shl64(v, 1) == 2 * v;
    OrJoin(v, b, 1);
  }

  /** Whole bytes from a byte boundary. */
  method BigEndianBytes(rec: bytes, start: nat, n: nat) returns (v: nat)
    requires 0 < n <= 8 && start + n <= |rec|
    ensures v == FieldValue(rec, 8 * start, 8 * n, true)
  {
    v := 0;
    for i := 0 to n
      invariant v == FieldValue(rec, 8 * start, 8 * i, true)
    {
      PushByte(rec, start, i);
      v := Or(Shl64(v, 8), rec[start + i]);
    }
  }

  lemma PushByte(rec: bytes, start: nat, i: nat)
    requires i < 8 && start + i < |rec|
    ensures Or(Shl64(FieldValue(rec, 8 * start, 8 * i, true), 8), rec[start + i])
         == FieldValue(rec, 8 * start, 8 * i + 8, true)
  {
    var off, w := 8 * start, 8 * i + 8;
    var v := FieldValue(rec, off, w - 8, true);
    var x := rec[start + i];
    var r := Or(Shl64(v, 8), x);
    FieldBound(rec, off, w - 8, true);
    Pow2Sixty4();
    forall k: nat ensures Bit(r, k) <==> k < w && RecBit(rec, off + w - 1 - k, true) {
      PushedBit(rec, start, i, v, k);
    }
    LowBits(r, w);
    FieldUnique(r, rec, off, w, true);
  }

  lemma PushedBit(rec: bytes, start: nat, i: nat, v: nat, k: nat)
    requires i < 8 && start + i < |rec|
    requires v == FieldValue(rec, 8 * start, 8 * i, true)
    ensures Bit(Or(Shl64(v, 8), rec[start + i]), k) <==>
      k < 8 * i + 8 && RecBit(rec, 8 * start + 8 * i + 7 - k, true)
  {
    hide FieldValue;
    hide Bit;
    hide Or;
    hide Shl64;
    var x := rec[start + i];
    BitOr(Shl64(v, 8), x, k);
    BitShl64(v, 8, k);
    if k < 8 {
      DivUnique(8 * start + 8 * i + 7 - k, 8, start + i, 7 - k);
    } else {
      Pow2Sixty4();
      BitHigh(x, 8, k);
      if k < 8 * i + 8 {
        FieldBit(rec, 8 * start, 8 * i, true, k - 8);
      } else {
        FieldBound(rec, 8 * start, 8 * i, true);
        BitHigh(v, 8 * i, k - 8);
      }
    }
  }

  /** A byte's worth of bits at a time, least significant first; the last chunk
      may carry bits past the field, which the mask drops. */
  method LittleEndianChunks(rec: bytes, off: nat, w: nat) returns (v: nat)
    requires 0 < w <= 64 && off + w <= 8 * |rec|
    ensures v == FieldValue(rec, off, w, false)
  {
    hide Or;
    hide And;
    hide Shl64;
    hide Shr;
    hide RecBit;
    v := 0;
    var got: nat, byteIdx: nat, bitIdx: nat := 0, off / 8, off % 8;
    forall i: nat ensures !Bit(v, i) { BitZero(i); }
    while got < w
      invariant off + got == 8 * byteIdx + bitIdx && bitIdx < 8
      invariant off + got <= 8 * |rec|
      invariant Gathered(v, rec, off, got)
    {
      var chunk := Shr(rec[byteIdx], bitIdx);
      Gather(v, rec, off, got, byteIdx, bitIdx);
      v := Or(v, Shl64(chunk, got));
      got := got + (8 - bitIdx);
      byteIdx := byteIdx + 1;
      bitIdx := 0;
    }
    forall i: nat ensures Bit(v % Pow2(w), i) <==> i < w && Bit(v, i) { BitMod(v, w, i); }
    FieldUnique(v % Pow2(w), rec, off, w, false);
    if w < 64 {
      AndMask(v, w);
      v := And(v, Pow2(w) - 1);
    } else {
      LowBits(v, 64);
      FieldUnique(v, rec, off, w, false);
    }
  }

  /** `v` holds the first `got` bits of the field, as far as a word reaches. */
  ghost predicate Gathered(v: nat, rec: bytes, off: nat, got: nat)
    requires off + got <= 8 * |rec|
  {
    forall i: nat :: Bit(v, i) <==> i < got && i < 64 && RecBit(rec, off + i, false)
  }

  lemma Gather(v: nat, rec: bytes, off: nat, got: nat, byteIdx: nat, bitIdx: nat)
    requires byteIdx < |rec| && off + got == 8 * byteIdx + bitIdx && bitIdx < 8
    requires Gathered(v, rec, off, got)
    ensures Gathered(Or(v, Shl64(Shr(rec[byteIdx], bitIdx), got)), rec, off, got + 8 - bitIdx)
  {
    var x := rec[byteIdx];
    var chunk := Shr(x, bitIdx);
    var r := Or(v, Shl64(chunk, got));
    var end := got + 8 - bitIdx;
    Pow2Sixty4();
    forall i: nat ensures Bit(r, i) <==> i < end && i < 64 && RecBit(rec, off + i, false) {
      BitOr(v, Shl64(chunk, got), i);
      BitShl64(chunk, got, i);
      if i >= got {
        BitShr(x, bitIdx, i - got);
        var j := i - got + bitIdx;
        if j >= 8 {
          BitHigh(x, 8, j);
        } else {
          assert (off + i) / 8 == byteIdx && (off + i) % 8 == j;
        }
      }
    }
  }

  // --- the Motorola walk ------------------------------------------------------------

  /** A Motorola start bit in the record's own big-endian numbering. */
  function MotorolaOffset(start: nat): nat { 8 * (start / 8) + (7 - start % 8) }

  /** The reference walk: `bit` counts from each byte's least significant bit, and
      goes down within a byte and on to the top of the next one. */
  method MotorolaWalk(d: bytes, start: nat, n: nat) returns (v: nat, ok: bool)
    requires n <= 64
    ensures ok <==> n == 0 || MotorolaOffset(start) + n <= 8 * |d|
    ensures ok && n > 0 ==> v == FieldValue(d, MotorolaOffset(start), n, true)
  {
    hide Or;
    hide And;
    hide Shl64;
    hide Shr;
    v := 0;
    var bit := start;
    var off := MotorolaOffset(start);
    WalkStart(start);
    for i := 0 to n
      invariant bit == MotorolaOffset(off + i)
      invariant i > 0 ==> off + i <= 8 * |d|
      invariant i == 0 ==> v == 0
      invariant i > 0 ==> v == FieldValue(d, off, i, true)
    {
      WalkStep(off + i);
      if bit / 8 >= |d| { return v, false; }
      var b := And(Shr(d[bit / 8], bit % 8), 1);
      PushBit(d, off, i, v, b);
      v := Or(Shl64(v, 1), b);
      bit := if bit % 8 == 0 then bit + 15 else bit - 1;
    }
    ok := true;
  }

  lemma WalkStart(start: nat)
    ensures MotorolaOffset(MotorolaOffset(start)) == start
  {
    DivUnique(MotorolaOffset(start), 8, start / 8, 7 - start % 8);
  }

  /** One step down the walk is one step up the big-endian numbering. */
  lemma WalkStep(p: nat)
    ensures MotorolaOffset(p) / 8 == p / 8 && MotorolaOffset(p) % 8 == 7 - p % 8
    ensures MotorolaOffset(p + 1)
         == if MotorolaOffset(p) % 8 == 0 then MotorolaOffset(p) + 15 else MotorolaOffset(p) - 1
  {
    DivUnique(MotorolaOffset(p), 8, p / 8, 7 - p % 8);
    if p % 8 == 7 {
      DivUnique(p + 1, 8, p / 8 + 1, 0);
    } else {
      DivUnique(p + 1, 8, p / 8, p % 8 + 1);
    }
  }

  // --- reading a whole column ---------------------------------------------------------

  /** The strided copy: element `i` is `width` bytes at `base` in record `i`, read
      from whichever end the byte order names. Elements past `n` keep their value. */
  method CopyColumn(d: array<nat>, b: bytes, base: nat, width: nat, stride: nat, n: nat, be: bool)
    requires n <= d.Length && 0 < width <= 8 && base + width <= stride
    requires n > 0 ==> (n - 1) * stride + base + width <= |b|
    modifies d
    ensures forall i :: 0 <= i < n ==>
      i * stride + base + width <= |b| && d[i] == FieldValue(b, 8 * (i * stride + base), 8 * width, be)
    ensures d[n..] == old(d[n..])
  {
    for i := 0 to n
      invariant forall k :: 0 <= k < i ==>
        k * stride + base + width <= |b| && d[k] == FieldValue(b, 8 * (k * stride + base), 8 * width, be)
      invariant d[n..] == old(d[n..])
    {
      MulMono(stride, i, n - 1);
      var at := i * stride + base;
      if be {
        d[i] := BigEndianBytes(b, at, width);
      } else {
        WholeBytes(b, at, width);
        d[i] := FromLE(b[at..at + width]);
      }
    }
  }

  /** Whole bytes read least significant first are the little-endian field there. */
  lemma WholeBytes(b: bytes, at: nat, n: nat)
    requires at + n <= |b|
    ensures FromLE(b[at..at + n]) == FieldValue(b, 8 * at, 8 * n, false)
  {
    var s := b[at..at + n];
    FromLEBound(s);
    Pow256Pow2(n);
    forall i | 0 <= i < 8 * n ensures Bit(FromLE(s), i) == RecBit(b, 8 * at + i, false) {
      FromLEBit(s, i);
      DivUnique(8 * at + i, 8, at + i / 8, i % 8);
    }
    FieldUnique(FromLE(s), b, 8 * at, 8 * n, false);
  }

  lemma {:induction false} Pow256Pow2(n: nat)
    ensures Pow256(n) == Pow2(8 * n)
  {
    if n > 0 {
      Pow256Pow2(n - 1);
      Pow2Step8(8 * (n - 1));
    }
  }

  lemma {:induction false} FromLEBit(s: bytes, i: nat)
    requires i < 8 * |s|
    ensures Bit(FromLE(s), i) == Bit(s[i / 8], i % 8)
    decreases |s|
  {
    var v := FromLE(s);
    assert v % 256 == s[0] && v / 256 == FromLE(s[1..]);
    ByteSplit(v, i);
    if i >= 8 {
      FromLEBit(s[1..], i - 8);
      assert s[1..][(i - 8) / 8] == s[i / 8];
    }
  }

  lemma ByteSplit(v: nat, i: nat)
    ensures v / 256 >= 0 && Bit(v, i) == if i < 8 then Bit(v % 256, i) else Bit(v / 256, i - 8)
  {
    Pow2Sixty4();
    if i < 8 {
      BitMod(v, 8, i);
    } else {
      BitShr(v, 8, i - 8);
    }
  }
}
