/** Packing a record: every field is one shift into one of two integers, one for each
    byte order, and the record is both together. */
module Pack {
  import opened Bytes
  import opened BitOps
  import opened Extract
  import opened DbcEncode
  import Sample

  /** A field's place and the bits it is to hold. */
  datatype Piece = Piece(off: nat, w: nat, be: bool, raw: nat)

  predicate Lies(p: Piece, size: nat) { p.off + p.w <= 8 * size && p.raw < Pow2(p.w) }

  /** Wire bit `q` is one of the field's, and its value there. */
  predicate Covers(p: Piece, q: nat) { p.off <= Physical8(q, p.be) < p.off + p.w }

  predicate Sets(p: Piece, q: nat) {
    Covers(p, q) &&
    Bit(p.raw, if p.be then p.off + p.w - 1 - Physical8(q, p.be) else Physical8(q, p.be) - p.off)
  }

  ghost predicate Set(ps: seq<Piece>, be: bool, q: nat) {
    exists j :: 0 <= j < |ps| && ps[j].be == be && Sets(ps[j], q)
  }

  function Reversed(s: bytes): (r: bytes)
    ensures |r| == |s|
    ensures forall i :: 0 <= i < |s| ==> r[i] == s[|s| - 1 - i]
  {
    seq(|s|, i requires 0 <= i < |s| => s[|s| - 1 - i])
  }

  /** Where a wire bit is in the integer of a byte order. */
  function Position(size: nat, be: bool, q: nat): nat
    requires q < 8 * size
  {
    PhysicalTwice(q, be);
    PhysicalBelow(q, be, size);
    if be then 8 * size - 1 - Physical8(q, be) else Physical8(q, be)
  }

  /** An integer has the bits the fields of its byte order set, and no others. */
  ghost predicate Gathering(acc: nat, ps: seq<Piece>, be: bool, size: nat) {
    acc < Pow2(8 * size) && forall q :: 0 <= q < 8 * size ==> (Bit(acc, Position(size, be, q)) <==> Set(ps, be, q))
  }

  lemma GatheringNone(be: bool, size: nat)
    ensures Gathering(0, [], be, size)
  {
    forall q | 0 <= q < 8 * size ensures !Bit(0, Position(size, be, q)) { BitZero(Position(size, be, q)); }
  }

  /** A field of the other order changes nothing here. */
  lemma GatheringOther(acc: nat, ps: seq<Piece>, p: Piece, be: bool, size: nat)
    requires Gathering(acc, ps, be, size) && p.be != be
    ensures Gathering(acc, ps + [p], be, size)
  {
    hide Sets;
    hide Bit;
    hide Position;
    forall q | 0 <= q < 8 * size ensures Set(ps, be, q) <==> Set(ps + [p], be, q) { SetMore(ps, p, be, q); }
    hide Set;
  }

  lemma SetMore(ps: seq<Piece>, p: Piece, be: bool, q: nat)
    ensures Set(ps + [p], be, q) <==> Set(ps, be, q) || (p.be == be && Sets(p, q))
  {
    hide Sets;
    var all := ps + [p];
    if Set(ps, be, q) {
      var j :| 0 <= j < |ps| && ps[j].be == be && Sets(ps[j], q);
      assert all[j] == ps[j];
    }
    if p.be == be && Sets(p, q) { assert all[|ps|] == p; }
  }

  function Shift(p: Piece, size: nat): nat
    requires Lies(p, size)
  {
    if p.be then 8 * size - p.off - p.w else p.off
  }

  /** One more field, shifted into place. */
  lemma GatheringMore(acc: nat, ps: seq<Piece>, p: Piece, size: nat)
    requires Gathering(acc, ps, p.be, size) && Lies(p, size)
    ensures Gathering(Or(acc, p.raw * Pow2(Shift(p, size))), ps + [p], p.be, size)
  {
    var k := Shift(p, size);
    var now := Or(acc, p.raw * Pow2(k));
    forall q | 0 <= q < 8 * size ensures Bit(now, Position(size, p.be, q)) <==> Set(ps + [p], p.be, q) {
      SetMore(ps, p, p.be, q);
      OneShifted(acc, p, size, q);
    }
    NoHigher(acc, p, size);
  }

  lemma OneShifted(acc: nat, p: Piece, size: nat, q: nat)
    requires Lies(p, size) && q < 8 * size
    ensures var i := Position(size, p.be, q);
      Bit(Or(acc, p.raw * Pow2(Shift(p, size))), i) <==> Bit(acc, i) || Sets(p, q)
  {
    var i, k := Position(size, p.be, q), Shift(p, size);
    BitOr(acc, p.raw * Pow2(k), i);
    BitScale(p.raw, k, i);
    PhysicalTwice(q, p.be);
    hide Physical8;
    hide Bit;
    if i >= k && i - k >= p.w { BitHigh(p.raw, p.w, i - k); }
  }

  lemma NoHigher(acc: nat, p: Piece, size: nat)
    requires Lies(p, size) && acc < Pow2(8 * size)
    ensures Or(acc, p.raw * Pow2(Shift(p, size))) < Pow2(8 * size)
  {
    var k, now := Shift(p, size), Or(acc, p.raw * Pow2(Shift(p, size)));
    forall i | i >= 8 * size ensures !Bit(now, i) {
      BitOr(acc, p.raw * Pow2(k), i);
      BitScale(p.raw, k, i);
      BitHigh(acc, 8 * size, i);
      BitHigh(p.raw, p.w, i - k);
    }
    LowBits(now, 8 * size);
  }

  /** The integer's bytes, in its order, have the bits where they belong. */
  lemma BytesOf(acc: nat, size: nat, be: bool, q: nat)
    requires acc < Pow2(8 * size) && q < 8 * size
    ensures WireBit(if be then Reversed(LE(size, acc)) else LE(size, acc), q) == Bit(acc, Position(size, be, q))
  {
    var s := LE(size, acc);
    Pow256Pow2(size);
    StoreLoad(size, acc);
    PhysicalTwice(q, be);
    if be {
      var i := 8 * size - 1 - Physical8(q, be);
      DivUnique(i, 8, size - 1 - q / 8, q % 8);
      FromLEBit(s, i);
    } else {
      FromLEBit(s, q);
    }
  }

  /** Two byte strings, byte by byte. */
  method Merged(a: bytes, b: bytes) returns (r: bytes)
    requires |a| == |b|
    ensures |r| == |a| && forall q :: 0 <= q < 8 * |a| ==> (WireBit(r, q) <==> WireBit(a, q) || WireBit(b, q))
  {
    hide Or;
    hide Bit;
    r := [];
    for i := 0 to |a|
      invariant |r| == i && forall q :: 0 <= q < 8 * i ==> (WireBit(r, q) <==> WireBit(a, q) || WireBit(b, q))
    {
      ByteOr(a[i], b[i]);
      r := r + [Or(a[i], b[i])];
    }
  }

  lemma ByteOr(x: byte, y: byte)
    ensures Or(x, y) < 256 && forall k: nat :: Bit(Or(x, y), k) <==> Bit(x, k) || Bit(y, k)
  {
    Pow2Sixty4();
    forall k: nat ensures Bit(Or(x, y), k) <==> Bit(x, k) || Bit(y, k) { BitOr(x, y, k); }
    forall k: nat | k >= 8 ensures !Bit(Or(x, y), k) {
      BitHigh(x, 8, k);
      BitHigh(y, 8, k);
    }
    ByteBound(Or(x, y));
  }

  /** A record in which exactly the bits the fields set are set. */
  ghost predicate Packs(ps: seq<Piece>, d: bytes) {
    forall q :: 0 <= q < 8 * |d| ==> (WireBit(d, q) <==> Set(ps, false, q) || Set(ps, true, q))
  }

  /** A field given along with the bytes it lies in must be what those bytes hold. */
  predicate Agrees(p: Piece, d: bytes) {
    p.off + p.w <= 8 * |d| && FieldValue(d, p.off, p.w, p.be) == p.raw
  }

  /** The fixed portion of a record; nothing when a value disagrees with the bytes
      around it. */
  method Pack(size: nat, ps: seq<Piece>, derived: seq<Piece>) returns (fixed: bytes, ok: bool)
    requires forall j :: 0 <= j < |ps| ==> Lies(ps[j], size)
    requires forall j :: 0 <= j < |derived| ==> Lies(derived[j], size)
    ensures |fixed| == size && Packs(ps, fixed)
    ensures ok <==> forall j :: 0 <= j < |derived| ==> Agrees(derived[j], fixed)
  {
    hide Or;
    hide Bit;
    hide Gathering;
    hide Set;
    hide Pow2;
    var le: nat, be: nat := 0, 0;
    GatheringNone(false, size);
    GatheringNone(true, size);
    for j := 0 to |ps|
      invariant Gathering(le, ps[..j], false, size) && Gathering(be, ps[..j], true, size)
    {
      var p := ps[j];
      assert ps[..j + 1] == ps[..j] + [p];
      if p.be {
        GatheringMore(be, ps[..j], p, size);
        GatheringOther(le, ps[..j], p, false, size);
        be := Or(be, p.raw * Pow2(8 * size - p.off - p.w));
      } else {
        GatheringMore(le, ps[..j], p, size);
        GatheringOther(be, ps[..j], p, true, size);
        le := Or(le, p.raw * Pow2(p.off));
      }
    }
    assert ps[..|ps|] == ps;
    fixed := LE(size, le);
    if be != 0 { fixed := Merged(fixed, Reversed(LE(size, be))); }
    PacksIs(le, be, ps, size, fixed);
    for j := 0 to |derived|
      invariant forall k :: 0 <= k < j ==> Agrees(derived[k], fixed)
    {
      var p := derived[j];
      var whole := if p.be then FromLE(Reversed(fixed)) else FromLE(fixed);
      var got := Shr(whole, if p.be then 8 * size - p.off - p.w else p.off) % Pow2(p.w);
      WholeIs(fixed, p.be);
      Sample.FieldIsShift(fixed, p.off, p.w, p.be);
      if got != p.raw { return fixed, false; }
    }
    ok := true;
  }

  lemma PacksIs(le: nat, be: nat, ps: seq<Piece>, size: nat, d: bytes)
    requires Gathering(le, ps, false, size) && Gathering(be, ps, true, size) && |d| == size
    requires if be == 0 then d == LE(size, le)
      else forall q :: 0 <= q < 8 * size ==> (WireBit(d, q) <==> WireBit(LE(size, le), q) || WireBit(Reversed(LE(size, be)), q))
    ensures Packs(ps, d)
  {
    hide Set;
    hide WireBit;
    hide Bit;
    hide Position;
    forall q | 0 <= q < 8 * size ensures WireBit(d, q) <==> Set(ps, false, q) || Set(ps, true, q) {
      BytesOf(le, size, false, q);
      BytesOf(be, size, true, q);
      BitZero(Position(size, true, q));
    }
  }

  /** A record read whole, from either end. */
  lemma WholeIs(d: bytes, be: bool)
    ensures (if be then FromLE(Reversed(d)) else FromLE(d)) == Sample.WholeRecord(d, be)
  {
    var s := if be then Reversed(d) else d;
    var n := 8 * |d|;
    FromLEBound(s);
    Pow256Pow2(|s|);
    forall i | 0 <= i < n ensures Bit(FromLE(s), i) == RecBit(d, if be then n - 1 - i else i, be) {
      FromLEBit(s, i);
      var q := n - 1 - i;
      if be { DivUnique(q, 8, |d| - 1 - i / 8, 7 - i % 8); }
    }
    FieldUnique(FromLE(s), d, 0, n, be);
  }

  /** A field whose bits no other field shares reads back as what was packed; bits that
      no field covers are clear. */
  lemma PackReads(ps: seq<Piece>, d: bytes, j: nat)
    requires Packs(ps, d) && j < |ps| && Lies(ps[j], |d|)
    requires forall k, q :: 0 <= k < |ps| && k != j && 0 <= q < 8 * |d| ==> !(Covers(ps[k], q) && Covers(ps[j], q))
    ensures FieldValue(d, ps[j].off, ps[j].w, ps[j].be) == ps[j].raw
  {
    var p := ps[j];
    hide Bit;
    forall i | 0 <= i < p.w
      ensures Bit(p.raw, i) == RecBit(d, if p.be then p.off + p.w - 1 - i else p.off + i, p.be)
    {
      var at := if p.be then p.off + p.w - 1 - i else p.off + i;
      RecIsWire(d, at, p.be);
      PhysicalTwice(at, p.be);
      var q := Physical8(at, p.be);
      assert Covers(p, q) && (Sets(p, q) <==> Bit(p.raw, i));
      OnlyOne(ps, j, q);
    }
    FieldUnique(p.raw, d, p.off, p.w, p.be);
  }

  lemma OnlyOne(ps: seq<Piece>, j: nat, q: nat)
    requires j < |ps| && Covers(ps[j], q) && forall k :: 0 <= k < |ps| && k != j ==> !Covers(ps[k], q)
    ensures Set(ps, false, q) || Set(ps, true, q) <==> Sets(ps[j], q)
  {
    hide Bit;
    hide Physical8;
    if Set(ps, false, q) {
      var k :| 0 <= k < |ps| && ps[k].be == false && Sets(ps[k], q);
    }
    if Set(ps, true, q) {
      var k :| 0 <= k < |ps| && ps[k].be == true && Sets(ps[k], q);
    }
  }

  // --- the bits of a number -------------------------------------------------------------------------------

  /** A signed number's bits: the code masks it, and refuses what does not fit. */
  function SignedBits(v: int, w: nat): Option<nat> {
    if w == 0 || v < -(Pow2(w - 1) as int) || v >= Pow2(w - 1) then None else Some(v % Pow2(w))
  }

  /** The reader's sign extension gives the number back. */
  lemma SignedBack(v: int, w: nat)
    requires 0 < w <= 64 && SignedBits(v, w).Some?
    ensures SignedBits(v, w).value < Pow2(w) <= BitOps.TWO64
    ensures Sample.SignExtend(SignedBits(v, w).value, w) == v
  {
    var h := Pow2(w - 1);
    assert Pow2(w) == 2 * h;
    Pow2Sixty4();
    Pow2Mono(w, 64);
    if v >= 0 {
      DivUnique(v, Pow2(w), 0, v);
    } else {
      DivUnique(v, Pow2(w), -1, v + Pow2(w));
    }
    Sample.SignExtendIsTwosComplement(v % Pow2(w), w);
  }
}
