/** CRC-32C (section 12.1 of RFC 3720), table-driven as the writer computes it
    and bit-serial as the polynomial defines it. */
module Crc {
  import opened Bytes
  import opened BitOps

  const POLY: nat := 0x82F63B78
  const MASK: nat := 0xFFFF_FFFF

  // --- the reference: one message bit at a time -----------------------------------

  /** Division by the reflected polynomial: the bit leaving the register, added
      to the message bit, decides whether the polynomial is subtracted. */
  function FeedBit(c: nat, m: bool): nat {
    if (c % 2 == 1) != m then Xor(c / 2, POLY) else c / 2
  }

  /** The low `n` bits of `b`, least significant first. */
  function FeedBits(c: nat, b: nat, n: nat): nat
    decreases n, b, c
  {
    if n == 0 then c else FeedBits(FeedBit(c, b % 2 == 1), b / 2, n - 1)
  }

  function FeedAll(c: nat, s: bytes): nat
    decreases |s|
  {
    if s == [] then c else FeedAll(FeedBits(c, s[0], 8), s[1..])
  }

  /** The checksum: the register starts and ends complemented, and `crc`
      continues an earlier sum. */
  function Crc32c(s: bytes, crc: nat := 0): nat {
    Xor(FeedAll(Xor(crc, MASK), s), MASK)
  }

  // --- algebra of the register -----------------------------------------------------

  lemma {:induction false} XorComm(x: nat, y: nat)
    ensures Xor(x, y) == Xor(y, x)
    decreases x + y
  {
    if !(x == 0 && y == 0) { XorComm(x / 2, y / 2); }
  }

  lemma {:induction false} XorZero(x: nat)
    ensures Xor(x, 0) == x && Xor(0, x) == x
  {
    if x > 0 { XorZero(x / 2); }
  }

  lemma {:induction false} XorSelf(x: nat)
    ensures Xor(x, x) == 0
  {
    if x > 0 { XorSelf(x / 2); }
  }

  lemma {:induction false} XorAssoc(x: nat, y: nat, z: nat)
    ensures Xor(Xor(x, y), z) == Xor(x, Xor(y, z))
    decreases x + y + z
  {
    if !(x == 0 && y == 0 && z == 0) {
      XorAssoc(x / 2, y / 2, z / 2);
    }
  }

  lemma XorCancel(x: nat, y: nat, m: nat)
    requires Xor(x, m) == Xor(y, m)
    ensures x == y
  {
    XorUndo(x, m);
    XorUndo(y, m);
  }

  lemma XorUndo(x: nat, m: nat)
    ensures Xor(Xor(x, m), m) == x
  {
    XorAssoc(x, m, m);
    XorSelf(m);
    XorZero(x);
  }

  lemma {:induction false} XorBound(x: nat, y: nat, n: nat)
    requires x < Pow2(n) && y < Pow2(n)
    ensures Xor(x, y) < Pow2(n)
    decreases n
  {
    if n > 0 { XorBound(x / 2, y / 2, n - 1); }
  }

  /** One step of the register with no message bit. */
  function Step(c: nat): nat { FeedBit(c, false) }

  function Steps(c: nat, n: nat): nat
    decreases n, c
  {
    if n == 0 then c else Steps(Step(c), n - 1)
  }

  lemma XorHalf(a: nat, b: nat)
    ensures Xor(a, b) / 2 == Xor(a / 2, b / 2)
    ensures Xor(a, b) % 2 == (if a % 2 != b % 2 then 1 else 0)
  {
    if a == 0 && b == 0 { XorZero(0); }
  }

  lemma XorSwap(x: nat, y: nat, p: nat)
    ensures Xor(Xor(x, p), y) == Xor(Xor(x, y), p)
  {
    XorAssoc(x, p, y);
    XorComm(p, y);
    XorAssoc(x, y, p);
  }

  lemma StepLinear(a: nat, b: nat)
    ensures Step(Xor(a, b)) == Xor(Step(a), Step(b))
  {
    XorHalf(a, b);
    StepCases(a / 2, b / 2, POLY);
  }

  lemma StepCases(x: nat, y: nat, p: nat)
    ensures Xor(Xor(x, p), y) == Xor(Xor(x, y), p)
    ensures Xor(x, Xor(y, p)) == Xor(Xor(x, y), p)
    ensures Xor(Xor(x, p), Xor(y, p)) == Xor(x, y)
  {
    XorSwap(x, y, p);
    XorAssoc(x, y, p);
    XorAssoc(Xor(x, p), y, p);
    XorUndo(Xor(x, y), p);
  }

  lemma {:induction false} StepsLinear(a: nat, b: nat, n: nat)
    ensures Steps(Xor(a, b), n) == Xor(Steps(a, n), Steps(b, n))
    decreases n
  {
    hide Step;
    hide Xor;
    if n > 0 {
      StepLinear(a, b);
      StepsLinear(Step(a), Step(b), n - 1);
    }
  }

  lemma {:induction false} StepsShift(y: nat, n: nat)
    ensures Steps(Pow2(n) * y, n) == y
    decreases n
  {
    if n > 0 {
      assert Pow2(n) * y == 2 * (Pow2(n - 1) * y);
      StepsShift(y, n - 1);
    }
  }

  lemma {:induction false} StepsAdd(c: nat, m: nat, n: nat)
    ensures Steps(Steps(c, m), n) == Steps(c, m + n)
    decreases m
  {
    if m > 0 { StepsAdd(Step(c), m - 1, n); }
  }

  /** A message bit is the same bit added to the register before the step. */
  lemma {:induction false} FeedBitsIsXor(c: nat, b: nat, n: nat)
    requires b < Pow2(n)
    ensures FeedBits(c, b, n) == Steps(Xor(c, b), n)
    decreases n
  {
    if n == 0 {
      XorZero(c);
    } else {
      FeedBitsIsXor(FeedBit(c, b % 2 == 1), b / 2, n - 1);
      XorHalf(c, b);
      StepCases(c / 2, b / 2, POLY);
    }
  }

  // --- the table ------------------------------------------------------------------

  ghost predicate IsTable(t: seq<nat>) {
    |t| == 256 && forall i :: 0 <= i < 256 ==> t[i] == Steps(i, 8)
  }

  /** The table of one-byte remainders. */
  method CrcTable() returns (t: seq<nat>)
    ensures IsTable(t)
  {
    t := [];
    for i := 0 to 256
      invariant |t| == i
      invariant forall k :: 0 <= k < i ==> t[k] == Steps(k, 8)
    {
      var c: nat := i;
      for k := 0 to 8
        invariant c >= 0 && Steps(c, 8 - k) == Steps(i, 8)
      {
        TableStep(c);
        c := if And(c, 1) == 1 then Xor(Shr(c, 1), POLY) else Shr(c, 1);
      }
      t := t + [c];
    }
  }

  lemma TableStep(c: nat)
    ensures Step(c) == if And(c, 1) == 1 then Xor(Shr(c, 1), POLY) else Shr(c, 1)
  {
    assert Pow2(1) == 2;
    if c > 0 { AndZero(c / 2); }
  }

  /** The table-driven checksum, one byte a step. */
  method Checksum(data: bytes, crc: nat, t: seq<nat>) returns (r: nat)
    requires IsTable(t) && crc < TWO32
    ensures r == Crc32c(data, crc)
  {
    var c := Xor(crc, MASK);
    for i := 0 to |data|
      invariant FeedAll(c, data[i..]) == FeedAll(Xor(crc, MASK), data)
    {
      var x := Xor(c, data[i]);
      AndMask(x, 8);
      Pow2Sixty4();
      TableByte(c, data[i]);
      assert data[i..][1..] == data[i + 1..];
      c := Xor(t[And(x, 0xFF)], Shr(c, 8));
    }
    assert data[|data|..] == [];
    r := Xor(c, MASK);
  }

  /** Looking the low byte up and shifting the rest down is eight steps at once. */
  lemma TableByte(c: nat, b: byte)
    ensures Xor(Steps(Xor(c, b) % 256, 8), Shr(c, 8)) == FeedBits(c, b, 8)
  {
    Pow2Sixty4();
    var x := Xor(c, b);
    var lo, hi := x % 256, x / 256;
    FeedBitsIsXor(c, b, 8);
    XorSplit(x);
    StepsLinear(lo, 256 * hi, 8);
    StepsShift(hi, 8);
    XorHigh(c, b);
  }

  lemma XorSplit(x: nat)
    ensures Xor(x % 256, 256 * (x / 256)) == x
  {
    Pow2Sixty4();
    JoinBits(x % 256, x / 256, 8);
  }

  lemma {:induction false} JoinBits(lo: nat, hi: nat, n: nat)
    requires lo < Pow2(n)
    ensures Xor(lo, Pow2(n) * hi) == lo + Pow2(n) * hi
    decreases n
  {
    var k := Pow2(n) * hi;
    if n == 0 {
      XorZero(hi);
    } else {
      var h := Pow2(n - 1) * hi;
      assert k == 2 * h;
      assert k / 2 == h && k % 2 == 0;
      JoinBits(lo / 2, hi, n - 1);
      XorHalf(lo, k);
      hide Xor;
      hide Pow2;
    }
  }

  lemma XorHigh(c: nat, b: byte)
    ensures Xor(c, b) / 256 == c / 256
  {
    XorEighth(c, b, 8);
    Pow2Sixty4();
  }

  lemma {:induction false} XorEighth(c: nat, b: nat, n: nat)
    requires b < Pow2(n)
    ensures Xor(c, b) / Pow2(n) == c / Pow2(n)
    decreases n
  {
    if n == 0 {
      XorZero(c);
    } else {
      XorHalf(c, b);
      XorEighth(c / 2, b / 2, n - 1);
      DivDiv(Xor(c, b), Pow2(n - 1));
      DivDiv(c, Pow2(n - 1));
    }
  }

  // --- checksumming in pieces ---------------------------------------------------------

  lemma {:induction false} FeedAppend(c: nat, s: bytes, t: bytes)
    ensures FeedAll(c, s + t) == FeedAll(FeedAll(c, s), t)
    decreases |s|
  {
    if s == [] {
      assert s + t == t;
    } else {
      assert (s + t)[1..] == s[1..] + t;
      FeedAppend(FeedBits(c, s[0], 8), s[1..], t);
    }
  }

  /** Continuing a sum over a second piece is the sum over both. */
  lemma PiecesAreWhole(s: bytes, t: bytes, crc: nat)
    ensures Crc32c(t, Crc32c(s, crc)) == Crc32c(s + t, crc)
  {
    FeedAppend(Xor(crc, MASK), s, t);
    XorUndo(FeedAll(Xor(crc, MASK), s), MASK);
  }

  // --- detection ----------------------------------------------------------------------

  lemma PolyTop()
    ensures POLY < Pow2(32) && Bit(POLY, 31)
  {
    Pow2Sixty4();
    BitShr(POLY, 24, 7);
    assert Pow2(24) == 0x100_0000 by { Pow2Step8(0); Pow2Step8(8); Pow2Step8(16); }
    assert Shr(POLY, 24) == 0x82;
    assert Bit(0x82, 7);
  }

  lemma StepBound(c: nat)
    requires c < Pow2(32)
    ensures Step(c) < Pow2(32)
  {
    PolyTop();
    XorBound(c / 2, POLY, 32);
  }

  /** A step can be undone: the polynomial's top bit tells which branch it took. */
  lemma StepInjective(a: nat, b: nat)
    requires a < Pow2(32) && b < Pow2(32) && Step(a) == Step(b)
    ensures a == b
  {
    PolyTop();
    var x, y := a / 2, b / 2;
    BitHigh(x, 31, 31);
    BitHigh(y, 31, 31);
    BitXor(x, POLY, 31);
    BitXor(y, POLY, 31);
    if a % 2 == 1 && b % 2 == 1 { XorCancel(x, y, POLY); }
  }

  lemma {:induction false} StepsInjective(a: nat, b: nat, n: nat)
    requires a < Pow2(32) && b < Pow2(32) && Steps(a, n) == Steps(b, n)
    ensures a == b
    decreases n
  {
    if n > 0 {
      StepBound(a);
      StepBound(b);
      StepsInjective(Step(a), Step(b), n - 1);
      StepInjective(a, b);
    }
  }

  lemma {:induction false} StepsBound(c: nat, n: nat)
    requires c < Pow2(32)
    ensures Steps(c, n) < Pow2(32)
    decreases n
  {
    if n > 0 {
      StepBound(c);
      StepsBound(Step(c), n - 1);
    }
  }

  /** Feeding bytes is stepping the register with their little-endian value added. */
  lemma {:induction false} FeedIsWord(c: nat, w: bytes)
    ensures FeedAll(c, w) == Steps(Xor(c, FromLE(w)), 8 * |w|)
    decreases |w|
  {
    if w == [] {
      XorZero(c);
    } else {
      FeedIsWord(FeedBits(c, w[0], 8), w[1..]);
      FeedFirst(c, w);
      StepsAdd(Xor(c, FromLE(w)), 8, 8 * |w[1..]|);
      hide Xor;
      hide Steps;
      hide FromLE;
      hide FeedBits;
    }
  }

  lemma FeedFirst(c: nat, w: bytes)
    requires w != []
    ensures Xor(FeedBits(c, w[0], 8), FromLE(w[1..])) == Steps(Xor(c, FromLE(w)), 8)
  {
    var r := FromLE(w[1..]);
    Pow2Sixty4();
    FeedBitsIsXor(c, w[0], 8);
    assert FromLE(w) % 256 == w[0] && FromLE(w) / 256 == r;
    XorSplit(FromLE(w));
    XorAssoc(c, w[0], 256 * r);
    StepsLinear(Xor(c, w[0]), 256 * r, 8);
    StepsShift(r, 8);
    hide Xor;
    hide Steps;
    hide Pow2;
    hide FeedBits;
  }

  lemma FeedBound(c: nat, s: bytes)
    requires c < Pow2(32)
    ensures FeedAll(c, s) < Pow2(32)
    decreases |s|
  {
    if s != [] {
      FeedByteBound(c, s[0]);
      FeedBound(FeedBits(c, s[0], 8), s[1..]);
    }
  }

  lemma FeedByteBound(c: nat, b: byte)
    requires c < Pow2(32)
    ensures Xor(c, b) < Pow2(32) && FeedBits(c, b, 8) == Steps(Xor(c, b), 8) < Pow2(32)
  {
    Pow2Sixty4();
    XorBound(c, b, 32);
    FeedBitsIsXor(c, b, 8);
    StepsBound(Xor(c, b), 8);
  }

  /** Two registers that differ still differ after the same bytes. */
  lemma {:induction false} FeedInjective(a: nat, b: nat, s: bytes)
    requires a < Pow2(32) && b < Pow2(32) && FeedAll(a, s) == FeedAll(b, s)
    ensures a == b
    decreases |s|
  {
    if s != [] {
      FeedByteBound(a, s[0]);
      FeedByteBound(b, s[0]);
      FeedInjective(FeedBits(a, s[0], 8), FeedBits(b, s[0], 8), s[1..]);
      StepsInjective(Xor(a, s[0]), Xor(b, s[0]), 8);
      XorCancel(a, b, s[0]);
    }
  }

  /** Two windows of at most four bytes that differ leave different registers. */
  lemma WindowInjective(c: nat, w: bytes, v: bytes)
    requires c < Pow2(32) && |w| == |v| <= 4 && w != v
    ensures FeedAll(c, w) != FeedAll(c, v)
  {
    if FeedAll(c, w) == FeedAll(c, v) {
      FeedIsWord(c, w);
      FeedIsWord(c, v);
      WindowBound(w);
      WindowBound(v);
      XorBound(c, FromLE(w), 32);
      XorBound(c, FromLE(v), 32);
      StepsInjective(Xor(c, FromLE(w)), Xor(c, FromLE(v)), 8 * |w|);
      XorComm(c, FromLE(w));
      XorComm(c, FromLE(v));
      XorCancel(FromLE(w), FromLE(v), c);
      LoadInjective(w, v);
    }
  }

  lemma WindowBound(w: bytes)
    requires |w| <= 4
    ensures FromLE(w) < Pow2(32)
  {
    FromLEBound(w);
    WidthBounds();
    Pow2Sixty4();
    assert Pow256(3) == 256 * Pow256(2);
  }

  /** Damage confined to a window of four bytes always changes the checksum. */
  lemma BurstDetected(pre: bytes, w: bytes, v: bytes, post: bytes, crc: nat)
    requires crc < TWO32 && |w| == |v| <= 4 && w != v
    ensures Crc32c(pre + w + post, crc) != Crc32c(pre + v + post, crc)
  {
    Pow2Sixty4();
    var c0 := Xor(crc, MASK);
    XorBound(crc, MASK, 32);
    var c := FeedAll(c0, pre);
    FeedBound(c0, pre);
    FeedBound(c, w);
    FeedBound(c, v);
    WindowInjective(c, w, v);
    FeedAppend(c0, pre + w, post);
    FeedAppend(c0, pre, w);
    FeedAppend(c0, pre + v, post);
    FeedAppend(c0, pre, v);
    if Crc32c(pre + w + post, crc) == Crc32c(pre + v + post, crc) {
      XorCancel(FeedAll(FeedAll(c, w), post), FeedAll(FeedAll(c, v), post), MASK);
      FeedInjective(FeedAll(c, w), FeedAll(c, v), post);
    }
  }

  lemma CrcBound(s: bytes, crc: nat)
    requires crc < TWO32
    ensures Crc32c(s, crc) < TWO32
  {
    Pow2Sixty4();
    XorBound(crc, MASK, 32);
    FeedBound(Xor(crc, MASK), s);
    XorBound(FeedAll(Xor(crc, MASK), s), MASK, 32);
  }
}
