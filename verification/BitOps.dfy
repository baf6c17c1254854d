/** Bitwise arithmetic on natural numbers, defined bit by bit from the least
    significant end. A machine word is a number below `Pow2` of its width; the
    operators that can leave the width say so in their definition. */
module BitOps {

  function Pow2(n: nat): (p: nat)
    ensures p >= 1
  {
    if n == 0 then 1 else 2 * Pow2(n - 1)
  }

  const TWO64 := 0x1_0000_0000_0000_0000

  /** Whether bit `i` of `x`, counting from the least significant, is set. */
  predicate Bit(x: nat, i: nat) {
    if i == 0 then x % 2 == 1 else Bit(x / 2, i - 1)
  }

  function Or(x: nat, y: nat): nat
    decreases x + y
  {
    if x == 0 && y == 0 then 0
    else 2 * Or(x / 2, y / 2) + (if x % 2 == 1 || y % 2 == 1 then 1 else 0)
  }

  function AndNot(x: nat, y: nat): nat {
    if x == 0 then 0
    else 2 * AndNot(x / 2, y / 2) + (if x % 2 == 1 && y % 2 == 0 then 1 else 0)
  }

  function And(x: nat, y: nat): nat {
    if x == 0 then 0
    else 2 * And(x / 2, y / 2) + (if x % 2 == 1 && y % 2 == 1 then 1 else 0)
  }

  function Xor(x: nat, y: nat): nat
    decreases x + y
  {
    if x == 0 && y == 0 then 0
    else 2 * Xor(x / 2, y / 2) + (if x % 2 != y % 2 then 1 else 0)
  }

  function Shr(x: nat, k: nat): nat {
    DivNat(x, Pow2(k));
    x / Pow2(k)
  }

  /** A left shift in a 64-bit word: what is pushed past the top is lost. */
  function Shl64(x: nat, k: nat): nat { (x * Pow2(k)) % TWO64 }

  lemma DivNat(x: nat, d: nat)
    requires d > 0
    ensures x / d >= 0
  {
    var q := x / d;
    assert x == d * q + x % d;
    if q < 0 { MulMono(d, q, -1); }
  }

  // --- one lemma per operator: what it does to a single bit ---------------------

  lemma {:induction false} BitZero(i: nat)
    ensures !Bit(0, i)
  {
    if i > 0 { BitZero(i - 1); }
  }

  lemma {:induction false} BitOr(x: nat, y: nat, i: nat)
    ensures Bit(Or(x, y), i) <==> Bit(x, i) || Bit(y, i)
    decreases i
  {
    if x == 0 && y == 0 {
      BitZero(i);
    } else if i > 0 {
      BitOr(x / 2, y / 2, i - 1);
    }
  }

  lemma {:induction false} BitAndNot(x: nat, y: nat, i: nat)
    ensures Bit(AndNot(x, y), i) <==> Bit(x, i) && !Bit(y, i)
    decreases i
  {
    if x == 0 {
      BitZero(i);
    } else if i > 0 {
      BitAndNot(x / 2, y / 2, i - 1);
    }
  }

  lemma {:induction false} BitAnd(x: nat, y: nat, i: nat)
    ensures Bit(And(x, y), i) <==> Bit(x, i) && Bit(y, i)
    decreases i
  {
    if x == 0 {
      BitZero(i);
    } else if i > 0 {
      BitAnd(x / 2, y / 2, i - 1);
    }
  }

  lemma {:induction false} BitXor(x: nat, y: nat, i: nat)
    ensures Bit(Xor(x, y), i) <==> Bit(x, i) != Bit(y, i)
    decreases i
  {
    if x == 0 && y == 0 {
      BitZero(i);
    } else if i > 0 {
      BitXor(x / 2, y / 2, i - 1);
    }
  }

  lemma {:induction false} BitShr(x: nat, k: nat, i: nat)
    ensures Bit(Shr(x, k), i) <==> Bit(x, i + k)
    decreases k
  {
    if k == 0 {
      assert Pow2(0) == 1;
    } else {
      BitShr(x / 2, k - 1, i);
      DivDiv(x, Pow2(k - 1));
    }
  }

  lemma DivDiv(x: nat, p: nat)
    requires p > 0
    ensures x / (2 * p) == (x / 2) / p
  {
    var q, r := x / (2 * p), x % (2 * p);
    assert x == 2 * p * q + r;
    assert x / 2 == p * q + r / 2 by {
      assert 2 * p * q == 2 * (p * q);
    }
    DivUnique(x / 2, p, q, r / 2);
  }

  lemma MulMono(d: nat, a: int, b: int)
    requires a <= b
    ensures d * a <= d * b
  {
    assert d * (b - a) >= 0;
    assert d * (b - a) == d * b - d * a;
  }

  lemma DivUnique(a: int, d: int, q: int, r: int)
    requires d > 0 && 0 <= r < d && a == d * q + r
    ensures a / d == q && a % d == r
  {
    var k, m := a / d, a % d;
    assert a == d * k + m && 0 <= m < d;
    SameQuotient(d, q, r, k, m);
  }

  lemma SameQuotient(d: nat, q: int, r: int, k: int, m: int)
    requires d * q + r == d * k + m
    requires 0 <= r < d && 0 <= m < d
    ensures q == k && r == m
  {
    if q < k {
      assert d * (q + 1) == d * q + d;
      MulMono(d, q + 1, k);
      assert false;
    } else if k < q {
      assert d * (k + 1) == d * k + d;
      MulMono(d, k + 1, q);
      assert false;
    }
  }

  lemma {:induction false} BitMod(x: nat, n: nat, i: nat)
    ensures Bit(x % Pow2(n), i) <==> i < n && Bit(x, i)
    decreases n
  {
    if n == 0 {
      assert x % Pow2(0) == 0;
      BitZero(i);
    } else {
      ModSplit(x, Pow2(n - 1));
      if i > 0 { BitMod(x / 2, n - 1, i - 1); }
    }
  }

  lemma ModSplit(x: nat, p: nat)
    requires p > 0
    ensures (x % (2 * p)) % 2 == x % 2
    ensures (x % (2 * p)) / 2 == (x / 2) % p
  {
    var q, r := x / (2 * p), x % (2 * p);
    assert 2 * p * q == 2 * (p * q);
    assert x == 2 * (p * q) + r;
    assert x / 2 == p * q + r / 2;
    DivUnique(x / 2, p, q, r / 2);
  }

  lemma {:induction false} BitScale(x: nat, k: nat, i: nat)
    ensures Bit(x * Pow2(k), i) <==> i >= k && Bit(x, i - k)
    decreases k
  {
    if k > 0 {
      var y := x * Pow2(k - 1);
      assert x * Pow2(k) == 2 * y by {
        assert x * (2 * Pow2(k - 1)) == 2 * (x * Pow2(k - 1));
      }
      if i > 0 { BitScale(x, k - 1, i - 1); }
    } else {
      assert x * Pow2(0) == x;
    }
  }

  lemma Pow2Step8(n: nat)
    ensures Pow2(n + 8) == 256 * Pow2(n)
  {
    assert Pow2(n + 2) == 4 * Pow2(n);
    assert Pow2(n + 4) == 4 * Pow2(n + 2);
    assert Pow2(n + 6) == 4 * Pow2(n + 4);
    assert Pow2(n + 8) == 4 * Pow2(n + 6);
  }

  lemma Pow2Sixty4()
    ensures Pow2(64) == TWO64 && Pow2(32) == 0x1_0000_0000 && Pow2(8) == 256
  {
    Pow2Step8(0);
    Pow2Step8(8);
    Pow2Step8(16);
    Pow2Step8(24);
    Pow2Step8(32);
    Pow2Step8(40);
    Pow2Step8(48);
    Pow2Step8(56);
  }

  lemma {:induction false} Pow2Add(a: nat, b: nat)
    ensures Pow2(a + b) == Pow2(a) * Pow2(b)
    decreases a
  {
    if a > 0 {
      Pow2Add(a - 1, b);
      assert 2 * (Pow2(a - 1) * Pow2(b)) == (2 * Pow2(a - 1)) * Pow2(b);
    }
  }

  lemma {:induction false} Pow2Mono(a: nat, b: nat)
    requires a <= b
    ensures Pow2(a) <= Pow2(b)
    decreases b
  {
    if a < b { Pow2Mono(a, b - 1); }
  }

  lemma BitShl64(x: nat, k: nat, i: nat)
    ensures Bit(Shl64(x, k), i) <==> k <= i < 64 && Bit(x, i - k)
  {
    Pow2Sixty4();
    BitMod(x * Pow2(k), 64, i);
    BitScale(x, k, i);
  }

  // --- extensionality -----------------------------------------------------------

  /** A number below 2^n has no bit at or above n. */
  lemma {:induction false} BitHigh(x: nat, n: nat, i: nat)
    requires x < Pow2(n) && i >= n
    ensures !Bit(x, i)
    decreases n
  {
    if n == 0 {
      BitZero(i);
    } else {
      BitHigh(x / 2, n - 1, i - 1);
    }
  }

  /** Numbers below 2^n with the same n bits are the same number. */
  lemma {:induction false} SameBits(x: nat, y: nat, n: nat)
    requires x < Pow2(n) && y < Pow2(n)
    requires forall i :: 0 <= i < n ==> Bit(x, i) == Bit(y, i)
    ensures x == y
    decreases n
  {
    if n > 0 {
      forall i | 0 <= i < n - 1 ensures Bit(x / 2, i) == Bit(y / 2, i) {
        assert Bit(x, i + 1) == Bit(y, i + 1);
      }
      SameBits(x / 2, y / 2, n - 1);
      assert Bit(x, 0) == Bit(y, 0);
    }
  }

  /** A number whose bits at and above n are all clear is below 2^n. */
  lemma {:induction false} LowBits(x: nat, n: nat)
    requires forall i :: i >= n ==> !Bit(x, i)
    ensures x < Pow2(n)
    decreases x, n
  {
    if x == 0 {
    } else if n == 0 {
      forall i | i >= 0 ensures !Bit(x / 2, i) { assert !Bit(x, i + 1); }
      assert !Bit(x, 0);
      LowBits(x / 2, 0);
    } else {
      forall i | i >= n - 1 ensures !Bit(x / 2, i) { assert !Bit(x, i + 1); }
      LowBits(x / 2, n - 1);
    }
  }

  /** Masking with 2^n - 1 is reduction modulo 2^n. */
  lemma {:induction false} AndMask(x: nat, n: nat)
    ensures And(x, Pow2(n) - 1) == x % Pow2(n)
    decreases n
  {
    var p := Pow2(n);
    if n == 0 {
      AndZero(x);
    } else if x == 0 {
      DivUnique(0, p, 0, 0);
    } else {
      var h := Pow2(n - 1);
      assert (p - 1) / 2 == h - 1 && (p - 1) % 2 == 1;
      AndMask(x / 2, n - 1);
      ModSplit(x, h);
      assert And(x, p - 1) == 2 * And(x / 2, h - 1) + x % 2;
    }
  }

  /** Or of a number and one that lies wholly above it is their sum. */
  lemma {:induction false} OrJoin(hi: nat, lo: nat, n: nat)
    requires lo < Pow2(n)
    ensures Or(Pow2(n) * hi, lo) == Pow2(n) * hi + lo
    decreases n
  {
    var k := Pow2(n) * hi;
    if n == 0 {
      OrZero(hi);
    } else {
      assert k == 2 * (Pow2(n - 1) * hi);
      OrJoin(hi, lo / 2, n - 1);
      if k == 0 && lo == 0 { OrZero(0); }
    }
  }

  lemma {:induction false} OrZero(x: nat)
    ensures Or(x, 0) == x && Or(0, x) == x
  {
    if x > 0 { OrZero(x / 2); }
  }

  lemma {:induction false} AndZero(x: nat)
    ensures And(x, 0) == 0
  {
    if x > 0 { AndZero(x / 2); }
  }
}
