/** CAN frames from a message database: building a frame's bytes from values, and
    the schema that reads them back. */
module Dbc {
  import opened Bytes
  import opened BitOps
  import opened Wire
  import opened Format
  import opened Extract
  import opened Records
  import Sample

  /** Scalings and ranges are exact. `initial` is the raw start value, if the
      database states one. */
  datatype Signal = Signal(
    name: bytes, start: nat, length: int, bigEndian: bool, signed: bool, float: bool,
    factor: real, offset: real, min: real, max: real, multiplexor: bool, muxed: bool, muxValue: u64,
    values: map<u64, bytes>, initial: Option<real>, extendedMux: bool)

  datatype Message = Message(name: bytes, length: int, signals: seq<Signal>)

  /** A value as the caller gives it. */
  datatype Given = Named(name: bytes) | Number(x: real) | Truth(b: bool) | NotFinite | NotAValue

  type request = map<bytes, Given>

  /** A float's bits, in 32 and in 64. */
  datatype Floats = Floats(single: real -> u32, double: real -> u64)

  // --- raw values -----------------------------------------------------------------------------------

  const MAX_FLOAT32 := 340282346638528859811704183484516925440.0

  function Abs(x: real): real { if x < 0.0 then -x else x }

  function Larger(x: real, y: real): real { if x < y then y else x }

  /** Half away from zero. */
  function Round(x: real): int {
    if x >= 0.0 then (x + 0.5).Floor else -((-x + 0.5).Floor)
  }

  function Mask(n: nat): nat { if n >= 64 then BitOps.TWO64 - 1 else Pow2(n) - 1 }

  /** The bits of a raw value, unless they cannot hold it. */
  function FitRaw(fl: Floats, s: Signal, r: real): Option<nat> {
    if s.float then
      if s.length == 32 then if Abs(r) > MAX_FLOAT32 then None else Some(fl.single(r))
      else if s.length == 64 then Some(fl.double(r))
      else None
    else if r != r.Floor as real then None
    else if s.length <= 0 || s.length > 64 then None
    else
      var n := r.Floor;
      if s.signed then
        if n < -(Pow2(s.length - 1) as int) || n >= Pow2(s.length - 1) then None
        else Some(And(n % BitOps.TWO64, Mask(s.length)))
      else if n < 0 || n >= Pow2(s.length) then None
      else Some(n)
  }

  datatype RawOutcome = Bits(n: nat) | Unstated | Unfit

  function FromFit(r: Option<nat>): RawOutcome {
    match r
    case None => Unfit
    case Some(n) => Bits(n)
  }

  function InRange(s: Signal, phys: real): bool {
    (s.min == 0.0 && s.max == 0.0) ||
    var tol := 0.000000001 * Larger(1.0, Larger(Abs(s.min), Abs(s.max)));
    s.min - tol <= phys <= s.max + tol
  }

  function Scaled(fl: Floats, s: Signal, phys: real): RawOutcome {
    if !InRange(s, phys) || s.factor == 0.0 then Unfit
    else
      var r := (phys - s.offset) / s.factor;
      FromFit(FitRaw(fl, s, if s.float then r else Round(r) as real))
  }

  /** The least raw value the table gives this name. */
  ghost predicate Names(s: Signal, name: bytes, k: u64) {
    k in s.values && s.values[k] == name && forall j :: j in s.values && s.values[j] == name ==> k <= j
  }

  /** The raw bits for a signal: from what it was given, or from its start value. */
  ghost function RawFor(fl: Floats, s: Signal, req: request): RawOutcome {
    if s.name !in req then
      match s.initial
      case None => Unstated
      case Some(x) => FromFit(FitRaw(fl, s, x))
    else
      match req[s.name]
      case Named(name) =>
        if exists k :: Names(s, name, k) then var k :| Names(s, name, k); FromFit(FitRaw(fl, s, k as real)) else Unfit
      case Number(x) => Scaled(fl, s, x)
      case Truth(b) => Scaled(fl, s, if b then 1.0 * s.factor + s.offset else s.offset)
      case NotFinite => Unfit
      case NotAValue => Unfit
  }

  // --- the integer a raw value stands for ---------------------------------------------------------------

  /** Two's complement in the signal's width. */
  function Integer(s: Signal, n: nat): int
    requires 0 < s.length <= 64
  {
    if s.signed && n >= Pow2(s.length - 1) then n - Pow2(s.length) else n
  }

  /** Whole values that fit come back. */
  lemma FitBack(fl: Floats, s: Signal, r: real)
    requires !s.float && FitRaw(fl, s, r).Some?
    ensures 0 < s.length <= 64 && FitRaw(fl, s, r).value < Pow2(s.length)
    ensures Integer(s, FitRaw(fl, s, r).value) as real == r
  {
    var n := r.Floor;
    var h := Pow2(s.length - 1);
    assert Pow2(s.length) == 2 * h;
    if s.signed {
      Pow2Sixty4();
      Pow2Mono(s.length, 64);
      MaskIs(n % BitOps.TWO64, s.length);
      if n >= 0 {
        LowBitsOf(n, s.length);
      } else {
        assert n % BitOps.TWO64 == n + BitOps.TWO64;
        WrapLow(n, s.length);
      }
    }
  }

  lemma MaskIs(x: nat, n: nat)
    requires n <= 64 && x < BitOps.TWO64
    ensures And(x, Mask(n)) == x % Pow2(n)
  {
    Pow2Sixty4();
    AndMask(x, n);
  }

  lemma LowBitsOf(n: nat, w: nat)
    requires n < Pow2(w) && w <= 64 && Pow2(w) <= BitOps.TWO64
    ensures (n % BitOps.TWO64) % Pow2(w) == n
  {
    DivUnique(n, BitOps.TWO64, 0, n);
    DivUnique(n, Pow2(w), 0, n);
  }

  lemma WrapLow(n: int, w: nat)
    requires 0 < w <= 64 && -(Pow2(w - 1) as int) <= n < 0
    ensures (n + BitOps.TWO64) % Pow2(w) == n + Pow2(w)
  {
    var p := Pow2(w);
    var q := Pow2(64 - w);
    Pow2Sixty4();
    Pow2Add(w, 64 - w);
    assert p * q == BitOps.TWO64;
    assert p == 2 * Pow2(w - 1);
    assert n + BitOps.TWO64 == p * (q - 1) + (n + p) by { assert p * (q - 1) == p * q - p; }
    DivUnique(n + BitOps.TWO64, p, q - 1, n + p);
  }

  lemma RoundIsNear(x: real)
    ensures -0.5 <= Round(x) as real - x <= 0.5
  {
  }

  /** What a reader makes of a raw value under the signal's scaling. */
  function Physical(s: Signal, n: nat): real
    requires 0 < s.length <= 64
  {
    Integer(s, n) as real * s.factor + s.offset
  }

  lemma PhysicalIs(s: Signal, n: nat, y: real)
    requires 0 < s.length <= 64 && Integer(s, n) as real == y
    ensures Physical(s, n) == y * s.factor + s.offset
  {
  }

  /** What a number becomes decodes to within half a step of it. */
  lemma HalfStep(fl: Floats, s: Signal, x: real)
    requires !s.float && Scaled(fl, s, x).Bits?
    ensures var n := Scaled(fl, s, x).n;
      s.factor != 0.0 && 0 < s.length <= 64 && n < Pow2(s.length) &&
      Abs(Physical(s, n) - x) <= Abs(s.factor) * 0.5
  {
    hide FitRaw;
    hide Round;
    hide Integer;
    hide InRange;
    hide Abs;
    hide Pow2;
    var q := (x - s.offset) / s.factor;
    var r := Round(q);
    RoundIsNear(q);
    FitBack(fl, s, r as real);
    Quotient(x - s.offset, s.factor);
    var n, y := Scaled(fl, s, x).n, r as real;
    PhysicalIs(s, n, y);
    StepError(y, q, s.factor, s.offset, x, Physical(s, n));
  }

  lemma Quotient(a: real, f: real)
    requires f != 0.0
    ensures (a / f) * f == a
  {
  }

  lemma Distribute(a: real, b: real, f: real)
    ensures (a - b) * f == a * f - b * f
  {
  }

  lemma StepError(r: real, q: real, f: real, o: real, x: real, v: real)
    requires q * f == x - o && -0.5 <= r - q <= 0.5 && v == r * f + o
    ensures Abs(v - x) <= Abs(f) * 0.5
  {
    var w := r - q;
    Distribute(r, q, f);
    ScaleBound(w, f);
    assert v - x == w * f;
  }

  lemma NotNegative(a: real, b: real)
    requires a >= 0.0 && b >= 0.0
    ensures a * b >= 0.0
  {
  }

  lemma ScaleBound(d: real, f: real)
    requires -0.5 <= d <= 0.5
    ensures Abs(d * f) <= Abs(f) * 0.5
  {
    var g := Abs(f);
    NotNegative(0.5 - d, g);
    NotNegative(d + 0.5, g);
    Distribute(0.5, d, g);
    Distribute(d, -0.5, g);
    assert f < 0.0 ==> d * f == -(d * g);
  }

  /** Whatever fits, fits the signal's width. */
  lemma FitBound(fl: Floats, s: Signal, r: real)
    requires FitRaw(fl, s, r).Some?
    ensures 0 < s.length <= 64 && FitRaw(fl, s, r).value < Pow2(s.length)
  {
    if s.float {
      Pow2Sixty4();
    } else {
      FitBack(fl, s, r);
    }
  }

  // --- as it is done ---------------------------------------------------------------------------------------

  predicate Ascending(ks: seq<u64>) { forall i, j :: 0 <= i < j < |ks| ==> ks[i] < ks[j] }

  method InsertKey(ks: seq<u64>, k: u64) returns (r: seq<u64>)
    requires Ascending(ks) && k !in ks
    ensures Ascending(r) && forall x :: x in r <==> x in ks || x == k
  {
    var i := 0;
    while i < |ks| && ks[i] < k
      invariant i <= |ks| && forall j :: 0 <= j < i ==> ks[j] < k
    {
      i := i + 1;
    }
    assert forall j :: i <= j < |ks| ==> ks[j] > k by {
      if i < |ks| { assert ks[i] in ks; }
    }
    r := ks[..i] + [k] + ks[i..];
    assert ks == ks[..i] + ks[i..];
  }

  /** A table's keys, sorted, so that a name given twice is answered the same way
      every time. */
  method SortedTable(values: map<u64, bytes>) returns (ks: seq<u64>)
    ensures Ascending(ks) && forall k :: k in ks <==> k in values
  {
    hide Ascending;
    ks := [];
    AscendingNone();
    var left := values.Keys;
    while left != {}
      invariant Ascending(ks) && (forall k :: k in values <==> k in ks || k in left)
      invariant forall k :: k in ks ==> k !in left
      decreases |left|
    {
      var k :| k in left;
      ks := InsertKey(ks, k);
      left := left - {k};
    }
  }

  lemma AscendingNone()
    ensures Ascending([])
  {
  }

  method FindName(s: Signal, name: bytes) returns (r: Option<u64>)
    ensures r.Some? ==> Names(s, name, r.value)
    ensures r == None ==> forall k :: k in s.values ==> s.values[k] != name
  {
    var ks := SortedTable(s.values);
    var i := 0;
    while i < |ks|
      invariant i <= |ks| && forall j :: 0 <= j < i ==> s.values[ks[j]] != name
    {
      if s.values[ks[i]] == name {
        forall k | k in s.values && s.values[k] == name ensures ks[i] <= k {
          var j :| 0 <= j < |ks| && ks[j] == k;
        }
        return Some(ks[i]);
      }
      i := i + 1;
    }
    return None;
  }

  /** The raw bits for a signal. */
  method RawValue(fl: Floats, s: Signal, req: request) returns (r: RawOutcome)
    ensures r == RawFor(fl, s, req)
  {
    hide FitRaw;
    hide InRange;
    if s.name !in req {
      if s.initial == None { return Unstated; }
      return FromFit(FitRaw(fl, s, s.initial.value));
    }
    var phys: real;
    match req[s.name] {
      case Named(name) =>
        var k := FindName(s, name);
        if k == None { return Unfit; }
        return FromFit(FitRaw(fl, s, k.value as real));
      case Number(x) => phys := x;
      case Truth(b) => phys := if b then 1.0 * s.factor + s.offset else s.offset;
      case NotFinite => return Unfit;
      case NotAValue => return Unfit;
    }
    if !InRange(s, phys) { return Unfit; }
    if s.factor == 0.0 { return Unfit; }
    var q := (phys - s.offset) / s.factor;
    if !s.float { q := Round(q) as real; }
    r := FromFit(FitRaw(fl, s, q));
  }
}
