/** Building a CAN frame: each signal's bits are put where its field is read, and no
    two signals of a frame may share a bit. */
module DbcEncode {
  import opened Bytes
  import opened BitOps
  import opened Extract
  import opened Dbc

  // --- bits as the wire has them ------------------------------------------------------------------

  /** A field's bit as bit i%8 of byte i/8, counting from the least significant. Its
      own inverse. */
  function Physical8(p: nat, be: bool): nat { if be then 8 * (p / 8) + (7 - p % 8) else p }

  lemma PhysicalTwice(p: nat, be: bool)
    ensures Physical8(Physical8(p, be), be) == p
    ensures Physical8(p, be) / 8 == p / 8
    ensures be ==> Physical8(p, be) % 8 == 7 - p % 8
  {
    if be { DivUnique(Physical8(p, be), 8, p / 8, 7 - p % 8); }
  }

  predicate WireBit(d: bytes, q: nat)
    requires q < 8 * |d|
  {
    Bit(d[q / 8], q % 8)
  }

  lemma RecIsWire(d: bytes, p: nat, be: bool)
    requires p < 8 * |d|
    ensures Physical8(p, be) < 8 * |d| && RecBit(d, p, be) == WireBit(d, Physical8(p, be))
  {
    PhysicalTwice(p, be);
  }

  /** One bit of a byte, replaced. */
  lemma SetBit(x: byte, k: nat, b: nat)
    requires k < 8 && b < 2
    ensures Pow2(k) < 256 && b * Pow2(k) < 256
    ensures var y := Or(AndNot(x, Pow2(k)), b * Pow2(k));
      y < 256 && forall j: nat :: Bit(y, j) == if j == k then b == 1 else Bit(x, j)
  {
    Pow2Mono(k, 7);
    Pow2Sixty4();
    assert b == 0 || b == 1;
    assert b * Pow2(k) == if b == 1 then Pow2(k) else 0;
    var y := Or(AndNot(x, Pow2(k)), b * Pow2(k));
    forall j: nat ensures Bit(y, j) == if j == k then b == 1 else Bit(x, j) {
      BitOr(AndNot(x, Pow2(k)), b * Pow2(k), j);
      BitAndNot(x, Pow2(k), j);
      PowerBit(k, j);
      BitZero(j);
    }
    forall j: nat | j >= 8 ensures !Bit(y, j) { BitHigh(x, 8, j); }
    ByteBound(y);
  }

  lemma PowerBit(k: nat, j: nat)
    ensures Bit(Pow2(k), j) == (j == k)
  {
    BitScale(1, k, j);
    if j > k { BitHigh(1, 1, j - k); }
  }

  /** A number with no bit past the eighth is a byte. */
  lemma ByteBound(y: nat)
    requires forall j: nat :: j >= 8 ==> !Bit(y, j)
    ensures y < 256
  {
    Pow2Sixty4();
    LowBits(y, 8);
  }

  // --- where a signal lies ----------------------------------------------------------------------------

  /** The signal's first bit in the record's numbering. */
  function BitOffset(s: Signal): nat {
    if !s.bigEndian then s.start % TWO32 else (8 * (s.start / 8) + (7 - s.start % 8)) % TWO32
  }

  lemma OffsetIsMotorola(s: Signal)
    requires s.bigEndian && s.start < TWO32
    ensures BitOffset(s) == MotorolaOffset(s.start)
  {
    PhysicalTwice(s.start, true);
    assert 8 * (s.start / 8) + (7 - s.start % 8) < TWO32 by {
      assert s.start / 8 <= (TWO32 - 1) / 8;
    }
  }

  /** A frame of `n` bytes has room for it. */
  predicate Holds(s: Signal, n: nat) { 0 < s.length <= 64 && BitOffset(s) + s.length <= 8 * n }

  /** The signal has wire bit `q`. */
  predicate Owns(s: Signal, q: nat) {
    BitOffset(s) <= Physical8(q, s.bigEndian) < BitOffset(s) + s.length
  }

  /** Which bit of the raw value that is. */
  function Place(s: Signal, q: nat): nat
    requires Owns(s, q)
  {
    var i := Physical8(q, s.bigEndian) - BitOffset(s);
    if s.bigEndian then s.length - 1 - i else i
  }

  /** The frame `now` is `was` with the first `i` bits of a signal written. */
  ghost predicate Putting(was: bytes, now: bytes, s: Signal, raw: nat, i: nat) {
    |now| == |was| && forall q :: 0 <= q < 8 * |was| ==>
      WireBit(now, q) ==
        if Owns(s, q) && Physical8(q, s.bigEndian) < BitOffset(s) + i then Bit(raw, Place(s, q)) else WireBit(was, q)
  }

  /** Bit `i` of a signal is put where the field's bit `i` is. */
  lemma PutOne(was: bytes, d: bytes, s: Signal, raw: nat, i: nat)
    requires Holds(s, |was|) && i < s.length && Putting(was, d, s, raw, i)
    ensures var p := BitOffset(s) + i;
      var k := if s.bigEndian then 7 - p % 8 else p % 8;
      var b := if Bit(raw, if s.bigEndian then s.length - 1 - i else i) then 1 else 0;
      p / 8 < |d| && Or(AndNot(d[p / 8], Pow2(k)), b * Pow2(k)) < 256 &&
      Putting(was, d[p / 8 := Or(AndNot(d[p / 8], Pow2(k)), b * Pow2(k))], s, raw, i + 1)
  {
    hide Or;
    hide AndNot;
    hide Bit;
    hide Putting;
    hide WireBit;
    hide Owns;
    hide BitOffset;
    PuttingSize(was, d, s, raw, i);
    var p := BitOffset(s) + i;
    var k := if s.bigEndian then 7 - p % 8 else p % 8;
    var b := if Bit(raw, if s.bigEndian then s.length - 1 - i else i) then 1 else 0;
    PhysicalTwice(p, s.bigEndian);
    SetBit(d[p / 8], k, b);
    var now := d[p / 8 := Or(AndNot(d[p / 8], Pow2(k)), b * Pow2(k))];
    forall q | 0 <= q < 8 * |was|
      ensures WireBit(now, q) ==
        if Owns(s, q) && Physical8(q, s.bigEndian) < BitOffset(s) + (i + 1) then Bit(raw, Place(s, q)) else WireBit(was, q)
    {
      ByteSet(d, p / 8, k, b, q);
      PhysicalIs(p, s.bigEndian, k);
      OneMore(was, now, d, s, raw, i, q);
    }
    PuttingIs(was, now, s, raw, i + 1);
  }

  lemma PhysicalIs(p: nat, be: bool, k: nat)
    requires k == if be then 7 - p % 8 else p % 8
    ensures Physical8(p, be) == 8 * (p / 8) + k
  {
  }

  /** One bit of one byte of a frame, replaced. */
  lemma ByteSet(d: bytes, at: nat, k: nat, b: nat, q: nat)
    requires at < |d| && k < 8 && b < 2 && q < 8 * |d| && Or(AndNot(d[at], Pow2(k)), b * Pow2(k)) < 256
    ensures WireBit(d[at := Or(AndNot(d[at], Pow2(k)), b * Pow2(k))], q) == if q == 8 * at + k then b == 1 else WireBit(d, q)
  {
    SetBit(d[at], k, b);
    hide Or;
    hide AndNot;
    hide Bit;
    OtherBit(q, 8 * at + k);
  }

  lemma PuttingIs(was: bytes, now: bytes, s: Signal, raw: nat, i: nat)
    requires |now| == |was|
    requires forall q :: 0 <= q < 8 * |was| ==>
      WireBit(now, q) ==
        if Owns(s, q) && Physical8(q, s.bigEndian) < BitOffset(s) + i then Bit(raw, Place(s, q)) else WireBit(was, q)
    ensures Putting(was, now, s, raw, i)
  {
  }

  lemma OneMore(was: bytes, now: bytes, d: bytes, s: Signal, raw: nat, i: nat, q: nat)
    requires |now| == |was| && Putting(was, d, s, raw, i) && i < s.length && q < 8 * |was|
    requires var w := Physical8(BitOffset(s) + i, s.bigEndian);
      WireBit(now, q) == if q == w then Bit(raw, if s.bigEndian then s.length - 1 - i else i) else WireBit(d, q)
    ensures WireBit(now, q) ==
      if Owns(s, q) && Physical8(q, s.bigEndian) < BitOffset(s) + (i + 1) then Bit(raw, Place(s, q)) else WireBit(was, q)
  {
    hide Bit;
    hide WireBit;
    hide BitOffset;
    PhysicalTwice(BitOffset(s) + i, s.bigEndian);
    PhysicalTwice(q, s.bigEndian);
    hide Physical8;
  }

  lemma OtherBit(q: nat, w: nat)
    ensures q != w ==> q / 8 != w / 8 || q % 8 != w % 8
  {
    assert q == 8 * (q / 8) + q % 8 && w == 8 * (w / 8) + w % 8;
  }

  /** What was put reads back as the field. */
  lemma PutReads(was: bytes, now: bytes, s: Signal, raw: nat)
    requires Holds(s, |was|) && raw < Pow2(s.length) && Putting(was, now, s, raw, s.length)
    ensures FieldValue(now, BitOffset(s), s.length, s.bigEndian) == raw
  {
    hide Bit;
    forall i | 0 <= i < s.length
      ensures Bit(raw, i) == RecBit(now, if s.bigEndian then BitOffset(s) + s.length - 1 - i else BitOffset(s) + i, s.bigEndian)
    {
      var p := if s.bigEndian then BitOffset(s) + s.length - 1 - i else BitOffset(s) + i;
      RecIsWire(now, p, s.bigEndian);
      PhysicalTwice(p, s.bigEndian);
      assert Owns(s, Physical8(p, s.bigEndian)) && Place(s, Physical8(p, s.bigEndian)) == i;
    }
    FieldUnique(raw, now, BitOffset(s), s.length, s.bigEndian);
  }

  /** Writes a raw value into a signal's bits. */
  method Put(data: array<byte>, s: Signal, raw: nat) returns (ok: bool)
    modifies data
    ensures ok <==> Holds(s, data.Length)
    ensures !ok ==> data[..] == old(data[..])
    ensures ok ==> Putting(old(data[..]), data[..], s, raw, s.length)
  {
    hide Or;
    hide AndNot;
    hide Putting;
    hide Bit;
    hide Pow2;
    hide And;
    hide Shr;
    var off, n := BitOffset(s), s.length;
    if n <= 0 || n > 64 || off + n > 8 * data.Length { return false; }
    ghost var was := data[..];
    PutNone(was, s, raw);
    for i := 0 to n
      invariant Putting(was, data[..], s, raw, i)
    {
      var p := off + i;
      PutOne(was, data[..], s, raw, i);
      PuttingSize(was, data[..], s, raw, i);
      if s.bigEndian {
        OneBit(raw, n - 1 - i);
        var b := And(Shr(raw, n - 1 - i), 1);
        data[p / 8] := Or(AndNot(data[p / 8], Pow2(7 - p % 8)), b * Pow2(7 - p % 8));
      } else {
        OneBit(raw, i);
        var b := And(Shr(raw, i), 1);
        data[p / 8] := Or(AndNot(data[p / 8], Pow2(p % 8)), b * Pow2(p % 8));
      }
    }
    return true;
  }

  lemma PutNone(was: bytes, s: Signal, raw: nat)
    ensures Putting(was, was, s, raw, 0)
  {
  }

  lemma PuttingSize(was: bytes, now: bytes, s: Signal, raw: nat, i: nat)
    requires Putting(was, now, s, raw, i)
    ensures |now| == |was|
  {
  }

  // --- no two signals over one bit ------------------------------------------------------------------------

  /** Marks a signal's bits as its own, unless one is taken; answers who has it. */
  method Claim(owner: array<Option<nat>>, s: Signal, me: nat) returns (other: Option<nat>)
    requires owner.Length % 8 == 0 && Holds(s, owner.Length / 8)
    modifies owner
    ensures other == None ==> forall q :: 0 <= q < owner.Length ==>
      (Owns(s, q) ==> old(owner[q]) == None && owner[q] == Some(me)) && (!Owns(s, q) ==> owner[q] == old(owner[q]))
    ensures other.Some? ==> exists q :: 0 <= q < owner.Length && Owns(s, q) && old(owner[q]) == other
  {
    var off, n := BitOffset(s), s.length;
    ghost var was := owner[..];
    for p := off to off + n
      invariant forall q :: 0 <= q < owner.Length ==>
        if Owns(s, q) && Physical8(q, s.bigEndian) < p then was[q] == None && owner[q] == Some(me) else owner[q] == was[q]
    {
      var i := Physical8(p, s.bigEndian);
      PhysicalTwice(p, s.bigEndian);
      assert i < owner.Length by { PhysicalBelow(p, s.bigEndian, owner.Length / 8); }
      assert Owns(s, i);
      if owner[i].Some? { return owner[i]; }
      forall q | 0 <= q < owner.Length ensures Physical8(q, s.bigEndian) == p ==> q == i { PhysicalTwice(q, s.bigEndian); }
      owner[i] := Some(me);
    }
    return None;
  }

  lemma PhysicalBelow(p: nat, be: bool, n: nat)
    requires p < 8 * n
    ensures Physical8(p, be) < 8 * n
  {
    PhysicalTwice(p, be);
  }

  // --- which signals a frame carries ------------------------------------------------------------------------

  predicate OneLevel(m: Message) {
    (forall i :: 0 <= i < |m.signals| ==> !m.signals[i].extendedMux) &&
    forall i, j :: 0 <= i < j < |m.signals| ==> !(m.signals[i].multiplexor && m.signals[j].multiplexor)
  }

  ghost predicate MuxIs(m: Message, mux: Option<nat>) {
    match mux
    case None => forall i :: 0 <= i < |m.signals| ==> !m.signals[i].multiplexor
    case Some(k) => k < |m.signals| && m.signals[k].multiplexor
  }

  predicate Known(m: Message, req: request) {
    forall name :: name in req ==> exists i :: 0 <= i < |m.signals| && m.signals[i].name == name
  }

  /** The multiplexor's value selects the signal, or it is not multiplexed. */
  predicate Selected(s: Signal, mux: Option<nat>, muxRaw: nat) { !s.muxed || (mux.Some? && s.muxValue == muxRaw) }

  function MuxRaw(r: RawOutcome): nat { if r.Bits? then r.n else 0 }

  ghost function RawMux(fl: Floats, m: Message, req: request, mux: Option<nat>): nat
    requires MuxIs(m, mux)
  {
    match mux
    case None => 0
    case Some(k) => MuxRaw(RawFor(fl, m.signals[k], req))
  }

  /** What is asked of signal `j`: a selected one has raw bits and room, one that is
      not selected is not named. */
  ghost predicate SignalOk(fl: Floats, m: Message, req: request, mux: Option<nat>, j: nat)
    requires MuxIs(m, mux) && j < |m.signals|
  {
    var s := m.signals[j];
    if Selected(s, mux, RawMux(fl, m, req, mux)) then RawFor(fl, s, req).Bits? && Holds(s, if m.length < 0 then 0 else m.length)
    else s.name !in req
  }

  ghost predicate Apart(fl: Floats, m: Message, req: request, mux: Option<nat>, i: nat, j: nat)
    requires MuxIs(m, mux) && i < |m.signals| && j < |m.signals|
  {
    var v := RawMux(fl, m, req, mux);
    Selected(m.signals[i], mux, v) && Selected(m.signals[j], mux, v) && i != j ==>
      forall q :: 0 <= q < 8 * m.length ==> !(Owns(m.signals[i], q) && Owns(m.signals[j], q))
  }

  /** Every frame that can be built, and none but. */
  ghost predicate Encodable(fl: Floats, m: Message, req: request, mux: Option<nat>)
    requires MuxIs(m, mux)
  {
    0 < m.length <= 64 && OneLevel(m) && Known(m, req) &&
    (mux.Some? ==> RawFor(fl, m.signals[mux.value], req).Bits?) &&
    (forall j :: 0 <= j < |m.signals| ==> SignalOk(fl, m, req, mux, j)) &&
    (forall i, j :: 0 <= i < |m.signals| && 0 <= j < |m.signals| ==> Apart(fl, m, req, mux, i, j))
  }

  /** The frame holds exactly what is selected: each such signal's field is its raw
      value, and every other bit is clear. */
  ghost predicate Encodes(fl: Floats, m: Message, req: request, mux: Option<nat>, d: bytes)
    requires MuxIs(m, mux)
  {
    |d| == m.length &&
    (forall j :: 0 <= j < |m.signals| && Selected(m.signals[j], mux, RawMux(fl, m, req, mux)) ==>
      var s := m.signals[j];
      RawFor(fl, s, req).Bits? && Holds(s, |d|) &&
      FieldValue(d, BitOffset(s), s.length, s.bigEndian) == RawFor(fl, s, req).n) &&
    forall q :: 0 <= q < 8 * |d| && Nobodys(m, mux, RawMux(fl, m, req, mux), q) ==> !WireBit(d, q)
  }

  /** No selected signal has the bit. */
  ghost predicate Nobodys(m: Message, mux: Option<nat>, muxRaw: nat, q: nat) {
    forall j :: 0 <= j < |m.signals| && Selected(m.signals[j], mux, muxRaw) ==> !Owns(m.signals[j], q)
  }

  // --- the frame as it fills -----------------------------------------------------------------------------------

  /** The first `|raws|` signals have been written: `raws` says with what, or that
      they were not. */
  ghost predicate Laid(m: Message, raws: seq<Option<nat>>, d: bytes, owner: seq<Option<nat>>) {
    |raws| <= |m.signals| && |owner| == 8 * |d| &&
    (forall j :: 0 <= j < |raws| && raws[j].Some? ==> Holds(m.signals[j], |d|) && raws[j].value < Pow2(m.signals[j].length)) &&
    forall q :: 0 <= q < |owner| ==> LaidAt(m, raws, d, owner, q)
  }

  ghost predicate LaidAt(m: Message, raws: seq<Option<nat>>, d: bytes, owner: seq<Option<nat>>, q: nat)
    requires |raws| <= |m.signals| && |owner| == 8 * |d| && q < |owner|
  {
    (forall j :: 0 <= j < |raws| && raws[j].Some? && Owns(m.signals[j], q) ==> owner[q] == Some(j)) &&
    match owner[q]
    case None => !WireBit(d, q)
    case Some(j) =>
      j < |raws| && raws[j].Some? && Owns(m.signals[j], q) && WireBit(d, q) == Bit(raws[j].value, Place(m.signals[j], q))
  }

  lemma LaidNone(m: Message, n: nat, d: bytes, owner: seq<Option<nat>>)
    requires |d| == n && |owner| == 8 * n
    requires (forall i :: 0 <= i < n ==> d[i] == 0) && forall q :: 0 <= q < 8 * n ==> owner[q] == None
    ensures Laid(m, [], d, owner)
  {
    forall q | 0 <= q < 8 * n ensures !WireBit(d, q) { BitZero(q % 8); }
  }

  /** A signal that is not written changes nothing. */
  lemma LaidSkip(m: Message, raws: seq<Option<nat>>, d: bytes, owner: seq<Option<nat>>)
    requires Laid(m, raws, d, owner) && |raws| < |m.signals|
    ensures Laid(m, raws + [None], d, owner)
  {
    hide Owns;
    hide Place;
    hide WireBit;
    hide Bit;
    forall q | 0 <= q < |owner| ensures LaidAt(m, raws + [None], d, owner, q) {
      assert LaidAt(m, raws, d, owner, q);
    }
  }

  /** A signal that is, where nobody was. */
  lemma LaidMore(m: Message, raws: seq<Option<nat>>, was: bytes, owned: seq<Option<nat>>, raw: nat, d: bytes, owner: seq<Option<nat>>)
    requires Laid(m, raws, was, owned) && |raws| < |m.signals| && |owner| == |owned|
    requires var s := m.signals[|raws|];
      Holds(s, |was|) && raw < Pow2(s.length) && Putting(was, d, s, raw, s.length)
    requires forall q :: 0 <= q < |owned| ==>
      (Owns(m.signals[|raws|], q) ==> owned[q] == None && owner[q] == Some(|raws|)) &&
      (!Owns(m.signals[|raws|], q) ==> owner[q] == owned[q])
    ensures Laid(m, raws + [Some(raw)], d, owner)
  {
    var s := m.signals[|raws|];
    hide Place;
    hide WireBit;
    hide Bit;
    hide Physical8;
    forall q | 0 <= q < |owner| ensures LaidAt(m, raws + [Some(raw)], d, owner, q) {
      assert LaidAt(m, raws, was, owned, q);
      if Owns(s, q) {
        assert WireBit(d, q) == Bit(raw, Place(s, q));
      } else {
        assert WireBit(d, q) == WireBit(was, q);
      }
    }
  }

  /** What is laid reads back. */
  lemma LaidReads(m: Message, raws: seq<Option<nat>>, d: bytes, owner: seq<Option<nat>>, j: nat)
    requires Laid(m, raws, d, owner) && j < |raws| && raws[j].Some?
    ensures Holds(m.signals[j], |d|)
    ensures FieldValue(d, BitOffset(m.signals[j]), m.signals[j].length, m.signals[j].bigEndian) == raws[j].value
  {
    var s, raw := m.signals[j], raws[j].value;
    hide Bit;
    forall i | 0 <= i < s.length
      ensures Bit(raw, i) == RecBit(d, if s.bigEndian then BitOffset(s) + s.length - 1 - i else BitOffset(s) + i, s.bigEndian)
    {
      var p := if s.bigEndian then BitOffset(s) + s.length - 1 - i else BitOffset(s) + i;
      RecIsWire(d, p, s.bigEndian);
      PhysicalTwice(p, s.bigEndian);
      var q := Physical8(p, s.bigEndian);
      assert Owns(s, q) && Place(s, q) == i;
      assert LaidAt(m, raws, d, owner, q);
    }
    FieldUnique(raw, d, BitOffset(s), s.length, s.bigEndian);
  }

  // --- the encoder ---------------------------------------------------------------------------------------------

  method FindMux(m: Message) returns (ok: bool, mux: Option<nat>)
    ensures ok <==> OneLevel(m)
    ensures ok ==> MuxIs(m, mux)
  {
    mux := None;
    for i := 0 to |m.signals|
      invariant forall j :: 0 <= j < i ==> !m.signals[j].extendedMux
      invariant mux == None ==> forall j :: 0 <= j < i ==> !m.signals[j].multiplexor
      invariant mux.Some? ==> mux.value < i && m.signals[mux.value].multiplexor
      invariant mux.Some? ==> forall j :: 0 <= j < i && j != mux.value ==> !m.signals[j].multiplexor
    {
      var s := m.signals[i];
      if s.extendedMux || (s.multiplexor && mux.Some?) { return false, mux; }
      if s.multiplexor { mux := Some(i); }
    }
    ok := true;
  }

  method AllKnown(m: Message, req: request) returns (ok: bool)
    ensures ok <==> Known(m, req)
  {
    var left := req.Keys;
    while left != {}
      invariant forall name :: name in req && name !in left ==> exists i :: 0 <= i < |m.signals| && m.signals[i].name == name
      invariant left <= req.Keys
      decreases |left|
    {
      var name :| name in left;
      var i := 0;
      while i < |m.signals| && m.signals[i].name != name
        invariant i <= |m.signals| && forall j :: 0 <= j < i ==> m.signals[j].name != name
      {
        i := i + 1;
      }
      if i == |m.signals| {
        assert name in req;
        return false;
      }
      left := left - {name};
    }
    ok := true;
  }

  /** What the loop has found of the first signals. */
  ghost predicate Sorted(fl: Floats, m: Message, req: request, mux: Option<nat>, muxRaw: nat, raws: seq<Option<nat>>) {
    |raws| <= |m.signals| && forall j :: 0 <= j < |raws| ==> Settled(fl, m.signals[j], req, mux, muxRaw, raws[j])
  }

  ghost predicate Settled(fl: Floats, s: Signal, req: request, mux: Option<nat>, muxRaw: nat, raw: Option<nat>) {
    if Selected(s, mux, muxRaw) then RawFor(fl, s, req) == (match raw case None => Unstated case Some(n) => Bits(n))
    else raw == None && s.name !in req
  }

  /** The bytes of one frame, from the values its signals are to have. */
  method Encode(fl: Floats, m: Message, req: request) returns (r: Option<bytes>, ghost mux: Option<nat>)
    ensures !OneLevel(m) ==> r == None
    ensures OneLevel(m) ==> MuxIs(m, mux) && (r.Some? <==> Encodable(fl, m, req, mux))
    ensures r.Some? ==> OneLevel(m) && MuxIs(m, mux) && Encodes(fl, m, req, mux, r.value)
  {
    hide RawFor;
    hide Laid;
    hide Apart;
    hide Known;
    hide OneLevel;
    hide Sorted;
    hide Encodes;
    hide Putting;
    hide Owns;
    r := None;
    var oneLevel, at := FindMux(m);
    mux := at;
    if !oneLevel { return; }
    EncodableNeeds(fl, m, req, at);
    hide Encodable;
    hide SignalOk;
    hide Selected;
    hide Holds;
    if m.length <= 0 || m.length > 64 { return; }
    var known := AllKnown(m, req);
    if !known { return; }
    var muxRaw := 0;
    if at.Some? {
      var raw := RawValue(fl, m.signals[at.value], req);
      if !raw.Bits? { return; }
      muxRaw := raw.n;
    }
    assert muxRaw == RawMux(fl, m, req, at);
    hide RawMux;
    var data := new byte[m.length](_ => 0);
    var owner := new Option<nat>[8 * m.length](_ => None);
    ghost var raws: seq<Option<nat>> := [];
    LaidNone(m, m.length, data[..], owner[..]);
    SortedNone(fl, m, req, at, muxRaw);
    var missing := false;
    for i := 0 to |m.signals|
      invariant |raws| == i && Laid(m, raws, data[..], owner[..]) && Sorted(fl, m, req, at, muxRaw, raws)
      invariant missing <==> exists j :: 0 <= j < i && raws[j] == None && Selected(m.signals[j], at, muxRaw)
    {
      var s := m.signals[i];
      if !Selected(s, at, muxRaw) {
        if s.name in req {
          Refuses(fl, m, req, at, i);
          return;
        }
        LaidSkip(m, raws, data[..], owner[..]);
        SortedMore(fl, m, req, at, muxRaw, raws, None);
        raws := raws + [None];
      } else {
        var raw := RawValue(fl, s, req);
        if raw.Unfit? {
          Refuses(fl, m, req, at, i);
          return;
        }
        if raw.Unstated? {
          missing := true;
          LaidSkip(m, raws, data[..], owner[..]);
          SortedMore(fl, m, req, at, muxRaw, raws, None);
          raws := raws + [None];
        } else {
          ghost var was, owned := data[..], owner[..];
          RawFits(fl, s, req);
          var ok := Put(data, s, raw.n);
          if !ok {
            Refuses(fl, m, req, at, i);
            return;
          }
          var other := Claim(owner, s, i);
          if other.Some? {
            Overlaps(fl, m, req, at, muxRaw, raws, was, owned, i);
            return;
          }
          LaidMore(m, raws, was, owned, raw.n, data[..], owner[..]);
          SortedMore(fl, m, req, at, muxRaw, raws, Some(raw.n));
          raws := raws + [Some(raw.n)];
        }
      }
    }
    if missing {
      StillMissing(fl, m, req, at, muxRaw, raws);
      return;
    }
    AllLaid(fl, m, req, at, muxRaw, raws, data[..], owner[..]);
    r := Some(data[..]);
  }

  lemma EncodableNeeds(fl: Floats, m: Message, req: request, mux: Option<nat>)
    requires MuxIs(m, mux)
    ensures Encodable(fl, m, req, mux) ==> 0 < m.length <= 64 && Known(m, req)
    ensures Encodable(fl, m, req, mux) && mux.Some? ==> RawFor(fl, m.signals[mux.value], req).Bits?
  {
    hide RawFor;
    hide SignalOk;
    hide Apart;
    hide Known;
    hide OneLevel;
  }

  /** A signal that stands in the way of every frame. */
  lemma Refuses(fl: Floats, m: Message, req: request, mux: Option<nat>, j: nat)
    requires MuxIs(m, mux) && j < |m.signals| && 0 < m.length
    requires var s := m.signals[j];
      if Selected(s, mux, RawMux(fl, m, req, mux)) then !RawFor(fl, s, req).Bits? || !Holds(s, m.length) else s.name in req
    ensures !Encodable(fl, m, req, mux)
  {
    hide RawFor;
    hide RawMux;
    hide Selected;
    hide Holds;
    hide Apart;
    hide Known;
    hide OneLevel;
    assert !SignalOk(fl, m, req, mux, j);
  }

  lemma RawFits(fl: Floats, s: Signal, req: request)
    requires RawFor(fl, s, req).Bits?
    ensures 0 < s.length <= 64 && RawFor(fl, s, req).n < Pow2(s.length)
  {
    hide Pow2;
    forall r: real | FitRaw(fl, s, r).Some? ensures 0 < s.length <= 64 && FitRaw(fl, s, r).value < Pow2(s.length) { FitBound(fl, s, r); }
    hide FitRaw;
    hide InRange;
    hide Round;
  }

  lemma SortedNone(fl: Floats, m: Message, req: request, mux: Option<nat>, muxRaw: nat)
    ensures Sorted(fl, m, req, mux, muxRaw, [])
  {
  }

  lemma SortedMore(fl: Floats, m: Message, req: request, mux: Option<nat>, muxRaw: nat, raws: seq<Option<nat>>, raw: Option<nat>)
    requires Sorted(fl, m, req, mux, muxRaw, raws) && |raws| < |m.signals|
    requires Settled(fl, m.signals[|raws|], req, mux, muxRaw, raw)
    ensures Sorted(fl, m, req, mux, muxRaw, raws + [raw])
  {
    hide Settled;
  }

  /** A bit claimed twice. */
  lemma Overlaps(fl: Floats, m: Message, req: request, mux: Option<nat>, muxRaw: nat, raws: seq<Option<nat>>,
                 d: bytes, owner: seq<Option<nat>>, i: nat)
    requires MuxIs(m, mux) && muxRaw == RawMux(fl, m, req, mux) && |d| == m.length
    requires Laid(m, raws, d, owner) && Sorted(fl, m, req, mux, muxRaw, raws) && |raws| == i < |m.signals|
    requires Selected(m.signals[i], mux, muxRaw)
    requires exists q :: 0 <= q < |owner| && Owns(m.signals[i], q) && owner[q].Some?
    ensures !Encodable(fl, m, req, mux)
  {
    var q :| 0 <= q < |owner| && Owns(m.signals[i], q) && owner[q].Some?;
    assert LaidAt(m, raws, d, owner, q);
    var j := owner[q].value;
    assert Settled(fl, m.signals[j], req, mux, muxRaw, raws[j]);
    hide Owns;
    hide RawFor;
    hide RawMux;
    assert !Apart(fl, m, req, mux, j, i);
  }

  lemma StillMissing(fl: Floats, m: Message, req: request, mux: Option<nat>, muxRaw: nat, raws: seq<Option<nat>>)
    requires MuxIs(m, mux) && muxRaw == RawMux(fl, m, req, mux)
    requires Sorted(fl, m, req, mux, muxRaw, raws) && |raws| == |m.signals|
    requires exists j :: 0 <= j < |raws| && raws[j] == None && Selected(m.signals[j], mux, muxRaw)
    ensures !Encodable(fl, m, req, mux)
  {
    hide RawFor;
    hide RawMux;
    var j :| 0 <= j < |raws| && raws[j] == None && Selected(m.signals[j], mux, muxRaw);
    assert Settled(fl, m.signals[j], req, mux, muxRaw, raws[j]);
    assert !SignalOk(fl, m, req, mux, j);
  }

  /** Bits that are laid have one owner. */
  lemma LaidApart(fl: Floats, m: Message, req: request, mux: Option<nat>, muxRaw: nat, raws: seq<Option<nat>>,
                  d: bytes, owner: seq<Option<nat>>, i: nat, j: nat)
    requires MuxIs(m, mux) && muxRaw == RawMux(fl, m, req, mux) && 0 < m.length && |d| == m.length
    requires Laid(m, raws, d, owner) && |raws| == |m.signals| && i < |raws| && j < |raws|
    requires forall j :: 0 <= j < |raws| && Selected(m.signals[j], mux, muxRaw) ==> raws[j].Some?
    ensures Apart(fl, m, req, mux, i, j)
  {
    hide RawMux;
    hide Owns;
    hide Selected;
    hide WireBit;
    hide Holds;
    if i != j && Selected(m.signals[i], mux, muxRaw) && Selected(m.signals[j], mux, muxRaw) {
      forall q | 0 <= q < 8 * m.length ensures !(Owns(m.signals[i], q) && Owns(m.signals[j], q)) {
        assert LaidAt(m, raws, d, owner, q);
      }
    }
  }

  /** When every signal is settled and nobody's bits are another's, the frame is what
      was asked for. */
  lemma AllLaid(fl: Floats, m: Message, req: request, mux: Option<nat>, muxRaw: nat, raws: seq<Option<nat>>,
                d: bytes, owner: seq<Option<nat>>)
    requires MuxIs(m, mux) && muxRaw == RawMux(fl, m, req, mux) && 0 < m.length <= 64 && |d| == m.length
    requires OneLevel(m) && Known(m, req) && (mux.Some? ==> RawFor(fl, m.signals[mux.value], req).Bits?)
    requires Laid(m, raws, d, owner) && Sorted(fl, m, req, mux, muxRaw, raws) && |raws| == |m.signals|
    requires forall j :: 0 <= j < |raws| && Selected(m.signals[j], mux, muxRaw) ==> raws[j].Some?
    ensures Encodable(fl, m, req, mux) && Encodes(fl, m, req, mux, d)
  {
    hide RawFor;
    hide RawMux;
    hide OneLevel;
    hide Known;
    hide Owns;
    forall j | 0 <= j < |m.signals|
      ensures SignalOk(fl, m, req, mux, j)
      ensures raws[j].Some? ==> Selected(m.signals[j], mux, muxRaw)
      ensures Selected(m.signals[j], mux, muxRaw) ==>
        RawFor(fl, m.signals[j], req) == Bits(raws[j].value) && Holds(m.signals[j], |d|)
    {
      assert Settled(fl, m.signals[j], req, mux, muxRaw, raws[j]);
    }
    forall i, j | 0 <= i < |m.signals| && 0 <= j < |m.signals| ensures Apart(fl, m, req, mux, i, j) {
      LaidApart(fl, m, req, mux, muxRaw, raws, d, owner, i, j);
    }
    forall j | 0 <= j < |m.signals| && Selected(m.signals[j], mux, muxRaw)
      ensures FieldValue(d, BitOffset(m.signals[j]), m.signals[j].length, m.signals[j].bigEndian) == raws[j].value
    {
      LaidReads(m, raws, d, owner, j);
    }
    forall q | 0 <= q < 8 * |d| && Nobodys(m, mux, muxRaw, q) ensures !WireBit(d, q) {
      assert LaidAt(m, raws, d, owner, q);
    }
    hide Laid;
    hide Sorted;
    hide FieldValue;
  }
}
