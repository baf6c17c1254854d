/** The format's own encodings: little-endian integers, counted strings, sorted
    key/value blocks. Encoders are functions that put a value in front of what
    follows; decoders take it off again. */
module Wire {
  import opened Bytes

  /** What a decoder makes of its input: damage, or a value and what follows it. */
  datatype Parsed<+T> = Bad | Good(value: T, rest: bytes) {
    predicate IsFailure() { Bad? }
    function PropagateFailure<U>(): Parsed<U> requires Bad? { Bad }
    function Extract(): (T, bytes) requires Good? { (value, rest) }
  }

  // --- integers, raw bytes, strings -------------------------------------------------

  function TakeInt(n: nat, s: bytes): Parsed<nat> {
    if |s| < n then Bad else Good(FromLE(s[..n]), s[n..])
  }

  function TakeRaw(n: nat, s: bytes): Parsed<bytes> {
    if |s| < n then Bad else Good(s[..n], s[n..])
  }

  /** A u32 length and that many bytes. The length is stored truncated. */
  function PutStr(v: bytes, tail: bytes): bytes { LE(4, |v|) + (v + tail) }

  function TakeStr(s: bytes): Parsed<bytes> {
    var (n, s1) :- TakeInt(4, s);
    TakeRaw(n, s1)
  }

  lemma IntBack(n: nat, v: nat, tail: bytes)
    requires v < Pow256(n)
    ensures TakeInt(n, LE(n, v) + tail) == Good(v, tail)
  {
    StoreLoad(n, v);
    assert (LE(n, v) + tail)[..n] == LE(n, v);
    assert (LE(n, v) + tail)[n..] == tail;
  }

  lemma RawBack(v: bytes, tail: bytes)
    ensures TakeRaw(|v|, v + tail) == Good(v, tail)
  {
    assert (v + tail)[..|v|] == v && (v + tail)[|v|..] == tail;
  }

  lemma StrBack(v: bytes, tail: bytes)
    requires |v| < TWO32
    ensures TakeStr(PutStr(v, tail)) == Good(v, tail)
  {
    WidthBounds();
    IntBack(4, |v|, v + tail);
    RawBack(v, tail);
  }

  // --- the order of strings ------------------------------------------------------------

  /** Go's string order: bytewise, a prefix first. */
  predicate Less(a: bytes, b: bytes) {
    b != [] && (a == [] || a[0] < b[0] || (a[0] == b[0] && Less(a[1..], b[1..])))
  }

  lemma {:induction false} LessTotal(a: bytes, b: bytes)
    ensures Less(a, b) || Less(b, a) || a == b
    ensures !(Less(a, b) && Less(b, a)) && !Less(a, a)
  {
    if a != [] && b != [] && a[0] == b[0] {
      LessTotal(a[1..], b[1..]);
      assert a == [a[0]] + a[1..] && b == [b[0]] + b[1..];
    }
    if a != [] { LessIrreflexive(a); }
  }

  lemma {:induction false} LessIrreflexive(a: bytes)
    ensures !Less(a, a)
  {
    if a != [] { LessIrreflexive(a[1..]); }
  }

  lemma {:induction false} LessTransitive(a: bytes, b: bytes, c: bytes)
    requires Less(a, b) && Less(b, c)
    ensures Less(a, c)
    decreases |a|
  {
    if a != [] && a[0] == b[0] && b[0] == c[0] { LessTransitive(a[1..], b[1..], c[1..]); }
  }

  ghost predicate Sorted(ks: seq<bytes>) {
    forall i, j :: 0 <= i < j < |ks| ==> Less(ks[i], ks[j])
  }

  function Elements(ks: seq<bytes>): set<bytes> { set k | k in ks }

  /** Insertion into a sorted sequence. */
  function Insert(k: bytes, ks: seq<bytes>): (r: seq<bytes>)
    ensures Elements(r) == Elements(ks) + {k}
  {
    if ks == [] then [k]
    else if Less(k, ks[0]) then [k] + ks
    else
      var r := Insert(k, ks[1..]);
      assert Elements(ks) == {ks[0]} + Elements(ks[1..]);
      assert Elements([ks[0]] + r) == {ks[0]} + Elements(r);
      [ks[0]] + r
  }

  lemma {:induction false} InsertSorted(k: bytes, ks: seq<bytes>)
    requires Sorted(ks) && k !in ks
    ensures Sorted(Insert(k, ks))
  {
    if ks == [] {
    } else if Less(k, ks[0]) {
      forall i | 0 < i < |ks| ensures Less(k, ks[i]) { LessTransitive(k, ks[0], ks[i]); }
    } else {
      LessTotal(k, ks[0]);
      assert ks[0] != k;
      InsertSorted(k, ks[1..]);
      var r := Insert(k, ks[1..]);
      forall i | 0 <= i < |r| ensures Less(ks[0], r[i]) {
        assert r[i] in Elements(r);
        if r[i] != k {
          assert r[i] in Elements(ks[1..]);
        }
      }
    }
  }

  /** The keys in order: whichever key is taken first. */
  ghost function SortedKeys(ks: set<bytes>): (r: seq<bytes>)
    ensures Sorted(r) && Elements(r) == ks
    decreases |ks|
  {
    if ks == {} then []
    else
      var k :| k in ks;
      var rest := SortedKeys(ks - {k});
      assert k !in rest by { assert k !in Elements(rest); }
      InsertSorted(k, rest);
      Insert(k, rest)
  }

  /** A set has one sorted sequence. */
  lemma {:induction false} SortedUnique(a: seq<bytes>, b: seq<bytes>)
    requires Sorted(a) && Sorted(b) && Elements(a) == Elements(b)
    ensures a == b
    decreases |a|
  {
    assert a != [] ==> a[0] in Elements(a);
    assert b != [] ==> b[0] in Elements(b);
    if a != [] {
      LessTotal(a[0], b[0]);
      var i :| 0 <= i < |b| && b[i] == a[0];
      var j :| 0 <= j < |a| && a[j] == b[0];
      assert a[0] == b[0];
      SortedTail(a);
      SortedTail(b);
      SortedUnique(a[1..], b[1..]);
      assert a == [a[0]] + a[1..] && b == [b[0]] + b[1..];
    }
  }

  lemma SortedTail(a: seq<bytes>)
    requires Sorted(a) && a != []
    ensures Sorted(a[1..]) && Elements(a[1..]) == Elements(a) - {a[0]}
  {
    LessIrreflexive(a[0]);
    forall k | k in a[1..] ensures k != a[0] && k in a {
      var i :| 0 <= i < |a[1..]| && a[1..][i] == k;
      assert a[i + 1] == k;
    }
    forall k | k in a && k != a[0] ensures k in a[1..] {
      var i :| 0 <= i < |a| && a[i] == k;
      assert a[1..][i - 1] == k;
    }
  }

  // --- key/value blocks -------------------------------------------------------------

  type kvmap = map<bytes, bytes>

  function PutPairs(ks: seq<bytes>, m: kvmap, tail: bytes): bytes
    requires forall k :: k in ks ==> k in m
  {
    if ks == [] then tail
    else PutStr(ks[0], PutStr(m[ks[0]], PutPairs(ks[1..], m, tail)))
  }

  /** A count and the pairs in key order. */
  ghost function PutKv(m: kvmap, tail: bytes): bytes {
    var ks := SortedKeys(m.Keys);
    assert forall k :: k in ks ==> k in Elements(ks);
    LE(4, |m|) + PutPairs(ks, m, tail)
  }

  function TakePairs(n: nat, s: bytes, m: kvmap): Parsed<kvmap>
    decreases n
  {
    if n == 0 then Good(m, s)
    else
      var (k, s1) :- TakeStr(s);
      var (v, s2) :- TakeStr(s1);
      TakePairs(n - 1, s2, m[k := v])
  }

  function TakeKv(s: bytes): Parsed<kvmap> {
    var (n, s1) :- TakeInt(4, s);
    TakePairs(n, s1, map[])
  }

  predicate StrFits(v: bytes) { |v| < TWO32 }

  predicate KvFits(m: kvmap) {
    |m| < TWO32 && forall k :: k in m ==> StrFits(k) && StrFits(m[k])
  }

  lemma {:induction false} PairsBack(ks: seq<bytes>, m: kvmap, acc: kvmap, tail: bytes)
    requires KvFits(m) && forall k :: k in ks ==> k in m
    ensures TakePairs(|ks|, PutPairs(ks, m, tail), acc) == Good(acc + (map k | k in ks :: m[k]), tail)
    decreases |ks|
  {
    if ks == [] {
      PairsNone(ks, m, acc);
    } else {
      var k := ks[0];
      assert k in m;
      var rest := PutPairs(ks[1..], m, tail);
      var s1 := PutStr(m[k], rest);
      StrBack(k, s1);
      StrBack(m[k], rest);
      assert TakePairs(|ks|, PutStr(k, s1), acc) == TakePairs(|ks| - 1, rest, acc[k := m[k]]);
      PairsBack(ks[1..], m, acc[k := m[k]], tail);
      UnionStep(ks, m, acc);
    }
  }

  lemma PairsNone(ks: seq<bytes>, m: kvmap, acc: kvmap)
    requires forall k :: k in ks ==> k in m
    ensures acc + (map k | k in ks :: m[k]) == acc || ks != []
  {
  }

  lemma UnionStep(ks: seq<bytes>, m: kvmap, acc: kvmap)
    requires ks != [] && forall k :: k in ks ==> k in m
    ensures acc[ks[0] := m[ks[0]]] + (map j | j in ks[1..] :: m[j]) == acc + (map j | j in ks :: m[j])
  {
    var l, r := map j | j in ks[1..] :: m[j], map j | j in ks :: m[j];
    assert ks == [ks[0]] + ks[1..];
    assert r == map[ks[0] := m[ks[0]]] + l;
  }

  lemma {:induction false} SortedCount(ks: seq<bytes>)
    requires Sorted(ks)
    ensures |Elements(ks)| == |ks|
    decreases |ks|
  {
    if ks != [] {
      SortedTail(ks);
      SortedCount(ks[1..]);
      assert ks[0] in Elements(ks);
      assert |Elements(ks) - {ks[0]}| == |Elements(ks)| - 1;
    }
  }

  lemma KvBack(m: kvmap, tail: bytes)
    requires KvFits(m)
    ensures TakeKv(PutKv(m, tail)) == Good(m, tail)
  {
    var ks := SortedKeys(m.Keys);
    assert forall k :: k in ks <==> k in Elements(ks);
    SortedCount(ks);
    assert |m| == |m.Keys|;
    WidthBounds();
    IntBack(4, |m|, PutPairs(ks, m, tail));
    PairsBack(ks, m, map[], tail);
    assert map[] + (map k | k in ks :: m[k]) == m;
  }

  // --- putting something in front of a tail is prepending it -------------------------------

  lemma StrTail(v: bytes, tail: bytes)
    ensures PutStr(v, tail) == PutStr(v, []) + tail
  {
    assert LE(4, |v|) + (v + tail) == (LE(4, |v|) + (v + [])) + tail;
  }

  lemma {:induction false} PairsTail(ks: seq<bytes>, m: kvmap, tail: bytes)
    requires forall k :: k in ks ==> k in m
    ensures PutPairs(ks, m, tail) == PutPairs(ks, m, []) + tail
    decreases |ks|
  {
    if ks != [] {
      var k := ks[0];
      PairsTail(ks[1..], m, tail);
      var r := PutPairs(ks[1..], m, []);
      StrTail(k, PutStr(m[k], r + tail));
      StrTail(m[k], r + tail);
      StrTail(k, PutStr(m[k], r));
      StrTail(m[k], r);
      var a, b := PutStr(k, []), PutStr(m[k], []);
      assert a + (b + (r + tail)) == (a + (b + r)) + tail;
    }
  }

  lemma KvTail(m: kvmap, tail: bytes)
    ensures PutKv(m, tail) == PutKv(m, []) + tail
  {
    var ks := SortedKeys(m.Keys);
    assert forall k :: k in ks ==> k in Elements(ks);
    PairsTail(ks, m, tail);
    hide PutPairs;
    Assoc(LE(4, |m|), PutPairs(ks, m, []), tail);
  }

  lemma Assoc(a: bytes, b: bytes, c: bytes)
    ensures a + (b + c) == (a + b) + c
  {
  }

  // --- the append-only encoder ----------------------------------------------------------

  class Buf {
    var b: bytes

    constructor ()
      ensures b == []
    { b := []; }

    /** u8 to u64, i8, i64 and f64 bits: the low `n` bytes of the value. */
    method Int(n: nat, v: nat)
      modifies this
      ensures b == old(b) + LE(n, v)
    { b := b + LE(n, v); }

    method Raw(v: bytes)
      modifies this
      ensures b == old(b) + v
    { b := b + v; }

    method Str(s: bytes)
      modifies this
      ensures b == old(b) + PutStr(s, [])
    {
      Int(4, |s|);
      Raw(s);
      assert b == old(b) + (LE(4, |s|) + (s + []));
    }

    /** The keys come out of the map in whatever order the runtime likes; what is
        written does not depend on it. */
    method Kv(m: kvmap)
      modifies this
      ensures b == old(b) + PutKv(m, [])
    {
      Int(4, |m|);
      var keys := KeysInOrder(m);
      assert forall k :: k in keys ==> k in Elements(keys);
      ghost var ps := PutPairs(keys, m, []);
      Assoc(old(b), LE(4, |m|), ps);
      Pairs(keys, m);
      assert b == old(b) + LE(4, |m|) + ps;
    }

    method KeysInOrder(m: kvmap) returns (keys: seq<bytes>)
      ensures keys == SortedKeys(m.Keys)
    {
      keys := [];
      var left := m.Keys;
      while left != {}
        invariant left <= m.Keys && Sorted(keys) && Elements(keys) == m.Keys - left
        decreases |left|
      {
        var k :| k in left;
        assert k !in keys by { assert k !in Elements(keys); }
        InsertSorted(k, keys);
        keys := Insert(k, keys);
        left := left - {k};
      }
      SortedUnique(keys, SortedKeys(m.Keys));
    }

    method Pairs(keys: seq<bytes>, m: kvmap)
      requires forall k :: k in keys ==> k in m
      modifies this
      ensures b == old(b) + PutPairs(keys, m, [])
    {
      for i := 0 to |keys|
        invariant b + PutPairs(keys[i..], m, []) == old(b) + PutPairs(keys, m, [])
      {
        PairStep(b, keys[i..], m);
        assert keys[i..][1..] == keys[i + 1..];
        Str(keys[i]);
        Str(m[keys[i]]);
      }
      assert keys[|keys|..] == [];
      assert b + [] == b;
    }
  }

  lemma PairStep(b: bytes, ks: seq<bytes>, m: kvmap)
    requires ks != [] && forall k :: k in ks ==> k in m
    ensures b + PutPairs(ks, m, [])
         == b + PutStr(ks[0], []) + PutStr(m[ks[0]], []) + PutPairs(ks[1..], m, [])
  {
    var rest := PutPairs(ks[1..], m, []);
    StrTail(ks[0], PutStr(m[ks[0]], rest));
    StrTail(m[ks[0]], rest);
    var x, y := PutStr(ks[0], []), PutStr(m[ks[0]], []);
    assert b + (x + (y + rest)) == b + x + y + rest;
  }

  // --- the sticky decoder ---------------------------------------------------------------

  /** What a decoding step does to what is left: once there is damage it stays,
      and before that the step takes `p` or leaves damage. */
  ghost predicate Took<T>(before: Option<bytes>, p: Parsed<T>, v: T, after: Option<bytes>) {
    match before
    case None => after == None
    case Some(_) =>
      match p
      case Bad => after == None
      case Good(x, r) => v == x && after == Some(r)
  }

  /** A decoder that records the first error and yields zeroes thereafter. */
  class Dec {
    const src: bytes
    var i: nat
    var err: bool

    ghost predicate Valid() reads this { i <= |src| }

    /** What is left to decode; nothing once an error is recorded. */
    ghost function Left(): Option<bytes>
      requires Valid()
      reads this
    {
      if err then None else Some(src[i..])
    }

    ghost function Ahead(): bytes
      requires Valid()
      reads this
    {
      if err then [] else src[i..]
    }

    constructor (s: bytes)
      ensures Valid() && Left() == Some(s) && src == s
    {
      src := s;
      i := 0;
      err := false;
      new;
      assert s[0..] == s;
    }

    method Need(n: nat) returns (ok: bool)
      requires Valid()
      modifies this
      ensures Valid() && i == old(i)
      ensures ok <==> old(Left()).Some? && |old(Left()).value| >= n
      ensures Left() == if ok then old(Left()) else None
    {
      if err { return false; }
      if i + n > |src| {
        err := true;
        return false;
      }
      return true;
    }

    method Int(n: nat) returns (v: nat)
      requires Valid()
      modifies this
      ensures Valid()
      ensures Took(old(Left()), TakeInt(n, old(Ahead())), v, Left())
      ensures Left() == None ==> v == 0
      ensures v < Pow256(n)
    {
      var ok := Need(n);
      if !ok { return 0; }
      assert src[i..][..n] == src[i..i + n] && src[i..][n..] == src[i + n..];
      v := FromLE(src[i..i + n]);
      FromLEBound(src[i..i + n]);
      i := i + n;
    }

    method Raw(n: nat) returns (v: bytes)
      requires Valid()
      modifies this
      ensures Valid()
      ensures Took(old(Left()), TakeRaw(n, old(Ahead())), v, Left())
      ensures Left() == None ==> v == []
    {
      var ok := Need(n);
      if !ok { return []; }
      assert src[i..][..n] == src[i..i + n] && src[i..][n..] == src[i + n..];
      v := src[i..i + n];
      i := i + n;
    }

    method Str() returns (v: bytes)
      requires Valid()
      modifies this
      ensures Valid()
      ensures Took(old(Left()), TakeStr(old(Ahead())), v, Left())
      ensures Left() == None ==> v == []
    {
      var n := Int(4);
      v := Raw(n);
    }

    method Rest() returns (v: bytes)
      requires Valid() && !err
      ensures Left() == Some(v)
    {
      v := src[i..];
    }

    /** One of `n` pairs to come. */
    method Pair(m: kvmap, ghost n: nat) returns (r: kvmap)
      requires Valid() && n > 0 && Left().Some?
      modifies this
      ensures Valid()
      ensures match Left()
        case None => TakePairs(n, old(Left()).value, m) == Bad
        case Some(rest) => TakePairs(n, old(Left()).value, m) == TakePairs(n - 1, rest, r)
    {
      var key := Str();
      var val := Str();
      r := m[key := val];
    }

    method Kv() returns (m: kvmap)
      requires Valid()
      modifies this
      ensures Valid()
      ensures Took(old(Left()), TakeKv(old(Ahead())), m, Left())
    {
      var n := Int(4);
      m := map[];
      ghost var whole := if Left().Some? then TakePairs(n, Left().value, map[]) else Bad;
      if err || n == 0 { return; }
      var k := 0;
      while k < n && !err
        invariant Valid() && k <= n
        invariant Left() == None ==> whole == Bad
        invariant Left().Some? ==> TakePairs(n - k, Left().value, m) == whole
        decreases n - k
      {
        m := Pair(m, n - k);
        k := k + 1;
      }
    }
  }
}
