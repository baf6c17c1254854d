/** Framing: a length, a type, a payload and a checksum over all three. */
module Frames {
  import opened Bytes
  import opened Wire
  import opened Crc

  const FRAME_SYNC: byte := 0x01
  const FRAME_SCHEMA: byte := 0x10
  const FRAME_META: byte := 0x11
  const FRAME_ATTACH: byte := 0x12
  const FRAME_RUN: byte := 0x13
  const FRAME_HOLD: byte := 0x14
  const FRAME_DATA: byte := 0x20
  const FRAME_INDEX: byte := 0x30
  const FRAME_END: byte := 0x40

  const MAGIC: bytes := [0x89, 0x4C, 0x4F, 0x47, 0x42, 0x0D, 0x0A, 0x1A]
  const SYNC_PATTERN: bytes :=
    [0x4C, 0x4F, 0x47, 0x42, 0x53, 0x59, 0x4E, 0x43, 0xA7, 0x3E, 0x91, 0xD2, 0x5C, 0x68, 0x0B, 0xF4]

  datatype Frame = Frame(typ: byte, flags: byte, id: u16, payload: bytes) {
    function Size(): nat { 12 + |payload| }
    predicate Fits() { |payload| < TWO32 }
  }

  function Header(f: Frame): (h: bytes)
    ensures |h| == 8
  {
    LE(4, |f.payload|) + [f.typ, f.flags] + LE(2, f.id)
  }

  /** The checksum runs over the header and then the payload. */
  function Sum(hdr: bytes, payload: bytes): nat { Crc32c(payload, Crc32c(hdr)) }

  function FrameBytes(f: Frame): (s: bytes)
    ensures |s| == f.Size()
  {
    Header(f) + f.payload + LE(4, Sum(Header(f), f.payload))
  }

  /** A file is a 16-byte header and frames. */
  function FileHeader(): (h: bytes)
    ensures |h| == 16
  {
    var h := MAGIC + LE(2, 0) + LE(2, 1);
    h + LE(4, Crc32c(h))
  }

  /** Any minor version is accepted, and only major version 0. */
  predicate HeaderOk(h: bytes) {
    |h| == 16 && h[..8] == MAGIC && FromLE(h[12..]) == Crc32c(h[..12]) && FromLE(h[8..10]) == 0
  }

  function FramesBytes(fs: seq<Frame>): bytes {
    if fs == [] then [] else FrameBytes(fs[0]) + FramesBytes(fs[1..])
  }

  function FramesLen(fs: seq<Frame>): nat {
    if fs == [] then 0 else fs[0].Size() + FramesLen(fs[1..])
  }

  // --- reading one frame --------------------------------------------------------------

  datatype FrameRead = Eof | Damage | Got(frame: Frame, rest: bytes)

  function ReadFrame(s: bytes): FrameRead {
    if s == [] then Eof
    else if |s| < 8 then Damage
    else
      var len := FromLE(s[..4]);
      if |s| < 12 + len then Damage
      else
        var payload := s[8..8 + len];
        FromLEBound(s[6..8]);
        WidthBounds();
        if FromLE(s[8 + len..12 + len]) != Sum(s[..8], payload) then Damage
        else Got(Frame(s[4], s[5], FromLE(s[6..8]), payload), s[12 + len..])
  }

  lemma SumBound(hdr: bytes, payload: bytes)
    ensures Sum(hdr, payload) < TWO32
  {
    CrcBound(hdr, 0);
    CrcBound(payload, Crc32c(hdr));
  }

  lemma HeaderParts(f: Frame, s: bytes)
    requires f.Fits() && |s| >= 8 && s[..8] == Header(f)
    ensures FromLE(s[..4]) == |f.payload| && s[4] == f.typ && s[5] == f.flags && FromLE(s[6..8]) == f.id
  {
    WidthBounds();
    StoreLoad(4, |f.payload|);
    StoreLoad(2, f.id);
    var h := Header(f);
    assert h[..4] == LE(4, |f.payload|) && h[6..] == LE(2, f.id);
    assert s[..4] == s[..8][..4] && s[6..8] == s[..8][6..];
    assert s[4] == h[4] && s[5] == h[5];
  }

  /** A frame that was written is the frame that is read. */
  lemma FrameBack(f: Frame, rest: bytes)
    requires f.Fits()
    ensures ReadFrame(FrameBytes(f) + rest) == Got(f, rest)
  {
    var s := FrameBytes(f) + rest;
    var n := |f.payload|;
    assert s[..8] == Header(f);
    HeaderParts(f, s);
    assert s[8..8 + n] == f.payload;
    var sum := Sum(Header(f), f.payload);
    assert s[8 + n..12 + n] == LE(4, sum);
    SumBound(Header(f), f.payload);
    WidthBounds();
    StoreLoad(4, sum);
    assert s[12 + n..] == rest;
  }

  /** What reads as a frame is that frame's bytes and nothing else. */
  lemma FrameIsItsBytes(s: bytes)
    requires ReadFrame(s).Got?
    ensures ReadFrame(s).frame.Fits()
    ensures s == FrameBytes(ReadFrame(s).frame) + ReadFrame(s).rest
  {
    hide Crc32c;
    hide LE;
    hide FromLE;
    var f := ReadFrame(s).frame;
    var n := |f.payload|;
    FromLEBound(s[..4]);
    WidthBounds();
    LoadStore(s[..4]);
    LoadStore(s[6..8]);
    LoadStore(s[8 + n..12 + n]);
    CutFive(s, n);
  }

  lemma CutFive(s: bytes, n: nat)
    requires |s| >= 12 + n
    ensures s[..8] == s[..4] + [s[4], s[5]] + s[6..8]
    ensures s == s[..8] + s[8..8 + n] + s[8 + n..12 + n] + s[12 + n..]
  {
  }

  /** A frame cut short is damage wherever it is cut. */
  lemma CutFrameIsDamage(f: Frame, k: nat)
    requires f.Fits() && 0 < k < f.Size()
    ensures ReadFrame(FrameBytes(f)[..k]) == Damage
  {
    var s := FrameBytes(f)[..k];
    if k >= 8 {
      assert s[..8] == Header(f);
      HeaderParts(f, s);
    }
  }

  // --- reading frames until something is wrong ------------------------------------------

  /** The whole frames at the front of a byte string. */
  function WholeFrames(s: bytes): seq<Frame>
    decreases |s|
  {
    match ReadFrame(s)
    case Got(f, rest) => [f] + WholeFrames(rest)
    case _ => []
  }

  /** What is left after them: nothing, or the start of damage. */
  function Leftover(s: bytes): bytes
    decreases |s|
  {
    match ReadFrame(s)
    case Got(_, rest) => Leftover(rest)
    case _ => s
  }

  ghost predicate AllFit(fs: seq<Frame>) { forall f :: f in fs ==> f.Fits() }

  /** A byte string is its whole frames and its leftover. */
  lemma {:induction false} SplitWhole(s: bytes)
    ensures s == FramesBytes(WholeFrames(s)) + Leftover(s)
    ensures AllFit(WholeFrames(s))
    ensures !ReadFrame(Leftover(s)).Got?
    decreases |s|
  {
    hide ReadFrame;
    hide FrameBytes;
    match ReadFrame(s) {
      case Got(f, rest) =>
        FrameIsItsBytes(s);
        SplitWhole(rest);
        assert WholeFrames(s)[1..] == WholeFrames(rest);
        assert s == FrameBytes(f) + (FramesBytes(WholeFrames(rest)) + Leftover(rest));
      case _ => assert [] + s == s;
    }
  }

  /** Frames in front of anything are read as those frames. */
  lemma {:induction false} FramesBack(fs: seq<Frame>, tail: bytes)
    requires AllFit(fs)
    ensures WholeFrames(FramesBytes(fs) + tail) == fs + WholeFrames(tail)
    ensures Leftover(FramesBytes(fs) + tail) == Leftover(tail)
  {
    hide ReadFrame;
    hide FrameBytes;
    if fs == [] {
      assert [] + tail == tail;
    } else {
      var rest := FramesBytes(fs[1..]) + tail;
      assert FramesBytes(fs) + tail == FrameBytes(fs[0]) + rest;
      assert fs[0] in fs;
      FrameBack(fs[0], rest);
      FramesBack(fs[1..], tail);
      assert fs + WholeFrames(tail) == [fs[0]] + (fs[1..] + WholeFrames(tail));
    }
  }

  lemma {:induction false} FramesLenBytes(fs: seq<Frame>)
    ensures |FramesBytes(fs)| == FramesLen(fs)
  {
    if fs != [] { FramesLenBytes(fs[1..]); }
  }

  lemma {:induction false} FramesAppend(a: seq<Frame>, b: seq<Frame>)
    ensures FramesBytes(a + b) == FramesBytes(a) + FramesBytes(b)
    ensures FramesLen(a + b) == FramesLen(a) + FramesLen(b)
  {
    if a == [] {
      assert a + b == b;
    } else {
      assert (a + b)[1..] == a[1..] + b;
      FramesAppend(a[1..], b);
      assert FrameBytes(a[0]) + (FramesBytes(a[1..]) + FramesBytes(b))
          == (FrameBytes(a[0]) + FramesBytes(a[1..])) + FramesBytes(b);
    }
  }

  /** How many of the frames lie wholly in the first `k` bytes. */
  function WholeBefore(fs: seq<Frame>, k: nat): (m: nat)
    ensures m <= |fs|
  {
    if fs == [] || k < fs[0].Size() then 0 else 1 + WholeBefore(fs[1..], k - fs[0].Size())
  }

  lemma {:induction false} WholeBeforeIs(fs: seq<Frame>, k: nat)
    ensures var m := WholeBefore(fs, k);
      FramesLen(fs[..m]) <= k && (m < |fs| ==> k < FramesLen(fs[..m + 1]))
  {
    if fs != [] && k >= fs[0].Size() {
      WholeBeforeIs(fs[1..], k - fs[0].Size());
      var m := WholeBefore(fs[1..], k - fs[0].Size());
      assert fs[..m + 1][1..] == fs[1..][..m];
      if m + 1 < |fs| { assert fs[..m + 2][1..] == fs[1..][..m + 1]; }
    } else if fs != [] {
      assert fs[..1][1..] == [];
    }
  }

  /** Cutting any byte string keeps a prefix of its frames. */
  lemma {:induction false} CutAnything(s: bytes, k: nat)
    requires k <= |s|
    ensures WholeFrames(s[..k]) == WholeFrames(s)[..WholeBefore(WholeFrames(s), k)]
    decreases |s|
  {
    hide ReadFrame;
    hide FrameBytes;
    match ReadFrame(s) {
      case Got(f, rest) =>
        FrameIsItsBytes(s);
        var fs := WholeFrames(s);
        assert fs[1..] == WholeFrames(rest);
        if k < f.Size() {
          assert s[..k] == FrameBytes(f)[..k];
          if k > 0 { CutFrameIsDamage(f, k); } else { EmptyIsEof(s[..k]); }
        } else {
          var cut := rest[..k - f.Size()];
          assert s[..k] == FrameBytes(f) + cut;
          FrameBack(f, cut);
          CutAnything(rest, k - f.Size());
          var m := WholeBefore(fs[1..], k - f.Size());
          assert [f] + fs[1..][..m] == fs[..m + 1];
        }
      case _ => CutDamage(s, k);
    }
  }

  lemma EmptyIsEof(s: bytes)
    requires s == []
    ensures ReadFrame(s) == Eof
  {
  }

  /** What does not start with a whole frame still does not when it is cut. */
  lemma CutDamage(s: bytes, k: nat)
    requires k <= |s| && !ReadFrame(s).Got?
    ensures !ReadFrame(s[..k]).Got?
  {
    hide *;
    var r := ReadFrame(s[..k]);
    if r.Got? {
      FrameIsItsBytes(s[..k]);
      assert s == s[..k] + s[k..];
      assert s == FrameBytes(r.frame) + (r.rest + s[k..]);
      FrameBack(r.frame, r.rest + s[k..]);
    }
  }

  /** A cut keeps exactly the frames wholly before it, and leaves something over
      exactly when it is not a frame boundary. */
  lemma CutFrames(fs: seq<Frame>, k: nat)
    requires AllFit(fs) && k <= FramesLen(fs)
    ensures |FramesBytes(fs)| == FramesLen(fs)
    ensures WholeFrames(FramesBytes(fs)[..k]) == fs[..WholeBefore(fs, k)]
    ensures Leftover(FramesBytes(fs)[..k]) == [] <==> k == FramesLen(fs[..WholeBefore(fs, k)])
  {
    hide *;
    FramesLenBytes(fs);
    var s := FramesBytes(fs);
    FramesBack(fs, []);
    NothingWhole();
    assert s + [] == s && fs + [] == fs;
    CutAnything(s, k);
    SplitWhole(s[..k]);
    FramesLenBytes(fs[..WholeBefore(fs, k)]);
  }

  lemma NothingWhole()
    ensures WholeFrames([]) == [] && Leftover([]) == []
  {
  }

  /** Damage to any four consecutive bytes after the length, or fewer, is seen. */
  lemma DamageIsSeen(f: Frame, at: nat, v: bytes, rest: bytes)
    requires f.Fits() && |v| <= 4 && 4 <= at && at + |v| <= 8 + |f.payload|
    requires v != FrameBytes(f)[at..at + |v|]
    ensures ReadFrame(FrameBytes(f)[..at] + v + FrameBytes(f)[at + |v|..] + rest) == Damage
  {
    hide *;
    var body := Header(f) + f.payload;
    var pre, old_, post := body[..at], body[at..at + |v|], body[at + |v|..];
    var sum := Sum(Header(f), f.payload);
    BodyAndSum(f);
    var bad := pre + v + post;
    assert body == pre + old_ + post;
    assert FrameBytes(f)[..at] == pre && FrameBytes(f)[at..at + |v|] == old_;
    assert FrameBytes(f)[at + |v|..] == post + LE(4, sum);
    BurstDetected(pre, old_, v, post, 0);
    assert bad[..4] == body[..4];
    var s := FrameBytes(f)[..at] + v + FrameBytes(f)[at + |v|..] + rest;
    assert s == bad + LE(4, sum) + rest;
    ChecksumDecides(bad, |f.payload|, sum, rest);
  }

  lemma BodyAndSum(f: Frame)
    requires f.Fits()
    ensures FrameBytes(f) == Header(f) + f.payload + LE(4, Sum(Header(f), f.payload))
    ensures Sum(Header(f), f.payload) == Crc32c(Header(f) + f.payload) < TWO32
    ensures FromLE((Header(f) + f.payload)[..4]) == |f.payload|
  {
    SumBound(Header(f), f.payload);
    PiecesAreWhole(Header(f), f.payload, 0);
    HeaderParts(f, Header(f) + f.payload);
  }

  /** A frame whose stored checksum is not that of its body is damage. */
  lemma ChecksumDecides(body: bytes, n: nat, sum: nat, rest: bytes)
    requires |body| == 8 + n && FromLE(body[..4]) == n && sum < TWO32 && Crc32c(body) != sum
    ensures ReadFrame(body + LE(4, sum) + rest) == Damage
  {
    hide FromLE;
    hide LE;
    hide Sum;
    hide Crc32c;
    var s := body + LE(4, sum) + rest;
    assert s[..4] == body[..4] && s[..8] == body[..8] && s[8..8 + n] == body[8..];
    assert s[8 + n..12 + n] == LE(4, sum);
    WidthBounds();
    StoreLoad(4, sum);
    SumOfPieces(body);
  }

  lemma SumOfPieces(body: bytes)
    requires |body| >= 8
    ensures Sum(body[..8], body[8..]) == Crc32c(body)
  {
    PiecesAreWhole(body[..8], body[8..], 0);
    assert body[..8] + body[8..] == body;
  }
}
