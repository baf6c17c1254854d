/** What a scan makes of a sequence of frames. */
module Reading {
  import opened Bytes
  import opened Wire
  import opened Format
  import opened Frames
  import opened Records
  import opened Transpose
  import opened BitOps

  const CODEC_NONE: byte := 0
  const CODEC_ZSTD: byte := 1
  const CODEC_DEFLATE: byte := 3
  const FILTER_NONE: byte := 0
  const FILTER_TRANSPOSE: byte := 1

  /** The compressors, as a pair of functions chosen by codec. */
  datatype Zip = Zip(pack: (byte, bytes) -> bytes, unpack: (byte, bytes) -> Option<bytes>)

  predicate Compresses(codec: byte) { codec == CODEC_ZSTD || codec == CODEC_DEFLATE }

  /** Decompression undoes compression. */
  ghost predicate Inverse(z: Zip) {
    forall c: byte, d: bytes :: Compresses(c) ==> z.unpack(c, z.pack(c, d)) == Some(d)
  }

  // --- DATA and HOLD payloads ---------------------------------------------------------

  datatype DataHeader = DataHeader(base: u64, count: u32, runID: u32, codec: byte, filter: byte)

  function TakeDataHeader(s: bytes): Parsed<DataHeader> {
    var (base, s1) :- TakeU64(s);
    var (count, s2) :- TakeU32(s1);
    var (runID, s3) :- TakeU32(s2);
    var (codec, s4) :- TakeU8(s3);
    var (filter, s5) :- TakeU8(s4);
    var (_, s6) :- TakeU16(s5);
    var (_, s7) :- TakeU64(s6);
    Good(DataHeader(base, count, runID, codec, filter), s7)
  }

  datatype DataRead = Torn | Unsupported | Decoded(batch: Batch)

  function Unpacked(z: Zip, codec: byte, s: bytes): Option<bytes> {
    if codec == CODEC_NONE then Some(s) else z.unpack(codec, s)
  }

  function DecodeData(z: Zip, s: Schema, payload: bytes): DataRead {
    match TakeDataHeader(payload)
    case Bad => Torn
    case Good(h, rest) =>
      if h.codec != CODEC_NONE && !Compresses(h.codec) then Unsupported
      else
        match Unpacked(z, h.codec, rest)
        case None => Torn
        case Some(data) =>
          var fixed := h.count * s.RecordBytes();
          if h.filter != FILTER_NONE && h.filter != FILTER_TRANSPOSE then Unsupported
          else if h.filter == FILTER_TRANSPOSE && fixed > |data| then Torn
          else
            var plain := if h.filter == FILTER_TRANSPOSE then Unfiltered(data, fixed, s.RecordBytes()) else data;
            match TailsOf(s, h.count, plain)
            case None => Torn
            case Some(tails) => Decoded(Batch(s, h.runID, h.base, h.count, plain, tails))
  }

  /** A presence bitmap, least significant bit first. */
  function BitAt(bits: bytes, i: nat): bool
    requires i < 8 * |bits|
  {
    Bit(bits[i / 8], i % 8)
  }

  function PresentOf(bits: bytes, n: nat): seq<bool>
    requires n <= 8 * |bits|
  {
    seq(n, i requires 0 <= i < n => BitAt(bits, i))
  }

  function DecodeHold(s: Schema, payload: bytes): Option<Held> {
    match TakeHold(s, payload)
    case Bad => None
    case Good(h, _) => Some(h)
  }

  function TakeHold(s: Schema, payload: bytes): Parsed<Held> {
    var (base, s1) :- TakeU64(payload);
    var (runID, s2) :- TakeU32(s1);
    var (_, s3) :- TakeU32(s2);
    var (bits, rec) :- TakeRaw((|s.fields| + 7) / 8, s3);
    if |rec| < s.RecordBytes() then Bad
    else
      match TailsOf(s, 1, rec)
      case None => Bad
      case Some(tails) => Good(Held(s, base, runID, PresentOf(bits, |s.fields|), rec, tails), [])
  }

  // --- one frame ---------------------------------------------------------------------

  /** What a frame turned out to be, for those who watch the scan. */
  datatype Outcome =
    | Nothing
    | Bound(schema: Schema, id: u16)
    | HeldValues(held: Held)
    | Records(batch: Batch, run: Option<Run>)

  /** A frame where it was met, and what it was. */
  datatype Event = Event(at: nat, frame: Frame, out: Outcome)

  /** What an event turned out to be fits the frame it was. */
  predicate Paired(e: Event) {
    (e.out.Bound? ==> e.frame.typ == FRAME_SCHEMA && e.out.id == e.frame.id) &&
    (e.out.HeldValues? ==> e.frame.typ == FRAME_HOLD) &&
    (e.out.Records? ==> e.frame.typ == FRAME_DATA)
  }

  datatype Meta = Meta(key: bytes, value: bytes)

  /** The reader's own state. `watch` says whether anybody asked for HOLD frames;
      they are not even decoded when nobody did. */
  datatype RState = RState(
    streams: map<u16, Schema>, runs: map<u32, Run>, meta: seq<Meta>, attachments: map<bytes, bytes>,
    closed: bool, unsupported: seq<bytes>, seqNo: nat, watch: bool)

  const FRESH := RState(map[], map[], [], map[], false, [], 0, true)

  datatype Applied = Stop | Go(rs: RState, out: Outcome)

  function Lookup<K, V>(m: map<K, V>, k: K): Option<V> { if k in m then Some(m[k]) else None }

  function TakeMeta(s: bytes): Parsed<Meta> {
    var (k, s1) :- TakeStr(s);
    var (v, s2) :- TakeStr(s1);
    Good(Meta(k, v), s2)
  }

  function TakeAttach(s: bytes): Parsed<Meta> {
    var (name, s1) :- TakeStr(s);
    var (n, s2) :- TakeU32(s1);
    var (data, s3) :- TakeRaw(n, s2);
    Good(Meta(name, data), s3)
  }

  function TakeSeqNo(s: bytes): Parsed<nat> {
    var (_, s1) :- TakeRaw(16, s);
    TakeInt(8, s1)
  }

  function OnSync(rs: RState, payload: bytes): RState {
    rs.(streams := map[], runs := map[],
        seqNo := match TakeSeqNo(payload) case Bad => 0 case Good(n, _) => n)
  }

  function OnSchema(rs: RState, id: u16, payload: bytes): Applied {
    match TakeSchema(payload)
    case Bad => Stop
    case Good(s, _) =>
      if !s.KnownMode() then
        Go(rs.(streams := rs.streams - {id}, unsupported := rs.unsupported + [s.name]), Nothing)
      else Go(rs.(streams := rs.streams[id := s]), Bound(s, id))
  }

  function OnRun(rs: RState, payload: bytes): RState {
    match TakeRun(payload)
    case Bad => rs
    case Good(r, _) => rs.(runs := rs.runs[r.id := r])
  }

  function OnMeta(rs: RState, payload: bytes): RState {
    match TakeMeta(payload)
    case Bad => rs
    case Good(m, _) => rs.(meta := rs.meta + [m])
  }

  function OnAttach(rs: RState, payload: bytes): RState {
    match TakeAttach(payload)
    case Bad => rs
    case Good(m, _) => rs.(attachments := rs.attachments[m.key := m.value])
  }

  function OnData(z: Zip, rs: RState, id: u16, payload: bytes): Applied {
    if id !in rs.streams then Go(rs, Nothing)
    else
      match DecodeData(z, rs.streams[id], payload)
      case Torn => Stop
      case Unsupported => Go(rs.(unsupported := rs.unsupported + [rs.streams[id].name]), Nothing)
      case Decoded(b) => Go(rs, Records(b, Lookup(rs.runs, b.runID)))
  }

  function OnHold(rs: RState, id: u16, payload: bytes): Applied {
    if id !in rs.streams || !rs.watch then Go(rs, Nothing)
    else
      match DecodeHold(rs.streams[id], payload)
      case None => Stop
      case Some(h) => Go(rs, HeldValues(h))
  }

  function Apply(z: Zip, rs: RState, f: Frame): Applied {
    if f.typ == FRAME_SYNC then Go(OnSync(rs, f.payload), Nothing)
    else if f.typ == FRAME_SCHEMA then OnSchema(rs, f.id, f.payload)
    else if f.typ == FRAME_RUN then Go(OnRun(rs, f.payload), Nothing)
    else if f.typ == FRAME_META then Go(OnMeta(rs, f.payload), Nothing)
    else if f.typ == FRAME_ATTACH then Go(OnAttach(rs, f.payload), Nothing)
    else if f.typ == FRAME_DATA then OnData(z, rs, f.id, f.payload)
    else if f.typ == FRAME_HOLD then OnHold(rs, f.id, f.payload)
    else if f.typ == FRAME_END then Go(rs.(closed := true), Nothing)
    else Go(rs, Nothing)
  }

  // --- a whole scan --------------------------------------------------------------------

  datatype Replayed = Replayed(events: seq<Event>, rs: RState, stopped: bool)

  /** The frames in order, until one of them cannot be understood. */
  function Replay(z: Zip, rs: RState, fs: seq<Frame>, at: nat): Replayed
    decreases |fs|
  {
    if fs == [] then Replayed([], rs, false)
    else
      match Apply(z, rs, fs[0])
      case Stop => Replayed([Event(at, fs[0], Nothing)], rs, true)
      case Go(rs', out) =>
        var r := Replay(z, rs', fs[1..], at + fs[0].Size());
        r.(events := [Event(at, fs[0], out)] + r.events)
  }

  datatype Scanned = Scanned(events: seq<Event>, rs: RState, truncated: bool)

  /** A scan of bytes that begin at a frame boundary. */
  function Scan(z: Zip, rs: RState, s: bytes, at: nat): Scanned {
    var r := Replay(z, rs, WholeFrames(s), at);
    Scanned(r.events, r.rs, r.stopped || Leftover(s) != [])
  }

  /** A scan of a file, from its header on. */
  function ScanFile(z: Zip, file: bytes): Option<Scanned> {
    if |file| < 16 || !HeaderOk(file[..16]) then None else Some(Scan(z, FRESH, file[16..], 16))
  }

  function BatchesOf(evs: seq<Event>): seq<Batch> {
    if evs == [] then []
    else if evs[0].out.Records? then [evs[0].out.batch] + BatchesOf(evs[1..])
    else BatchesOf(evs[1..])
  }

  function FramesOf(evs: seq<Event>): (fs: seq<Frame>)
    ensures |fs| == |evs|
    ensures forall i :: 0 <= i < |evs| ==> fs[i] == evs[i].frame
  {
    seq(|evs|, i requires 0 <= i < |evs| => evs[i].frame)
  }

  // --- replay is compositional ------------------------------------------------------------

  lemma {:induction false} ReplayAppend(z: Zip, rs: RState, a: seq<Frame>, b: seq<Frame>, at: nat)
    ensures var r := Replay(z, rs, a, at);
      Replay(z, rs, a + b, at) ==
        if r.stopped then r
        else
          var q := Replay(z, r.rs, b, at + FramesLen(a));
          q.(events := r.events + q.events)
    decreases |a|
  {
    hide Apply;
    if a == [] {
      assert a + b == b;
      var q := Replay(z, rs, b, at);
      assert [] + q.events == q.events;
    } else {
      assert (a + b)[1..] == a[1..] + b;
      match Apply(z, rs, a[0]) {
        case Stop =>
        case Go(rs', out) =>
          ReplayAppend(z, rs', a[1..], b, at + a[0].Size());
          var r := Replay(z, rs', a[1..], at + a[0].Size());
          if !r.stopped {
            var q := Replay(z, r.rs, b, at + FramesLen(a));
            assert [Event(at, a[0], out)] + (r.events + q.events) == ([Event(at, a[0], out)] + r.events) + q.events;
          }
      }
    }
  }

  /** Replaying a prefix of the frames gives a prefix of the events: all of them up
      to the prefix, unless the scan had stopped before. */
  lemma ReplayPrefix(z: Zip, rs: RState, fs: seq<Frame>, m: nat, at: nat)
    requires m <= |fs|
    ensures var r := Replay(z, rs, fs, at);
      var p := Replay(z, rs, fs[..m], at);
      |p.events| <= |r.events| && p.events == r.events[..|p.events|] &&
      (p.stopped ==> p == r) && (!p.stopped ==> |p.events| == m)
  {
    ReplayAppend(z, rs, fs[..m], fs[m..], at);
    assert fs[..m] + fs[m..] == fs;
    ReplayCount(z, rs, fs[..m], at);
  }

  lemma {:induction false} ReplayCount(z: Zip, rs: RState, fs: seq<Frame>, at: nat)
    ensures var r := Replay(z, rs, fs, at);
      |r.events| <= |fs| && (!r.stopped ==> |r.events| == |fs|) &&
      (forall i :: 0 <= i < |r.events| ==> r.events[i].frame == fs[i])
    decreases |fs|
  {
    hide Apply;
    if fs != [] {
      match Apply(z, rs, fs[0]) {
        case Stop =>
        case Go(rs', _) => ReplayCount(z, rs', fs[1..], at + fs[0].Size());
      }
    }
  }

  /** Where an event was met: after the frames before it. */
  lemma {:induction false} ReplayPlaces(z: Zip, rs: RState, fs: seq<Frame>, at: nat)
    ensures var r := Replay(z, rs, fs, at);
      |r.events| <= |fs| &&
      forall i :: 0 <= i < |r.events| ==> r.events[i].at == at + FramesLen(fs[..i])
    decreases |fs|
  {
    hide Apply;
    ReplayCount(z, rs, fs, at);
    if fs != [] {
      match Apply(z, rs, fs[0]) {
        case Stop => assert fs[..0] == [];
        case Go(rs', _) =>
          var r := Replay(z, rs', fs[1..], at + fs[0].Size());
          ReplayPlaces(z, rs', fs[1..], at + fs[0].Size());
          ReplayCount(z, rs', fs[1..], at + fs[0].Size());
          assert fs[..0] == [];
          forall i | 1 <= i < |r.events| + 1
            ensures Replay(z, rs, fs, at).events[i].at == at + FramesLen(fs[..i])
          {
            assert fs[..i][1..] == fs[1..][..i - 1];
            assert Replay(z, rs, fs, at).events[i] == r.events[i - 1];
          }
      }
    }
  }

  lemma {:induction false} BatchesAppend(a: seq<Event>, b: seq<Event>)
    ensures BatchesOf(a + b) == BatchesOf(a) + BatchesOf(b)
    decreases |a|
  {
    if a == [] {
      assert a + b == b;
    } else {
      assert (a + b)[1..] == a[1..] + b;
      BatchesAppend(a[1..], b);
    }
  }
}
