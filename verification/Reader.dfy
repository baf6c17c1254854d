/** The reader as it is: an object that consumes a stream frame by frame and hands
    out the batches it meets. */
module Reader {
  import opened Bytes
  import opened BitOps
  import opened Wire
  import opened Format
  import opened Codec
  import opened Frames
  import opened Records
  import opened Transpose
  import opened Reading
  import Crc

  // --- payloads -------------------------------------------------------------------------------------

  /** One record's blobs. */
  method ReadBlobs(d: Dec, n: nat) returns (row: seq<bytes>)
    requires d.Valid()
    modifies d
    ensures d.Valid() && Took(old(d.Left()), TakeBlobs(n, old(d.Ahead()), []), row, d.Left())
  {
    row := [];
    ghost var whole := TakeBlobs(n, d.Ahead(), []);
    var k := 0;
    while k < n && !d.err
      invariant d.Valid() && k <= n
      invariant old(d.Left()) == None ==> d.Left() == None
      invariant old(d.Left()).Some? && d.Left() == None ==> whole == Bad
      invariant d.Left().Some? ==> TakeBlobs(n - k, d.Ahead(), row) == whole
      decreases n - k
    {
      var v := d.Str();
      row := row + [v];
      k := k + 1;
    }
  }

  /** Walks the tail region once: it holds no pointers. */
  method ParseTails(s: Schema, count: nat, data: bytes) returns (r: Option<seq<seq<bytes>>>)
    ensures r == TailsOf(s, count, data)
  {
    hide TakeBlobs;
    var nvar := s.VarCount();
    var fixed := count * s.RecordBytes();
    if nvar == 0 { return Some([]); }
    if fixed > |data| { return None; }
    var d := new Dec(data[fixed..]);
    ghost var whole := TakeTails(count, nvar, data[fixed..], []);
    var rows := [];
    var k := 0;
    while k < count && !d.err
      invariant d.Valid() && k <= count
      invariant d.Left() == None ==> whole == Bad
      invariant d.Left().Some? ==> TakeTails(count - k, nvar, d.Ahead(), rows) == whole
      decreases count - k
    {
      TailsUnroll(count - k, nvar, d.Ahead(), rows);
      var row := ReadBlobs(d, nvar);
      rows := rows + [row];
      k := k + 1;
    }
    r := if d.err then None else Some(rows);
  }

  lemma TailsUnroll(n: nat, nvar: nat, s: bytes, acc: seq<seq<bytes>>)
    requires n > 0
    ensures TakeTails(n, nvar, s, acc) ==
      match TakeBlobs(nvar, s, [])
      case Bad => Bad
      case Good(row, rest) => TakeTails(n - 1, nvar, rest, acc + [row])
  {
    hide TakeBlobs;
  }

  method ReadDataHeader(d: Dec) returns (h: DataHeader)
    requires d.Valid()
    modifies d
    ensures d.Valid() && Took(old(d.Left()), TakeDataHeader(old(d.Ahead())), h, d.Left())
  {
    hide TakeU8;
    hide TakeU16;
    hide TakeU32;
    hide TakeU64;
    var base := ReadU64(d);
    var count := ReadU32(d);
    var runID := ReadU32(d);
    var codec := ReadU8(d);
    var filter := ReadU8(d);
    var _ := ReadU16(d);
    var _ := ReadU64(d);
    h := DataHeader(base, count, runID, codec, filter);
  }

  method Unfilter(data: bytes, fixed: nat, rs: nat) returns (out: bytes)
    requires fixed <= |data|
    ensures out == Unfiltered(data, fixed, rs)
  {
    hide Detransposed;
    out := DetransposeRecords(data[..fixed], rs);
    if fixed < |data| { out := out + data[fixed..]; } else { assert data[fixed..] == [] && out + [] == out; }
  }

  /** Decompressed, de-filtered, and its tails walked. */
  method DecodeBatch(z: Zip, s: Schema, payload: bytes) returns (r: DataRead)
    ensures r == DecodeData(z, s, payload)
  {
    hide TakeDataHeader;
    hide TailsOf;
    hide Unfiltered;
    hide Schema.RecordBytes;
    var d := new Dec(payload);
    var h := ReadDataHeader(d);
    if d.err { return Torn; }
    var data := d.Rest();
    if h.codec != CODEC_NONE {
      if !Compresses(h.codec) { return Unsupported; }
      var plain := z.unpack(h.codec, data);
      if plain == None { return Torn; }
      data := plain.value;
    }
    var fixed := h.count * s.RecordBytes();
    if h.filter == FILTER_TRANSPOSE {
      if fixed > |data| { return Torn; }
      data := Unfilter(data, fixed, s.RecordBytes());
    } else if h.filter != FILTER_NONE {
      return Unsupported;
    }
    var tails := ParseTails(s, h.count, data);
    if tails == None { return Torn; }
    r := Decoded(Batch(s, h.runID, h.base, h.count, data, tails.value));
  }

  method Presence(bits: bytes, n: nat) returns (present: seq<bool>)
    requires n <= 8 * |bits|
    ensures present == PresentOf(bits, n)
  {
    present := [];
    for i := 0 to n
      invariant present == PresentOf(bits, n)[..i]
    {
      present := present + [BitAt(bits, i)];
    }
    assert present == PresentOf(bits, n);
  }

  function HoldHead(payload: bytes): Parsed<(u64, u32)> {
    var (base, s1) :- TakeU64(payload);
    var (runID, s2) :- TakeU32(s1);
    var (_, s3) :- TakeU32(s2);
    Good((base, runID), s3)
  }

  function HoldBody(s: Schema, base: u64, runID: u32, rest: bytes): Option<Held> {
    match TakeRaw((|s.fields| + 7) / 8, rest)
    case Bad => None
    case Good(bits, rec) =>
      if |rec| < s.RecordBytes() then None
      else
        match TailsOf(s, 1, rec)
        case None => None
        case Some(tails) => Some(Held(s, base, runID, PresentOf(bits, |s.fields|), rec, tails))
  }

  lemma HoldParts(s: Schema, payload: bytes)
    ensures DecodeHold(s, payload) ==
      match HoldHead(payload)
      case Bad => None
      case Good(h, rest) => HoldBody(s, h.0, h.1, rest)
  {
    hide TakeU64;
    hide TakeU32;
    hide TailsOf;
    hide PresentOf;
  }

  method ReadHoldHead(d: Dec) returns (h: (u64, u32))
    requires d.Valid()
    modifies d
    ensures d.Valid() && Took(old(d.Left()), HoldHead(old(d.Ahead())), h, d.Left())
  {
    hide TakeU64;
    hide TakeU32;
    var base := ReadU64(d);
    var runID := ReadU32(d);
    var _ := ReadU32(d);
    h := (base, runID);
  }

  /** A presence bitmap and one record, which decodes by the rules of any other. */
  method DecodeHeld(s: Schema, payload: bytes) returns (r: Option<Held>)
    ensures r == DecodeHold(s, payload)
  {
    HoldParts(s, payload);
    hide DecodeHold;
    hide HoldHead;
    hide HoldBody;
    var d := new Dec(payload);
    var h := ReadHoldHead(d);
    if d.err { return None; }
    r := ReadHoldBody(d, s, h.0, h.1);
  }

  method ReadHoldBody(d: Dec, s: Schema, base: u64, runID: u32) returns (r: Option<Held>)
    requires d.Valid() && !d.err
    modifies d
    ensures r == HoldBody(s, base, runID, old(d.Ahead()))
  {
    hide TailsOf;
    hide PresentOf;
    hide Schema.RecordBytes;
    var n := (|s.fields| + 7) / 8;
    assert |s.fields| <= 8 * n;
    var bits := d.Raw(n);
    if d.err { return None; }
    var present := Presence(bits, |s.fields|);
    var rec := d.Rest();
    if |rec| < s.RecordBytes() { return None; }
    var tails := ParseTails(s, 1, rec);
    if tails == None { return None; }
    r := Some(Held(s, base, runID, present, rec, tails.value));
  }

  method DecodeRun(payload: bytes) returns (r: Option<Run>)
    ensures r == match TakeRun(payload) case Bad => None case Good(x, _) => Some(x)
  {
    hide TakeU32;
    hide TakeKv;
    var d := new Dec(payload);
    var id := ReadU32(d);
    var index := ReadU32(d);
    var params := d.Kv();
    r := if d.err then None else Some(Run(id, index, params));
  }

  method DecodeMeta(payload: bytes) returns (r: Option<Meta>)
    ensures r == match TakeMeta(payload) case Bad => None case Good(x, _) => Some(x)
  {
    hide TakeStr;
    var d := new Dec(payload);
    var k := d.Str();
    var v := d.Str();
    r := if d.err then None else Some(Meta(k, v));
  }

  method DecodeAttach(payload: bytes) returns (r: Option<Meta>)
    ensures r == match TakeAttach(payload) case Bad => None case Good(x, _) => Some(x)
  {
    hide TakeStr;
    hide TakeU32;
    hide TakeRaw;
    var d := new Dec(payload);
    var name := d.Str();
    var n := ReadU32(d);
    var data := d.Raw(n);
    r := if d.err then None else Some(Meta(name, data));
  }

  // --- frame by frame ---------------------------------------------------------------------------------

  lemma WholeStep(s: bytes)
    ensures match ReadFrame(s)
      case Got(f, rest) =>
        WholeFrames(s) == [f] + WholeFrames(rest) && WholeFrames(s)[1..] == WholeFrames(rest) && Leftover(s) == Leftover(rest)
      case _ => WholeFrames(s) == [] && Leftover(s) == s
    ensures ReadFrame(s) == Eof <==> s == []
  {
    if ReadFrame(s).Got? { assert ([ReadFrame(s).frame] + WholeFrames(ReadFrame(s).rest))[1..] == WholeFrames(ReadFrame(s).rest); }
  }

  /** What one frame does to a scan. */
  lemma ScanStep(z: Zip, rs: RState, s: bytes, at: nat)
    ensures Scan(z, rs, s, at) ==
      match ReadFrame(s)
      case Eof => Scanned([], rs, false)
      case Damage => Scanned([], rs, true)
      case Got(f, rest) =>
        match Apply(z, rs, f)
        case Stop => Scanned([Event(at, f, Nothing)], rs, true)
        case Go(rs', out) =>
          var q := Scan(z, rs', rest, at + f.Size());
          q.(events := [Event(at, f, out)] + q.events)
  {
    hide Apply;
    WholeStep(s);
    hide ReadFrame;
    hide WholeFrames;
    hide Leftover;
  }

  /** `src` is what is left of the stream. `heard` is the calls the hooks got, one
      for each frame. */
  class Reader {
    const z: Zip
    const table: seq<nat>
    var src: bytes
    var off: nat
    var streams: map<u16, Schema>
    var runs: map<u32, Run>
    var meta: seq<Meta>
    var attachments: map<bytes, bytes>
    var closed: bool
    var truncated: bool
    var unsupported: seq<bytes>
    var seqNo: nat
    var watch: bool
    var heard: seq<Event>

    function View(): RState
      reads this
    {
      RState(streams, runs, meta, attachments, closed, unsupported, seqNo, watch)
    }

    ghost predicate Valid()
      reads this
    {
      Crc.IsTable(table)
    }

    /** A reader of what follows the file header. */
    constructor (zip: Zip, body: bytes, at: nat, hold: bool)
      ensures Valid() && View() == FRESH.(watch := hold) && src == body && off == at && z == zip
      ensures heard == [] && !truncated
    {
      z := zip;
      var t := Crc.CrcTable();
      table := t;
      src, off := body, at;
      streams, runs, meta, attachments := map[], map[], [], map[];
      closed, truncated, unsupported, seqNo := false, false, [], 0;
      watch, heard := hold, [];
    }

    /** As many bytes as asked for, or as many as there are. */
    method ReadFull(n: nat) returns (b: bytes)
      modifies this`src
      ensures var k := if n <= |old(src)| then n else |old(src)|;
        b == old(src)[..k] && src == old(src)[k..]
    {
      var k := if n <= |src| then n else |src|;
      b := src[..k];
      src := src[k..];
    }

    /** The next frame, its checksum verified. */
    method NextFrame() returns (r: FrameRead)
      requires Valid()
      modifies this`src, this`off
      ensures Valid()
      ensures match ReadFrame(old(src))
        case Got(f, rest) => r == Got(f, rest) && src == rest && off == old(off) + f.Size()
        case x => r == x && off == old(off)
    {
      hide Crc.IsTable;
      hide LE;
      hide FromLE;
      hide Crc.Crc32c;
      FrameInParts(src);
      hide ReadFrame;
      var hdr := ReadFull(8);
      if |hdr| < 8 {
        if |hdr| == 0 { return Eof; }
        return Damage;
      }
      var len := FromLE(hdr[..4]);
      var payload := ReadFull(len);
      if |payload| < len { return Damage; }
      var crc := ReadFull(4);
      if |crc| < 4 { return Damage; }
      var want := FromLE(crc);
      ZeroFits();
      Crc.CrcBound(hdr, 0);
      var got := Crc.Checksum(hdr, 0, table);
      got := Crc.Checksum(payload, got, table);
      if want != got { return Damage; }
      FromLEBound(hdr[6..8]);
      WidthBounds();
      var f := Frame(hdr[4], hdr[5], FromLE(hdr[6..8]), payload);
      off := off + f.Size();
      return Got(f, src);
    }

    method OnSync(payload: bytes)
      modifies this`streams, this`runs, this`seqNo
      ensures View() == Reading.OnSync(old(View()), payload)
    {
      hide TakeInt;
      streams, runs := map[], map[];
      var d := new Dec(payload);
      var _ := d.Raw(16);
      var n := d.Int(8);
      seqNo := n;
    }

    method OnSchema(id: u16, payload: bytes) returns (r: Applied)
      modifies this`streams, this`unsupported
      ensures r == Reading.OnSchema(old(View()), id, payload)
      ensures r.Stop? ==> View() == old(View())
      ensures r.Go? ==> View() == r.rs
    {
      hide TakeSchema;
      var s := DecodeSchema(payload);
      if s == None { return Stop; }
      if !s.value.KnownMode() {
        unsupported := unsupported + [s.value.name];
        streams := streams - {id};
        return Go(View(), Nothing);
      }
      streams := streams[id := s.value];
      r := Go(View(), Bound(s.value, id));
    }

    method OnRun(payload: bytes)
      modifies this`runs
      ensures View() == Reading.OnRun(old(View()), payload)
    {
      hide TakeRun;
      var r := DecodeRun(payload);
      if r.Some? { runs := runs[r.value.id := r.value]; }
    }

    method OnMeta(payload: bytes)
      modifies this`meta
      ensures View() == Reading.OnMeta(old(View()), payload)
    {
      hide TakeMeta;
      var m := DecodeMeta(payload);
      if m.Some? { meta := meta + [m.value]; }
    }

    method OnAttach(payload: bytes)
      modifies this`attachments
      ensures View() == Reading.OnAttach(old(View()), payload)
    {
      hide TakeAttach;
      var m := DecodeAttach(payload);
      if m.Some? { attachments := attachments[m.value.key := m.value.value]; }
    }

    method OnData(id: u16, payload: bytes) returns (r: Applied)
      modifies this`unsupported
      ensures r == Reading.OnData(z, old(View()), id, payload)
      ensures r.Stop? ==> View() == old(View())
      ensures r.Go? ==> View() == r.rs
    {
      hide DecodeData;
      var out := Nothing;
      if id in streams {
        var b := DecodeBatch(z, streams[id], payload);
        if b.Torn? { return Stop; }
        if b.Unsupported? {
          unsupported := unsupported + [streams[id].name];
        } else {
          out := Reading.Records(b.batch, if b.batch.runID in runs then Some(runs[b.batch.runID]) else None);
        }
      }
      r := Go(View(), out);
    }

    method OnHold(id: u16, payload: bytes) returns (r: Applied)
      ensures r == Reading.OnHold(View(), id, payload)
      ensures r.Go? ==> View() == r.rs
    {
      hide DecodeHold;
      var out := Nothing;
      if id in streams && watch {
        var h := DecodeHeld(streams[id], payload);
        if h == None { return Stop; }
        out := HeldValues(h.value);
      }
      r := Go(View(), out);
    }

    /** Interprets one frame. */
    method Interpret(f: Frame) returns (r: Applied)
      modifies this`streams, this`runs, this`meta, this`attachments, this`closed, this`unsupported, this`seqNo
      ensures r == Apply(z, old(View()), f)
      ensures r.Stop? ==> View() == old(View())
      ensures r.Go? ==> View() == r.rs
    {
      hide Reading.OnSync;
      hide Reading.OnSchema;
      hide Reading.OnRun;
      hide Reading.OnMeta;
      hide Reading.OnAttach;
      hide Reading.OnData;
      hide Reading.OnHold;
      if f.typ == FRAME_SYNC {
        OnSync(f.payload);
      } else if f.typ == FRAME_SCHEMA {
        r := OnSchema(f.id, f.payload);
        return;
      } else if f.typ == FRAME_RUN {
        OnRun(f.payload);
      } else if f.typ == FRAME_META {
        OnMeta(f.payload);
      } else if f.typ == FRAME_ATTACH {
        OnAttach(f.payload);
      } else if f.typ == FRAME_DATA {
        r := OnData(f.id, f.payload);
        return;
      } else if f.typ == FRAME_HOLD {
        r := OnHold(f.id, f.payload);
        return;
      } else if f.typ == FRAME_END {
        closed := true;
      }
      r := Go(View(), Nothing);
    }

    /** One frame; nothing when there is no more to be had, whether the stream ended
        or was found damaged. */
    method Advance() returns (e: Option<Event>)
      requires Valid()
      modifies this
      ensures Valid() && watch == old(watch)
      ensures var was := Scan(z, old(View()), old(src), old(off));
        match e
        case Some(x) =>
          heard == old(heard) + [x] && truncated == old(truncated) && |src| < |old(src)| &&
          var next := Scan(z, View(), src, off);
          was == next.(events := [x] + next.events)
        case None =>
          heard == old(heard) + was.events && was.rs == View() && BatchesOf(was.events) == [] &&
          truncated == (old(truncated) || was.truncated)
    {
      hide Crc.IsTable;
      hide Scan;
      hide Apply;
      hide ReadFrame;
      assert heard + [] == heard;
      ScanStep(z, View(), src, off);
      RestIsShorter(src);
      var at := off;
      var fr := NextFrame();
      if !fr.Got? {
        if fr == Damage { truncated := true; }
        return None;
      }
      var f := fr.frame;
      var r := Interpret(f);
      if r == Stop {
        heard := heard + [Event(at, f, Nothing)];
        truncated := true;
        return None;
      }
      heard := heard + [Event(at, f, r.out)];
      return Some(Event(at, f, r.out));
    }

    /** The next batch, or nothing at the end of what can be read. Everything else
        is applied on the way, and the hooks hear of every frame. */
    method Next() returns (b: Option<(Batch, Option<Run>)>)
      requires Valid()
      modifies this
      ensures Valid() && watch == old(watch) && old(heard) <= heard
      ensures b.Some? ==> |src| < |old(src)| && truncated == old(truncated)
      ensures var was := Scan(z, old(View()), old(src), old(off));
        var more := heard[|old(heard)|..];
        match b
        case Some(r) =>
          BatchesOf(more) == [r.0] && more[|more| - 1].out == Reading.Records(r.0, r.1) &&
          var next := Scan(z, View(), src, off);
          was == next.(events := more + next.events)
        case None =>
          BatchesOf(more) == [] && was == Scanned(more, View(), was.truncated) &&
          truncated == (old(truncated) || was.truncated)
    {
      ghost var was := Scan(z, View(), src, off);
      ghost var more: seq<Event> := [];
      assert heard[|heard|..] == [] && BatchesOf([]) == [];
      assert heard + more == heard && more + was.events == was.events;
      hide *;
      while true
        invariant Valid() && watch == old(watch) && truncated == old(truncated) && |src| <= |old(src)|
        invariant heard == old(heard) + more && BatchesOf(more) == []
        invariant was == Scan(z, View(), src, off).(events := more + Scan(z, View(), src, off).events)
        decreases |src|
      {
        ghost var rest := Scan(z, View(), src, off).events;
        var e := Advance();
        if e == None {
          BatchesAppend(more, rest);
          Assoc2(old(heard), more, rest);
          assert (old(heard) + (more + rest))[|old(heard)|..] == more + rest;
          return None;
        }
        Heard(old(heard), more, heard, e.value);
        Assoc2(more, [e.value], Scan(z, View(), src, off).events);
        more := more + [e.value];
        if e.value.out.Records? { return Some((e.value.out.batch, e.value.out.run)); }
      }
    }
  }

  lemma Assoc2<T>(a: seq<T>, b: seq<T>, c: seq<T>)
    ensures a + (b + c) == (a + b) + c
  {
  }

  lemma RestIsShorter(s: bytes)
    ensures ReadFrame(s).Got? ==> |ReadFrame(s).rest| < |s|
  {
    hide FromLE;
    hide Crc.Crc32c;
  }

  lemma Heard(was: seq<Event>, more: seq<Event>, now: seq<Event>, e: Event)
    requires now == was + more + [e] && BatchesOf(more) == []
    ensures now == was + (more + [e]) && now[|was|..] == more + [e]
    ensures BatchesOf(more + [e]) == if e.out.Records? then [e.out.batch] else []
  {
    BatchesAppend(more, [e]);
    assert [e][1..] == [];
  }

  lemma ZeroFits()
    ensures 0 < TWO32
  {
  }

  /** A frame as it comes off a stream: a header, as many bytes as it says, and a
      checksum. */
  lemma FrameInParts(s: bytes)
    ensures |s| == 0 ==> ReadFrame(s) == Eof
    ensures 0 < |s| < 8 ==> ReadFrame(s) == Damage
    ensures |s| >= 8 ==>
      var hdr, len := s[..8], FromLE(s[..8][..4]);
      var rest := s[8..];
      if |rest| < len || |rest[len..]| < 4 then ReadFrame(s) == Damage
      else
        var payload, crc := rest[..len], rest[len..][..4];
        FromLE(hdr[6..8]) < TWO16 &&
        if FromLE(crc) != Crc.Crc32c(payload, Crc.Crc32c(hdr)) then ReadFrame(s) == Damage
        else ReadFrame(s) == Got(Frame(hdr[4], hdr[5], FromLE(hdr[6..8]), payload), rest[len..][4..])
  {
    hide LE;
    hide FromLE;
    hide Crc.Crc32c;
    if |s| >= 8 {
      assert s[..8][..4] == s[..4] && s[..8][6..8] == s[6..8];
      var len := FromLE(s[..4]);
      FromLEBound(s[6..8]);
      WidthBounds();
      if |s| >= 12 + len { PartsAt(s, len); }
    }
  }

  lemma PartsAt(s: bytes, n: nat)
    requires |s| >= 12 + n
    ensures s[8..][..n] == s[8..8 + n] && s[8..][n..][..4] == s[8 + n..12 + n] && s[8..][n..][4..] == s[12 + n..]
  {
  }

  /** Validates the header: the magic, its own checksum, and the major version. */
  method Open(z: Zip, file: bytes, hold: bool) returns (r: Option<(nat, bytes)>)
    ensures r == if |file| < 16 || !HeaderOk(file[..16]) then None else Some((16, file[16..]))
  {
    hide Crc.Crc32c;
    hide FromLE;
    if |file| < 16 { return None; }
    var hdr := file[..16];
    if hdr[..8] != MAGIC { return None; }
    var t := Crc.CrcTable();
    ZeroFits();
    var sum := Crc.Checksum(hdr[..12], 0, t);
    if FromLE(hdr[12..]) != sum { return None; }
    var major := FromLE(hdr[8..10]);
    if major != 0 { return None; }
    return Some((16, file[16..]));
  }

  /** Reads a file to its end, batch by batch: the batches are those of the scan. */
  method ReadAll(z: Zip, file: bytes) returns (r: Option<(seq<Batch>, bool)>)
    ensures r == match ScanFile(z, file)
      case None => None
      case Some(s) => Some((BatchesOf(s.events), s.truncated))
  {
    hide HeaderOk;
    hide Scan;
    var at := Open(z, file, true);
    if at == None { return None; }
    var rd := new Reader(z, at.value.1, at.value.0, true);
    FreshReader();
    ghost var was := Scan(z, FRESH, file[16..], 16);
    ghost var seen: seq<Event> := [];
    var bs := [];
    hide BatchesOf;
    NoEvents();
    while true
      invariant rd.Valid() && fresh(rd) && rd.z == z && !rd.truncated && bs == BatchesOf(seen)
      invariant was == Scan(z, rd.View(), rd.src, rd.off).(events := seen + Scan(z, rd.View(), rd.src, rd.off).events)
      decreases |rd.src|
    {
      ghost var before := rd.heard;
      var b := rd.Next();
      ghost var more := rd.heard[|before|..];
      BatchesAppend(seen, more);
      if b == None {
        assert bs + [] == bs;
        return Some((bs, rd.truncated));
      }
      Assoc2(seen, more, Scan(z, rd.View(), rd.src, rd.off).events);
      seen := seen + more;
      bs := bs + [b.value.0];
    }
  }

  lemma FreshReader()
    ensures FRESH.(watch := true) == FRESH
  {
  }

  lemma NoEvents()
    ensures BatchesOf([]) == [] && forall e: seq<Event> :: [] + e == e
  {
  }
}
