/** The wire format: a fixed header, metadata and a payload, under a checksum, read from a stream that
    arrives in arbitrary chunks. */
module Frames {
  import opened Types
  import opened Packing

  const MAGIC: Bytes := [0x4F, 0x4F, 0x42, 0x31]
  const VERSION := 1
  const HEADER_SIZE := 28

  type Crc = Bytes -> Word32

  datatype Frame = Frame(frameType: nat, requestId: nat, metadata: Bytes, payload: Bytes, flags: nat, version: nat)

  datatype ProtocolError = BadMagic | UnsupportedVersion | FrameTooLarge | ChecksumMismatch

  /** What the header can hold: struct.pack raises an error for anything else. */
  predicate Encodable(f: Frame) {
    && Fits(f.version, 1) && Fits(f.frameType, 1) && Fits(f.flags, 2) && Fits(f.requestId, 8)
    && Fits(|f.metadata|, 4) && Fits(|f.payload|, 4)
  }

  /** The header up to the checksum. */
  function Head(f: Frame): (b: Bytes)
    ensures |b| == HEADER_SIZE - 4
  {
    MAGIC + Pack(f.version, 1) + Pack(f.frameType, 1) + Pack(f.flags, 2) + Pack(f.requestId, 8)
    + Pack(|f.metadata|, 4) + Pack(|f.payload|, 4)
  }

  function Encode(crc: Crc, f: Frame): (b: Option<Bytes>)
    ensures b.Some? <==> Encodable(f)
    ensures b.Some? ==> |b.value| == HEADER_SIZE + |f.metadata| + |f.payload|
  {
    if !Encodable(f) then None
    else Some(Head(f) + Pack(crc(Head(f) + f.metadata + f.payload), 4) + f.metadata + f.payload)
  }

  datatype Header = Header(frameType: nat, flags: nat, requestId: nat, metaLen: nat, payloadLen: nat, crc: nat, version: nat)

  datatype HeaderResult = GoodHeader(header: Header) | BadHeader(error: ProtocolError)

  function DecodeHeader(b: Bytes): HeaderResult
    requires |b| == HEADER_SIZE
  {
    if b[..4] != MAGIC then BadHeader(BadMagic)
    else if Unpack(b[4..5]) != VERSION then BadHeader(UnsupportedVersion)
    else
      GoodHeader(Header(Unpack(b[5..6]), Unpack(b[6..8]), Unpack(b[8..16]), Unpack(b[16..20]), Unpack(b[20..24]),
                        Unpack(b[24..28]), Unpack(b[4..5])))
  }

  /** What trying to take one frame off a buffer gives: nothing yet, a frame, or an error; an error found
      in the header leaves the buffer alone, a wrong checksum has consumed the frame. */
  datatype Parse = NeedMore | Got(frame: Frame, rest: Bytes) | Failed(error: ProtocolError, rest: Bytes)

  function ParseOne(crc: Crc, max: int, b: Bytes): (p: Parse)
    ensures p.Got? ==> |p.rest| < |b|
  {
    if |b| < HEADER_SIZE then NeedMore
    else
      match DecodeHeader(b[..HEADER_SIZE])
      case BadHeader(e) => Failed(e, b)
      case GoodHeader(h) =>
        var total := HEADER_SIZE + h.metaLen + h.payloadLen;
        if total > max then Failed(FrameTooLarge, b)
        else if |b| < total then NeedMore
        else
          var metadata := b[HEADER_SIZE..HEADER_SIZE + h.metaLen];
          var payload := b[HEADER_SIZE + h.metaLen..total];
          if crc(b[..24] + metadata + payload) != h.crc then Failed(ChecksumMismatch, b[total..])
          else Got(Frame(h.frameType, h.requestId, metadata, payload, h.flags, h.version), b[total..])
  }

  /** The frames of a whole stream, what is left of it, and the error that ended it, if any. */
  datatype Stream = Stream(frames: seq<Frame>, rest: Bytes, error: Option<ProtocolError>)

  function ParseAll(crc: Crc, max: int, b: Bytes): Stream
    decreases |b|
  {
    match ParseOne(crc, max, b)
    case NeedMore => Stream([], b, None)
    case Failed(e, rest) => Stream([], rest, Some(e))
    case Got(f, rest) =>
      var s := ParseAll(crc, max, rest);
      Stream([f] + s.frames, s.rest, s.error)
  }

  lemma AllNext(crc: Crc, max: int, b: Bytes)
    ensures
      var p, s := ParseOne(crc, max, b), ParseAll(crc, max, b);
      && (p.NeedMore? ==> s == Stream([], b, None))
      && (p.Failed? ==> s == Stream([], p.rest, Some(p.error)))
      && (p.Got? ==>
            s == ParseAll(crc, max, p.rest).(frames := [p.frame] + ParseAll(crc, max, p.rest).frames))
  {
    hide ParseOne;
  }

  // ----- the reader -----

  /** What one call of feed gives: the frames that became complete, or an error that is raised; frames that
      were parsed in the failing call are lost with it. */
  datatype Fed = Frames(frames: seq<Frame>) | Raised(error: ProtocolError)

  /** The reader's fields. */
  datatype ReaderState = ReaderState(buf: Bytes, closedError: Option<ProtocolError>)

  function Feed(crc: Crc, max: int, s: ReaderState, data: Bytes): (ReaderState, Fed) {
    if s.closedError.Some? then (s, Raised(s.closedError.value))
    else
      var r := ParseAll(crc, max, s.buf + data);
      (ReaderState(r.rest, r.error), if r.error.Some? then Raised(r.error.value) else Frames(r.frames))
  }

  class FrameReader {
    const crc: Crc
    const maxFrameSize: int
    var buf: Bytes
    var closedError: Option<ProtocolError>

    function State(): ReaderState
      reads this
    {
      ReaderState(buf, closedError)
    }

    constructor (crc: Crc, maxFrameSize: int)
      ensures this.crc == crc && this.maxFrameSize == maxFrameSize
      ensures State() == ReaderState([], None)
    {
      this.crc, this.maxFrameSize := crc, maxFrameSize;
      buf, closedError := [], None;
    }

    /** feed. */
    method Take(data: Bytes) returns (fed: Fed)
      modifies this
      ensures State() == Feed(crc, maxFrameSize, old(State()), data).0
      ensures fed == Feed(crc, maxFrameSize, old(State()), data).1
    {
      hide ParseOne, ParseAll;
      if closedError.Some? {
        return Raised(closedError.value);
      }
      buf := buf + data;
      ghost var all := ParseAll(crc, maxFrameSize, buf);
      var frames := [];
      while true
        invariant closedError == None
        invariant
          var s := ParseAll(crc, maxFrameSize, buf);
          all.frames == frames + s.frames && all.rest == s.rest && all.error == s.error
        decreases |buf|
      {
        AllNext(crc, maxFrameSize, buf);
        var p := TryOne();
        match p {
          case NeedMore => return Frames(frames);
          case Failed(e, _) => return Raised(e);
          case Got(f, _) => frames := frames + [f];
        }
      }
    }

    /** _try_one. */
    method TryOne() returns (p: Parse)
      requires closedError == None
      modifies this
      ensures p == ParseOne(crc, maxFrameSize, old(buf))
      ensures buf == if p.NeedMore? then old(buf) else p.rest
      ensures closedError == if p.Failed? then Some(p.error) else None
    {
      if |buf| < HEADER_SIZE {
        return NeedMore;
      }
      var decoded := DecodeHeader(buf[..HEADER_SIZE]);
      if decoded.BadHeader? {
        closedError := Some(decoded.error);
        return Failed(decoded.error, buf);
      }
      var h := decoded.header;
      var total := HEADER_SIZE + h.metaLen + h.payloadLen;
      if total > maxFrameSize {
        closedError := Some(FrameTooLarge);
        return Failed(FrameTooLarge, buf);
      }
      if |buf| < total {
        return NeedMore;
      }
      var raw := buf[..total];
      buf := buf[total..];
      var metadata := raw[HEADER_SIZE..HEADER_SIZE + h.metaLen];
      var payload := raw[HEADER_SIZE + h.metaLen..total];
      assert raw[..24] == old(buf)[..24];
      assert metadata == old(buf)[HEADER_SIZE..HEADER_SIZE + h.metaLen];
      assert payload == old(buf)[HEADER_SIZE + h.metaLen..total];
      if crc(raw[..24] + metadata + payload) != h.crc {
        closedError := Some(ChecksumMismatch);
        return Failed(ChecksumMismatch, buf);
      }
      return Got(Frame(h.frameType, h.requestId, metadata, payload, h.flags, h.version), buf);
    }
  }

  // ----- encoding and decoding -----

  lemma HeadEnds(f: Frame, c: Bytes)
    requires Encodable(f) && |c| == 4
    ensures |Head(f)| == 24 && (Head(f) + c)[..4] == MAGIC && (Head(f) + c)[24..28] == c
  {
    hide Pack, Fits;
  }

  lemma HeadSmall(f: Frame, c: Bytes)
    requires Encodable(f) && |c| == 4
    ensures
      var b := Head(f) + c;
      Unpack(b[4..5]) == f.version && Unpack(b[5..6]) == f.frameType && Unpack(b[6..8]) == f.flags
  {
    hide Pack, Unpack, Fits;
    var b := Head(f) + c;
    var rest := Pack(f.requestId, 8) + Pack(|f.metadata|, 4) + Pack(|f.payload|, 4) + c;
    var v, t, g := Pack(f.version, 1), Pack(f.frameType, 1), Pack(f.flags, 2);
    FieldAt(b, MAGIC, f.version, 1, t + g + rest);
    FieldAt(b, MAGIC + v, f.frameType, 1, g + rest);
    FieldAt(b, MAGIC + v + t, f.flags, 2, rest);
  }

  lemma HeadLarge(f: Frame, c: Bytes)
    requires Encodable(f) && |c| == 4
    ensures
      var b := Head(f) + c;
      Unpack(b[8..16]) == f.requestId && Unpack(b[16..20]) == |f.metadata| && Unpack(b[20..24]) == |f.payload|
  {
    hide Pack, Unpack, Fits;
    var b := Head(f) + c;
    var first := MAGIC + Pack(f.version, 1) + Pack(f.frameType, 1) + Pack(f.flags, 2);
    var q, m, p := Pack(f.requestId, 8), Pack(|f.metadata|, 4), Pack(|f.payload|, 4);
    FieldAt(b, first, f.requestId, 8, m + p + c);
    FieldAt(b, first + q, |f.metadata|, 4, p + c);
    FieldAt(b, first + q + m, |f.payload|, 4, c);
  }

  lemma HeaderFields(f: Frame, w: Word32)
    requires Encodable(f)
    ensures
      var b := Head(f) + Pack(w, 4);
      DecodeHeader(b) ==
      if f.version != VERSION then BadHeader(UnsupportedVersion)
      else GoodHeader(Header(f.frameType, f.flags, f.requestId, |f.metadata|, |f.payload|, w, f.version))
  {
    hide Pack, Unpack, Fits, Head;
    CrcFits(w);
    HeadEnds(f, Pack(w, 4));
    HeadSmall(f, Pack(w, 4));
    HeadLarge(f, Pack(w, 4));
    PackRoundTrip(w, 4);
  }

  /** A frame that is sent is read back as it was, exactly when its version is the reader's and its size is
      within the reader's limit. */
  lemma ParseEncoded(crc: Crc, max: int, f: Frame, rest: Bytes)
    requires Encodable(f)
    ensures ParseOne(crc, max, Encode(crc, f).value + rest) == Got(f, rest) <==>
            f.version == VERSION && HEADER_SIZE + |f.metadata| + |f.payload| <= max
  {
    hide Pack, Unpack, Fits, Head, DecodeHeader;
    var w := crc(Head(f) + f.metadata + f.payload);
    var b := Encode(crc, f).value + rest;
    HeaderFields(f, w);
    assert b[..HEADER_SIZE] == Head(f) + Pack(w, 4);
    assert b[..24] == Head(f);
    assert b[HEADER_SIZE..HEADER_SIZE + |f.metadata|] == f.metadata;
    var total := HEADER_SIZE + |f.metadata| + |f.payload|;
    assert b[HEADER_SIZE + |f.metadata|..total] == f.payload;
    assert b[total..] == rest;
  }

  predicate Sendable(max: int, f: Frame) {
    Encodable(f) && f.version == VERSION && HEADER_SIZE + |f.metadata| + |f.payload| <= max
  }

  function EncodeAll(crc: Crc, max: int, frames: seq<Frame>): Bytes
    requires forall f :: f in frames ==> Sendable(max, f)
    decreases |frames|
  {
    if frames == [] then []
    else
      assert Sendable(max, frames[0]);
      Encode(crc, frames[0]).value + EncodeAll(crc, max, frames[1..])
  }

  lemma {:induction false} ParseEncodedAll(crc: Crc, max: int, frames: seq<Frame>)
    requires forall f :: f in frames ==> Sendable(max, f)
    ensures ParseAll(crc, max, EncodeAll(crc, max, frames)) == Stream(frames, [], None)
    decreases |frames|
  {
    hide Encode, ParseOne, Encodable;
    if frames == [] {
      ParseNothing(crc, max);
    } else {
      assert frames[0] in frames;
      ParseEncoded(crc, max, frames[0], EncodeAll(crc, max, frames[1..]));
      ParseEncodedAll(crc, max, frames[1..]);
      assert frames == [frames[0]] + frames[1..];
    }
  }

  lemma ParseNothing(crc: Crc, max: int)
    ensures ParseOne(crc, max, []) == NeedMore
  {
  }

  // ----- more bytes -----

  /** A decision, once made, does not depend on the bytes that follow. */
  lemma ParseOneMore(crc: Crc, max: int, b: Bytes, more: Bytes)
    ensures
      var p := ParseOne(crc, max, b);
      ParseOne(crc, max, b + more) ==
      match p
      case NeedMore => ParseOne(crc, max, b + more)
      case Got(f, rest) => Got(f, rest + more)
      case Failed(e, rest) => Failed(e, rest + more)
  {
    hide DecodeHeader;
    if |b| >= HEADER_SIZE {
      assert (b + more)[..HEADER_SIZE] == b[..HEADER_SIZE];
      var d := DecodeHeader(b[..HEADER_SIZE]);
      if d.GoodHeader? {
        var h := d.header;
        var total := HEADER_SIZE + h.metaLen + h.payloadLen;
        if total <= max && |b| >= total {
          assert (b + more)[..24] == b[..24];
          assert (b + more)[HEADER_SIZE..HEADER_SIZE + h.metaLen] == b[HEADER_SIZE..HEADER_SIZE + h.metaLen];
          assert (b + more)[HEADER_SIZE + h.metaLen..total] == b[HEADER_SIZE + h.metaLen..total];
          assert (b + more)[total..] == b[total..] + more;
        }
      }
    }
  }

  /** A stream is parsed in two halves by parsing the second after what the first left over. */
  lemma {:induction false} ParseAllMore(crc: Crc, max: int, b: Bytes, more: Bytes)
    ensures
      var (s, whole) := (ParseAll(crc, max, b), ParseAll(crc, max, b + more));
      if s.error.Some? then whole.frames == s.frames && whole.error == s.error
      else
        var next := ParseAll(crc, max, s.rest + more);
        whole.frames == s.frames + next.frames && whole.rest == next.rest && whole.error == next.error
    decreases |b|
  {
    hide ParseOne;
    ParseOneMore(crc, max, b, more);
    var p := ParseOne(crc, max, b);
    if p.Got? {
      ParseAllMore(crc, max, p.rest, more);
    }
  }

  // ----- any chunking of any stream -----

  function Concat(chunks: seq<Bytes>): Bytes
    decreases |chunks|
  {
    if chunks == [] then [] else chunks[0] + Concat(chunks[1..])
  }

  function FeedAll(crc: Crc, max: int, s: ReaderState, chunks: seq<Bytes>): (ReaderState, seq<Fed>)
    decreases |chunks|
  {
    if chunks == [] then (s, [])
    else
      var (s1, fed) := Feed(crc, max, s, chunks[0]);
      var (s2, rest) := FeedAll(crc, max, s1, chunks[1..]);
      (s2, [fed] + rest)
  }

  /** The frames that the caller gets. */
  function Delivered(feds: seq<Fed>): seq<Frame>
    decreases |feds|
  {
    if feds == [] then [] else (if feds[0].Frames? then feds[0].frames else []) + Delivered(feds[1..])
  }

  lemma {:induction false} ClosedStays(crc: Crc, max: int, s: ReaderState, chunks: seq<Bytes>)
    requires s.closedError.Some?
    ensures
      var (s', feds) := FeedAll(crc, max, s, chunks);
      && s' == s && Delivered(feds) == [] && |feds| == |chunks|
      && forall fed :: fed in feds ==> fed == Raised(s.closedError.value)
    decreases |chunks|
  {
    if chunks != [] {
      ClosedStays(crc, max, s, chunks[1..]);
    }
  }

  /** Raised errors are all the same, and nothing but that error follows the first of them. */
  ghost predicate Sticky(feds: seq<Fed>, e: Option<ProtocolError>) {
    && (forall i :: 0 <= i < |feds| && feds[i].Raised? ==> e == Some(feds[i].error))
    && (forall i, j :: 0 <= i < j < |feds| && feds[i].Raised? ==> feds[j].Raised?)
  }

  /** Feeding chunks from an open reader, against parsing the whole stream at once. */
  ghost predicate Agrees(crc: Crc, max: int, s: ReaderState, chunks: seq<Bytes>) {
    var (s', feds) := FeedAll(crc, max, s, chunks);
    var whole := ParseAll(crc, max, s.buf + Concat(chunks));
    && s'.closedError == whole.error
    && (whole.error == None ==>
          s'.buf == whole.rest && Delivered(feds) == whole.frames && forall fed :: fed in feds ==> fed.Frames?)
    && Delivered(feds) <= whole.frames
    && Sticky(feds, whole.error)
  }

  /** What is left in the buffer after a parse waits for more bytes; parsing it again gives nothing. */
  lemma {:induction false} RestWaits(crc: Crc, max: int, b: Bytes)
    requires ParseAll(crc, max, b).error == None
    ensures ParseOne(crc, max, ParseAll(crc, max, b).rest) == NeedMore
    decreases |b|
  {
    hide ParseOne;
    var p := ParseOne(crc, max, b);
    if p.Got? {
      RestWaits(crc, max, p.rest);
    }
  }

  lemma WaitsParse(crc: Crc, max: int, b: Bytes)
    requires ParseOne(crc, max, b) == NeedMore
    ensures ParseAll(crc, max, b) == Stream([], b, None)
  {
    hide ParseOne;
  }

  lemma RaisedNext(fed: Fed, feds: seq<Fed>, e: Option<ProtocolError>)
    requires Sticky(feds, e)
    requires fed.Raised? ==> e == Some(fed.error) && forall f :: f in feds ==> f.Raised?
    ensures Sticky([fed] + feds, e)
  {
    var all := [fed] + feds;
    forall i | 0 <= i < |all| && all[i].Raised?
      ensures e == Some(all[i].error)
    {
      if i > 0 {
        assert all[i] == feds[i - 1];
      }
    }
    forall i, j | 0 <= i < j < |all| && all[i].Raised?
      ensures all[j].Raised?
    {
      assert all[j] == feds[j - 1];
      if i > 0 {
        assert all[i] == feds[i - 1];
      }
    }
  }

  lemma AllRaised(feds: seq<Fed>, e: ProtocolError)
    requires forall fed :: fed in feds ==> fed == Raised(e)
    ensures Sticky(feds, Some(e))
  {
    forall i | 0 <= i < |feds|
      ensures feds[i] == Raised(e)
    {
      assert feds[i] in feds;
    }
  }

  /** The first chunk ends the stream. */
  lemma AgreesLast(crc: Crc, max: int, s: ReaderState, chunks: seq<Bytes>)
    requires chunks != [] && s.closedError == None && ParseAll(crc, max, s.buf + chunks[0]).error.Some?
    ensures Agrees(crc, max, s, chunks)
  {
    hide ParseAll, Sticky;
    ParseAllMore(crc, max, s.buf + chunks[0], Concat(chunks[1..]));
    assert s.buf + Concat(chunks) == s.buf + chunks[0] + Concat(chunks[1..]);
    var (s1, fed) := Feed(crc, max, s, chunks[0]);
    var feds := FeedAll(crc, max, s1, chunks[1..]).1;
    ClosedStays(crc, max, s1, chunks[1..]);
    AllRaised(feds, s1.closedError.value);
    RaisedNext(fed, feds, s1.closedError);
    assert ([fed] + feds)[1..] == feds;
  }

  lemma AgreesNext(crc: Crc, max: int, s: ReaderState, chunks: seq<Bytes>)
    requires chunks != [] && s.closedError == None && ParseAll(crc, max, s.buf + chunks[0]).error == None
    requires Agrees(crc, max, Feed(crc, max, s, chunks[0]).0, chunks[1..])
    ensures Agrees(crc, max, s, chunks)
  {
    hide ParseAll, Sticky;
    ParseAllMore(crc, max, s.buf + chunks[0], Concat(chunks[1..]));
    assert s.buf + Concat(chunks) == s.buf + chunks[0] + Concat(chunks[1..]);
    var (s1, fed) := Feed(crc, max, s, chunks[0]);
    var feds := FeedAll(crc, max, s1, chunks[1..]).1;
    RaisedNext(fed, feds, ParseAll(crc, max, s1.buf + Concat(chunks[1..])).error);
    assert ([fed] + feds)[1..] == feds;
  }

  lemma {:induction false} FeedsAgree(crc: Crc, max: int, s: ReaderState, chunks: seq<Bytes>)
    requires s.closedError == None && ParseOne(crc, max, s.buf) == NeedMore
    ensures Agrees(crc, max, s, chunks)
    decreases |chunks|
  {
    hide ParseOne, ParseAll, Agrees;
    if chunks == [] {
      AgreesNone(crc, max, s);
    } else {
      var s1 := Feed(crc, max, s, chunks[0]).0;
      if s1.closedError == None {
        RestWaits(crc, max, s.buf + chunks[0]);
        FeedsAgree(crc, max, s1, chunks[1..]);
        AgreesNext(crc, max, s, chunks);
      } else {
        AgreesLast(crc, max, s, chunks);
      }
    }
  }

  lemma AgreesNone(crc: Crc, max: int, s: ReaderState)
    requires s.closedError == None && ParseOne(crc, max, s.buf) == NeedMore
    ensures Agrees(crc, max, s, [])
  {
    hide ParseOne;
    WaitsParse(crc, max, s.buf);
    assert s.buf + Concat([]) == s.buf;
  }

  /** Framing does not depend on chunking. However the stream is cut: without an error the calls return
      together exactly the frames of the whole stream, and keep the same rest; with an error the frames
      returned before it are a prefix of the stream's, and every call from then on raises that error. */
  lemma ChunkingIndependent(crc: Crc, max: int, chunks: seq<Bytes>)
    ensures Agrees(crc, max, ReaderState([], None), chunks)
    ensures ReaderState([], None).buf + Concat(chunks) == Concat(chunks)
  {
    hide ParseOne, ParseAll, Agrees;
    ParseNothing(crc, max);
    FeedsAgree(crc, max, ReaderState([], None), chunks);
  }

  /** Frames within the limit, encoded, joined and cut anywhere, are exactly the frames that arrive, and
      nothing is left over. */
  lemma FramesArrive(crc: Crc, max: int, frames: seq<Frame>, chunks: seq<Bytes>)
    requires (forall f :: f in frames ==> Sendable(max, f)) && Concat(chunks) == EncodeAll(crc, max, frames)
    ensures
      var (s, feds) := FeedAll(crc, max, ReaderState([], None), chunks);
      Delivered(feds) == frames && s == ReaderState([], None) && forall fed :: fed in feds ==> fed.Frames?
  {
    hide ParseAll, FeedAll, EncodeAll, Concat, Sendable, Delivered;
    ChunkingIndependent(crc, max, chunks);
    ParseEncodedAll(crc, max, frames);
  }

  /** After a call that returns normally less than one frame of the largest size is buffered. */
  lemma LeftoverBounded(crc: Crc, max: int, s: ReaderState, data: Bytes)
    requires Feed(crc, max, s, data).1.Frames?
    ensures |Feed(crc, max, s, data).0.buf| < (if max > HEADER_SIZE then max else HEADER_SIZE)
  {
    hide ParseAll, ParseOne;
    RestWaits(crc, max, s.buf + data);
    WaitingIsShort(crc, max, ParseAll(crc, max, s.buf + data).rest);
  }

  lemma WaitingIsShort(crc: Crc, max: int, b: Bytes)
    requires ParseOne(crc, max, b) == NeedMore
    ensures |b| < (if max > HEADER_SIZE then max else HEADER_SIZE)
  {
    hide DecodeHeader;
  }

  // ----- the format -----

  /** Where each field of a frame is: the magic number "OOB1", the version, the type, the flags, the request, two
      lengths and the checksum of all that and of what follows it, the metadata and the payload. */
  lemma Layout(crc: Crc, f: Frame)
    requires Encodable(f)
    ensures
      var b := Encode(crc, f).value;
      var n := |f.metadata|;
      && |b| == 28 + n + |f.payload|
      && b[..4] == [0x4F, 0x4F, 0x42, 0x31] && b[4] == f.version && b[5] == f.frameType
      && b[6..8] == Pack(f.flags, 2) && b[8..16] == Pack(f.requestId, 8)
      && b[16..20] == Pack(n, 4) && b[20..24] == Pack(|f.payload|, 4)
      && b[24..28] == Pack(crc(b[..24] + b[28..]), 4)
      && b[28..28 + n] == f.metadata && b[28 + n..] == f.payload
  {
    OneByte(f.version);
    OneByte(f.frameType);
    hide Pack, Fits;
    var b := Encode(crc, f).value;
    assert b[..24] == Head(f) && b[28..] == f.metadata + f.payload;
    assert Head(f) + (f.metadata + f.payload) == Head(f) + f.metadata + f.payload;
  }

  lemma OneByte(n: nat)
    requires Fits(n, 1)
    ensures Pack(n, 1) == [n]
  {
    Spans();
  }

  lemma Covered(b: Bytes, n: nat, total: nat)
    requires 28 + n <= total <= |b|
    ensures b[..24] + b[28..28 + n] + b[28 + n..total] == b[..24] + b[28..total]
  {
  }

  /** A header whose fields are unpacked and packed again is the same. */
  lemma HeaderAgain(b: Bytes, f: Frame)
    requires |b| >= 28 && b[..4] == MAGIC && Unpack(b[4..5]) == VERSION == f.version
    requires f.frameType == Unpack(b[5..6]) && f.flags == Unpack(b[6..8]) && f.requestId == Unpack(b[8..16])
    requires |f.metadata| == Unpack(b[16..20]) && |f.payload| == Unpack(b[20..24])
    ensures Encodable(f) && Head(f) == b[..24]
  {
    hide Pack, Unpack, Fits;
    UnpackRoundTrip(b[4..5]);
    UnpackRoundTrip(b[5..6]);
    UnpackRoundTrip(b[6..8]);
    UnpackRoundTrip(b[8..16]);
    UnpackRoundTrip(b[16..20]);
    UnpackRoundTrip(b[20..24]);
    assert b[..4] + b[4..5] + b[5..6] + b[6..8] + b[8..16] + b[16..20] + b[20..24] == b[..24];
  }

  /** Nothing is read as a frame but what Encode writes: the bytes taken off the buffer are the encoding of the frame,
      with this version and within the limit. */
  lemma ReadIsEncoded(crc: Crc, max: int, b: Bytes, f: Frame, rest: Bytes)
    requires ParseOne(crc, max, b) == Got(f, rest)
    ensures Encodable(f) && f.version == VERSION && HEADER_SIZE + |f.metadata| + |f.payload| <= max
    ensures b == Encode(crc, f).value + rest
  {
    hide Pack, Unpack, Fits, Head;
    var x := b[..28];
    var h := DecodeHeader(x).header;
    var total := 28 + h.metaLen + h.payloadLen;
    HeaderAgain(x, f);
    UnpackRoundTrip(x[24..28]);
    assert x[..24] == b[..24] && x == x[..24] + x[24..28];
    assert b == x + b[28..28 + h.metaLen] + b[28 + h.metaLen..total] + b[total..];
  }

  /** A frame whose metadata or payload was altered closes the stream, unless the alteration leaves its checksum as
      it was. */
  lemma AlteredRefused(crc: Crc, max: int, b: Bytes, f: Frame)
    requires Encodable(f) && f.version == 1
    requires |b| == |Encode(crc, f).value| <= max && b[..28] == Encode(crc, f).value[..28]
    requires crc(b[..24] + b[28..]) != crc(Encode(crc, f).value[..24] + Encode(crc, f).value[28..])
    ensures ParseOne(crc, max, b) == Failed(ChecksumMismatch, [])
  {
    hide Pack, Unpack, Fits, Encode, Head;
    var x := Encode(crc, f).value;
    var n := |f.metadata|;
    Layout(crc, f);
    forall i, j | 0 <= i <= j <= 28
      ensures b[..28][i..j] == x[i..j]
    {
      assert x[..28][i..j] == x[i..j];
    }
    Lengths(f);
    PackRoundTrip(n, 4);
    PackRoundTrip(|f.payload|, 4);
    CrcFits(crc(x[..24] + x[28..]));
    PackRoundTrip(crc(x[..24] + x[28..]), 4);
    OneByte(1);
    PackRoundTrip(1, 1);
    assert x[4..5] == [x[4]];
    Covered(b, n, |b|);
    assert b[28..|b|] == b[28..] && b[..24] == b[..28][..24];
  }

  lemma Lengths(f: Frame)
    requires Encodable(f)
    ensures Fits(|f.metadata|, 4) && Fits(|f.payload|, 4) && Fits(1, 1)
  {
    Spans();
  }
}
