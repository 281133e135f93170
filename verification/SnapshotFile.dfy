/** The snapshot file: the state as JSON with every payload moved out into one length-prefixed blob. */
module SnapshotFile {
  import opened Types
  import opened Packing
  import opened Snapshot

  const MAGIC: Bytes := [0x4F, 0x53, 0x4E, 0x50]
  const VERSION := 1
  const HEADER_SIZE := 33
  const TIME_SIZE := 8

  /** What is saved: the engine's state, and the router's, which holds no payloads. */
  datatype Dump<R> = Dump(engine: Saved, routing: R)

  /** A message whose payload has been replaced by its index in the blob. */
  datatype Stripped = Stripped(saved: SavedMessage, index: nat)

  datatype StrippedQueue = StrippedQueue(shell: SavedQueue, messages: seq<Stripped>)

  datatype Meta<R> = Meta(aofSeq: nat, queues: seq<StrippedQueue>, lastOrd: nat, routing: R)

  datatype Codec<!R> = Codec(crc: Bytes -> Word32, enc: Meta<R> -> Bytes, dec: Bytes -> Option<Meta<R>>)

  ghost predicate JsonOk<R(!new)>(c: Codec<R>) {
    forall m :: c.dec(c.enc(m)) == Some(m)
  }

  // ----- moving payloads out and back -----

  function WithPayload(sm: SavedMessage, payload: Bytes): SavedMessage {
    sm.(message := sm.message.(payload := payload))
  }

  function StripMessages(list: seq<SavedMessage>, index: nat): (out: seq<Stripped>)
    ensures |out| == |list|
    decreases |list|
  {
    if list == [] then [] else [Stripped(WithPayload(list[0], []), index)] + StripMessages(list[1..], index + 1)
  }

  function PayloadsOf(list: seq<SavedMessage>): (ps: seq<Bytes>)
    ensures |ps| == |list|
    decreases |list|
  {
    if list == [] then [] else [list[0].message.payload] + PayloadsOf(list[1..])
  }

  function StripQueues(queues: seq<SavedQueue>, index: nat): seq<StrippedQueue>
    decreases |queues|
  {
    if queues == [] then []
    else
      [StrippedQueue(queues[0].(messages := []), StripMessages(queues[0].messages, index))]
      + StripQueues(queues[1..], index + |queues[0].messages|)
  }

  function AllPayloads(queues: seq<SavedQueue>): seq<Bytes>
    decreases |queues|
  {
    if queues == [] then [] else PayloadsOf(queues[0].messages) + AllPayloads(queues[1..])
  }

  function AttachMessage(m: Stripped, ps: seq<Bytes>): SavedMessage {
    if m.index < |ps| then WithPayload(m.saved, ps[m.index]) else m.saved
  }

  function AttachMessages(list: seq<Stripped>, ps: seq<Bytes>): seq<SavedMessage>
    decreases |list|
  {
    if list == [] then [] else [AttachMessage(list[0], ps)] + AttachMessages(list[1..], ps)
  }

  function AttachQueues(queues: seq<StrippedQueue>, ps: seq<Bytes>): seq<SavedQueue>
    decreases |queues|
  {
    if queues == [] then []
    else [queues[0].shell.(messages := AttachMessages(queues[0].messages, ps))] + AttachQueues(queues[1..], ps)
  }

  lemma {:induction false} AttachStripMessages(list: seq<SavedMessage>, before: seq<Bytes>, after: seq<Bytes>)
    ensures AttachMessages(StripMessages(list, |before|), before + PayloadsOf(list) + after) == list
    decreases |list|
  {
    hide AttachMessage, PayloadsOf;
    if list != [] {
      var p := list[0].message.payload;
      var ps := before + PayloadsOf(list) + after;
      PayloadsNext(list);
      OneMoved(before, p, PayloadsOf(list[1..]), after);
      AttachStripMessages(list[1..], before + [p], after);
      AttachOne(list[0], |before|, ps);
      assert list == [list[0]] + list[1..];
    }
  }

  lemma PayloadsNext(list: seq<SavedMessage>)
    requires list != []
    ensures PayloadsOf(list) == [list[0].message.payload] + PayloadsOf(list[1..])
  {
  }

  lemma OneMoved(before: seq<Bytes>, p: Bytes, rest: seq<Bytes>, after: seq<Bytes>)
    ensures before + ([p] + rest) + after == before + [p] + rest + after
    ensures |before| < |before + ([p] + rest) + after| && (before + ([p] + rest) + after)[|before|] == p
  {
  }

  lemma AttachOne(sm: SavedMessage, index: nat, ps: seq<Bytes>)
    requires index < |ps| && ps[index] == sm.message.payload
    ensures AttachMessage(StripMessages([sm], index)[0], ps) == sm
  {
  }

  /** Every message gets its own payload back, for any nesting of queues and messages. */
  lemma {:induction false} AttachStripQueues(queues: seq<SavedQueue>, before: seq<Bytes>, after: seq<Bytes>)
    ensures AttachQueues(StripQueues(queues, |before|), before + AllPayloads(queues) + after) == queues
    decreases |queues|
  {
    hide AttachMessages, StripMessages, PayloadsOf;
    if queues != [] {
      var own := PayloadsOf(queues[0].messages);
      var ps := before + AllPayloads(queues) + after;
      AttachStripMessages(queues[0].messages, before, AllPayloads(queues[1..]) + after);
      assert before + own + (AllPayloads(queues[1..]) + after) == ps;
      AttachStripQueues(queues[1..], before + own, after);
      assert before + own + AllPayloads(queues[1..]) + after == ps;
      assert queues == [queues[0]] + queues[1..];
    }
  }

  lemma StripNext(queues: seq<SavedQueue>, from: nat)
    ensures AllPayloads(queues) == if queues == [] then [] else PayloadsOf(queues[0].messages) + AllPayloads(queues[1..])
    ensures StripQueues(queues, from) ==
            if queues == [] then []
            else [StrippedQueue(queues[0].(messages := []), StripMessages(queues[0].messages, from))]
                 + StripQueues(queues[1..], from + |PayloadsOf(queues[0].messages)|)
  {
    hide StripMessages, PayloadsOf;
  }

  /** The loops of write_snapshot that take payloads out. */
  method Extract(queues: seq<SavedQueue>) returns (stripped: seq<StrippedQueue>, payloads: seq<Bytes>)
    ensures stripped == StripQueues(queues, 0) && payloads == AllPayloads(queues)
  {
    hide StripMessages, PayloadsOf, StripQueues, AllPayloads;
    stripped, payloads := [], [];
    var i := 0;
    while i < |queues|
      invariant 0 <= i <= |queues|
      invariant StripQueues(queues, 0) == stripped + StripQueues(queues[i..], |payloads|)
      invariant AllPayloads(queues) == payloads + AllPayloads(queues[i..])
    {
      StripNext(queues[i..], |payloads|);
      assert queues[i..][1..] == queues[i + 1..];
      var list;
      list, payloads := ExtractList(queues[i].messages, payloads);
      stripped := stripped + [StrippedQueue(queues[i].(messages := []), list)];
      i := i + 1;
    }
    StripNext(queues[i..], |payloads|);
  }

  method ExtractList(messages: seq<SavedMessage>, before: seq<Bytes>) returns (list: seq<Stripped>, payloads: seq<Bytes>)
    ensures list == StripMessages(messages, |before|) && payloads == before + PayloadsOf(messages)
  {
    list, payloads := [], before;
    var j := 0;
    while j < |messages|
      invariant 0 <= j <= |messages| && |payloads| == |before| + j
      invariant StripMessages(messages, |before|) == list + StripMessages(messages[j..], |payloads|)
      invariant before + PayloadsOf(messages) == payloads + PayloadsOf(messages[j..])
    {
      assert messages[j..][1..] == messages[j + 1..];
      list := list + [Stripped(WithPayload(messages[j], []), |payloads|)];
      payloads := payloads + [messages[j].message.payload];
      j := j + 1;
    }
    assert messages[j..] == [];
  }

  // ----- the blob -----

  predicate Short(ps: seq<Bytes>) {
    forall p :: p in ps ==> Fits(|p|, 4)
  }

  function Blob(ps: seq<Bytes>): Bytes
    decreases |ps|
  {
    if ps == [] then [] else Pack(|ps[0]|, 4) + ps[0] + Blob(ps[1..])
  }

  /** The loop of read_snapshot over the blob; a slice stops at the end of the blob. */
  function Split(blob: Bytes, offset: nat): seq<Bytes>
    decreases |blob| - offset
  {
    if offset + 4 > |blob| then []
    else
      var next := offset + 4 + Unpack(blob[offset..offset + 4]);
      [blob[offset + 4..if next <= |blob| then next else |blob|]] + Split(blob, next)
  }

  lemma {:induction false} SplitBlob(before: Bytes, ps: seq<Bytes>)
    requires Short(ps)
    ensures Split(before + Blob(ps), |before|) == ps
    decreases |ps|
  {
    hide Pack, Unpack, Fits;
    if ps != [] {
      var p := ps[0];
      var blob := before + Blob(ps);
      assert p in ps;
      assert blob == before + Pack(|p|, 4) + (p + Blob(ps[1..]));
      FieldRoundTrip(before, |p|, 4, p + Blob(ps[1..]));
      assert before + Pack(|p|, 4) + p + Blob(ps[1..]) == blob;
      assert blob[|before| + 4..|before| + 4 + |p|] == p;
      SplitBlob(before + Pack(|p|, 4) + p, ps[1..]);
      assert ps == [p] + ps[1..];
    }
  }

  lemma BlobNext(blob: Bytes, ps: seq<Bytes>)
    requires ps != []
    ensures blob + Blob(ps) == blob + Pack(|ps[0]|, 4) + ps[0] + Blob(ps[1..])
  {
    hide Pack;
  }

  lemma BlobEnd(blob: Bytes)
    ensures blob + Blob([]) == blob
  {
  }

  method JoinBlob(ps: seq<Bytes>) returns (blob: Bytes)
    ensures blob == Blob(ps)
  {
    hide Pack, Blob;
    blob := [];
    var i := 0;
    assert ps[i..] == ps;
    while i < |ps|
      invariant 0 <= i <= |ps|
      invariant Blob(ps) == blob + Blob(ps[i..])
    {
      assert ps[i..][1..] == ps[i + 1..];
      BlobNext(blob, ps[i..]);
      blob := blob + Pack(|ps[i]|, 4);
      blob := blob + ps[i];
      i := i + 1;
    }
    assert ps[i..] == [];
    BlobEnd(blob);
  }

  method SplitPayloads(blob: Bytes) returns (ps: seq<Bytes>)
    ensures ps == Split(blob, 0)
  {
    ps := [];
    var offset := 0;
    while offset + 4 <= |blob|
      invariant Split(blob, 0) == ps + Split(blob, offset)
      decreases |blob| - offset
    {
      var n := Unpack(blob[offset..offset + 4]);
      offset := offset + 4;
      ps := ps + [blob[offset..if offset + n <= |blob| then offset + n else |blob|]];
      offset := offset + n;
    }
  }

  // ----- the file -----

  function MetaOf<R>(aofSeq: nat, d: Dump<R>): Meta<R> {
    Meta(aofSeq, StripQueues(d.engine.queues, 0), d.engine.lastOrd, d.routing)
  }

  /** What the header can hold: struct.pack raises an error for anything else. */
  predicate Encodable<R>(c: Codec<R>, aofSeq: nat, d: Dump<R>, created: Bytes) {
    var ps := AllPayloads(d.engine.queues);
    && |created| == TIME_SIZE && Fits(aofSeq, 8) && Short(ps)
    && Fits(|c.enc(MetaOf(aofSeq, d))|, 4) && Fits(|Blob(ps)|, 4)
  }

  function Header(created: Bytes, aofSeq: nat, metaLen: nat, blobLen: nat, crc: nat): (b: Bytes)
    requires |created| == TIME_SIZE
    ensures |b| == HEADER_SIZE
  {
    MAGIC + [VERSION] + created + Pack(aofSeq, 8) + Pack(metaLen, 4) + Pack(blobLen, 4) + Pack(crc, 4)
  }

  function Write<R>(c: Codec<R>, aofSeq: nat, d: Dump<R>, created: Bytes): Option<Bytes> {
    if !Encodable(c, aofSeq, d, created) then None
    else
      var meta := c.enc(MetaOf(aofSeq, d));
      var blob := Blob(AllPayloads(d.engine.queues));
      Some(Header(created, aofSeq, |meta|, |blob|, c.crc(meta + blob)) + (meta + blob))
  }

  /** A file that is not a whole, sound snapshot is ignored; a sound one whose JSON cannot be read raises. */
  datatype Read<R> = Ignored | BadJson | Loaded(aofSeq: nat, dump: Dump<R>)

  function ReadBack<R>(c: Codec<R>, data: Bytes): Read<R> {
    if |data| < HEADER_SIZE then Ignored
    else if data[..4] != MAGIC || data[4] != VERSION then Ignored
    else
      var metaLen, blobLen := Unpack(data[21..25]), Unpack(data[25..29]);
      if |data| < HEADER_SIZE + metaLen + blobLen then Ignored
      else
        var body := data[HEADER_SIZE..HEADER_SIZE + metaLen + blobLen];
        if c.crc(body) != Unpack(data[29..HEADER_SIZE]) then Ignored
        else
          match c.dec(body[..metaLen])
          case None => BadJson
          case Some(m) =>
            Loaded(m.aofSeq, Dump(Saved(AttachQueues(m.queues, Split(body[metaLen..], 0)), m.lastOrd), m.routing))
  }

  lemma HeaderFields(created: Bytes, aofSeq: nat, metaLen: nat, blobLen: nat, crc: nat, rest: Bytes)
    requires |created| == TIME_SIZE && Fits(metaLen, 4) && Fits(blobLen, 4) && Fits(crc, 4)
    ensures
      var b := Header(created, aofSeq, metaLen, blobLen, crc) + rest;
      && b[..4] == MAGIC && b[4] == VERSION
      && Unpack(b[21..25]) == metaLen && Unpack(b[25..29]) == blobLen && Unpack(b[29..33]) == crc
  {
    hide Pack, Unpack, Fits;
    var b := Header(created, aofSeq, metaLen, blobLen, crc) + rest;
    var s, m, l, c := Pack(aofSeq, 8), Pack(metaLen, 4), Pack(blobLen, 4), Pack(crc, 4);
    FieldAt(b, MAGIC + [VERSION] + created + s, metaLen, 4, l + c + rest);
    FieldAt(b, MAGIC + [VERSION] + created + s + m, blobLen, 4, c + rest);
    FieldAt(b, MAGIC + [VERSION] + created + s + m + l, crc, 4, rest);
  }

  /** The snapshot file round trip: every queue, message and payload comes back as it was, whatever the
      number of queues and messages and the lengths of the payloads, and whatever follows in the file. */
  lemma FileRoundTrip<R(!new)>(c: Codec<R>, aofSeq: nat, d: Dump<R>, created: Bytes, rest: Bytes)
    requires JsonOk(c) && Encodable(c, aofSeq, d, created)
    ensures ReadBack(c, Write(c, aofSeq, d, created).value + rest) == Loaded(aofSeq, d)
  {
    hide Pack, Unpack, Fits, Header, Blob, Split, AttachQueues, StripQueues, AllPayloads, Short;
    var meta := c.enc(MetaOf(aofSeq, d));
    var ps := AllPayloads(d.engine.queues);
    var blob := Blob(ps);
    var crc := c.crc(meta + blob);
    var head := Header(created, aofSeq, |meta|, |blob|, crc);
    var data := Write(c, aofSeq, d, created).value + rest;
    CrcFits(crc);
    HeaderFields(created, aofSeq, |meta|, |blob|, crc, meta + blob + rest);
    assert data == head + (meta + blob + rest);
    assert data[HEADER_SIZE..HEADER_SIZE + |meta| + |blob|] == meta + blob;
    assert (meta + blob)[..|meta|] == meta && (meta + blob)[|meta|..] == blob;
    assert c.dec(meta) == Some(MetaOf(aofSeq, d));
    SplitBlob([], ps);
    assert [] + blob == blob;
    AttachStripQueues(d.engine.queues, [], []);
    assert [] + ps + [] == ps;
  }

  /** A snapshot that was cut short is ignored, wherever it was cut. */
  lemma CutIsIgnored<R>(c: Codec<R>, aofSeq: nat, d: Dump<R>, created: Bytes, k: nat)
    requires Encodable(c, aofSeq, d, created) && k < |Write(c, aofSeq, d, created).value|
    ensures ReadBack(c, Write(c, aofSeq, d, created).value[..k]) == Ignored
  {
    hide Pack, Unpack, Fits, Header, Blob, Split, AttachQueues, StripQueues, AllPayloads, Short;
    var meta := c.enc(MetaOf(aofSeq, d));
    var blob := Blob(AllPayloads(d.engine.queues));
    var crc := c.crc(meta + blob);
    var head := Header(created, aofSeq, |meta|, |blob|, crc);
    var data := Write(c, aofSeq, d, created).value;
    if k >= HEADER_SIZE {
      CrcFits(crc);
      HeaderFields(created, aofSeq, |meta|, |blob|, crc, (meta + blob)[..k - HEADER_SIZE]);
      assert data[..k] == head + (meta + blob)[..k - HEADER_SIZE];
    }
  }

  // ----- the two procedures -----

  method WriteSnapshot<R>(c: Codec<R>, aofSeq: nat, d: Dump<R>, created: Bytes) returns (data: Option<Bytes>)
    ensures data == Write(c, aofSeq, d, created)
  {
    hide Pack, Fits, StripQueues, AllPayloads, Blob, Header;
    var stripped, payloads := Extract(d.engine.queues);
    var meta := c.enc(Meta(aofSeq, stripped, d.engine.lastOrd, d.routing));
    if |created| != TIME_SIZE || !Fits(aofSeq, 8) || !Fits(|meta|, 4) || !Short(payloads) {
      return None;
    }
    var blob := JoinBlob(payloads);
    if !Fits(|blob|, 4) {
      return None;
    }
    return Some(Header(created, aofSeq, |meta|, |blob|, c.crc(meta + blob)) + (meta + blob));
  }

  method ReadSnapshot<R>(c: Codec<R>, data: Bytes) returns (r: Read<R>)
    ensures r == ReadBack(c, data)
  {
    hide Unpack, Split, AttachQueues;
    if |data| < HEADER_SIZE || data[..4] != MAGIC || data[4] != VERSION {
      return Ignored;
    }
    var metaLen, blobLen := Unpack(data[21..25]), Unpack(data[25..29]);
    if |data| < HEADER_SIZE + metaLen + blobLen {
      return Ignored;
    }
    var body := data[HEADER_SIZE..HEADER_SIZE + metaLen + blobLen];
    if c.crc(body) != Unpack(data[29..HEADER_SIZE]) {
      return Ignored;
    }
    var meta := c.dec(body[..metaLen]);
    if meta == None {
      return BadJson;
    }
    var payloads := SplitPayloads(body[metaLen..]);
    var queues := Reattach(meta.value.queues, payloads);
    return Loaded(meta.value.aofSeq, Dump(Saved(queues, meta.value.lastOrd), meta.value.routing));
  }

  /** The loops of read_snapshot that put payloads back. */
  method Reattach(stripped: seq<StrippedQueue>, payloads: seq<Bytes>) returns (queues: seq<SavedQueue>)
    ensures queues == AttachQueues(stripped, payloads)
  {
    hide AttachMessages;
    queues := [];
    var i := 0;
    while i < |stripped|
      invariant 0 <= i <= |stripped|
      invariant AttachQueues(stripped, payloads) == queues + AttachQueues(stripped[i..], payloads)
    {
      assert stripped[i..][1..] == stripped[i + 1..];
      var messages := ReattachList(stripped[i].messages, payloads);
      queues := queues + [stripped[i].shell.(messages := messages)];
      i := i + 1;
    }
    assert stripped[i..] == [];
  }

  lemma AttachNext(list: seq<Stripped>, ps: seq<Bytes>)
    ensures AttachMessages(list, ps) == if list == [] then [] else [AttachMessage(list[0], ps)] + AttachMessages(list[1..], ps)
  {
  }

  method ReattachList(list: seq<Stripped>, payloads: seq<Bytes>) returns (messages: seq<SavedMessage>)
    ensures messages == AttachMessages(list, payloads)
  {
    hide AttachMessages;
    messages := [];
    var j := 0;
    while j < |list|
      invariant 0 <= j <= |list|
      invariant AttachMessages(list, payloads) == messages + AttachMessages(list[j..], payloads)
    {
      AttachNext(list[j..], payloads);
      assert list[j..][1..] == list[j + 1..];
      var m := list[j].saved;
      if list[j].index < |payloads| {
        m := WithPayload(m, payloads[list[j].index]);
      }
      messages := messages + [m];
      j := j + 1;
    }
    AttachNext(list[j..], payloads);
  }

  // ----- the format -----

  /** Where each field of a snapshot file is: the magic number "OSNP", a version, the time, the number of the last
      record it contains, two lengths, and the checksum of what follows it: the JSON text and the blob, in which each
      payload follows its length. */
  lemma Layout<R>(c: Codec<R>, aofSeq: nat, d: Dump<R>, created: Bytes)
    requires Encodable(c, aofSeq, d, created)
    ensures
      var b := Write(c, aofSeq, d, created).value;
      var ps := AllPayloads(d.engine.queues);
      var n := |c.enc(MetaOf(aofSeq, d))|;
      && |b| == 33 + n + |Blob(ps)|
      && b[..5] == [0x4F, 0x53, 0x4E, 0x50, 1] && b[5..13] == created && b[13..21] == Pack(aofSeq, 8)
      && b[21..25] == Pack(n, 4) && b[25..29] == Pack(|Blob(ps)|, 4) && b[29..33] == Pack(c.crc(b[33..]), 4)
      && b[33..33 + n] == c.enc(MetaOf(aofSeq, d)) && b[33 + n..] == Blob(ps)
  {
    hide Pack, Fits, Blob, AllPayloads, MetaOf, Short;
    var meta := c.enc(MetaOf(aofSeq, d));
    var blob := Blob(AllPayloads(d.engine.queues));
    var b := Write(c, aofSeq, d, created).value;
    assert b[33..] == meta + blob;
  }

  /** What is loaded has the checksum that it says. */
  lemma LoadedMatches<R>(c: Codec<R>, data: Bytes)
    requires ReadBack(c, data).Loaded? || ReadBack(c, data).BadJson?
    ensures
      && |data| >= 33
      && var n := Unpack(data[21..25]) + Unpack(data[25..29]);
      33 + n <= |data| && Unpack(data[29..33]) == c.crc(data[33..33 + n])
  {
    hide Unpack, Split, AttachQueues;
  }

  /** A snapshot whose JSON text or blob was altered is ignored, unless the alteration leaves its checksum as it was. */
  lemma AlteredIgnored<R>(c: Codec<R>, data: Bytes, aofSeq: nat, d: Dump<R>, created: Bytes)
    requires Encodable(c, aofSeq, d, created)
    requires |data| == |Write(c, aofSeq, d, created).value| && data[..33] == Write(c, aofSeq, d, created).value[..33]
    requires c.crc(data[33..]) != c.crc(Write(c, aofSeq, d, created).value[33..])
    ensures ReadBack(c, data) == Ignored
  {
    hide Pack, Unpack, Fits, Blob, AllPayloads, MetaOf, Short, Split, AttachQueues;
    var x := Write(c, aofSeq, d, created).value;
    var blob := Blob(AllPayloads(d.engine.queues));
    var n := |c.enc(MetaOf(aofSeq, d))|;
    Layout(c, aofSeq, d, created);
    forall i, j | 0 <= i <= j <= 33
      ensures data[i..j] == x[i..j]
    {
      assert data[..33][i..j] == x[..33][i..j];
    }
    Lengths(c, aofSeq, d, created);
    PackRoundTrip(n, 4);
    PackRoundTrip(|blob|, 4);
    CrcFits(c.crc(x[33..]));
    PackRoundTrip(c.crc(x[33..]), 4);
    assert data[4] == data[..5][4] && data[..4] == data[..5][..4];
    assert data[33..33 + n + |blob|] == data[33..];
  }

  lemma Lengths<R>(c: Codec<R>, aofSeq: nat, d: Dump<R>, created: Bytes)
    requires Encodable(c, aofSeq, d, created)
    ensures Fits(|c.enc(MetaOf(aofSeq, d))|, 4) && Fits(|Blob(AllPayloads(d.engine.queues))|, 4)
  {
    hide Blob, AllPayloads, MetaOf, Short;
  }
}
