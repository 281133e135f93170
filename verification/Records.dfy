/** The codec of append-only file records: a fixed header, a JSON dictionary and a payload, under a checksum. */
module Records {
  import opened Types
  import opened Packing

  const MAGIC: Bytes := [0x4F, 0x41, 0x4F, 0x46]
  const VERSION := 1
  const HEADER_SIZE := 35
  const TIME_SIZE := 8

  /** zlib.crc32, json.dumps and json.loads, and the empty dictionary that an empty string stands for. */
  datatype Codec<!M> = Codec(crc: Bytes -> Word32, enc: M -> Bytes, dec: Bytes -> Option<M>, empty: M)

  /** Reading a dictionary back gives the same dictionary, and no dictionary is written as nothing. */
  ghost predicate JsonOk<M(!new)>(c: Codec<M>) {
    forall m :: c.enc(m) != [] && c.dec(c.enc(m)) == Some(m)
  }

  /** The time stamp stays the eight bytes of its floating-point form. */
  datatype Record<M> = Record(seqNo: nat, op: nat, meta: M, payload: Bytes, time: Bytes)

  /** What the header can hold: struct.pack raises an error for anything else. */
  predicate Encodable<M>(c: Codec<M>, r: Record<M>) {
    && 1 <= r.op <= 11 && Fits(r.seqNo, 8) && |r.time| == TIME_SIZE
    && Fits(|c.enc(r.meta)|, 4) && Fits(|r.payload|, 4)
  }

  /** The header up to the checksum. */
  function Head<M>(c: Codec<M>, r: Record<M>): (b: Bytes)
    requires Encodable(c, r)
    ensures |b| == HEADER_SIZE - 4
  {
    MAGIC + [VERSION] + Pack(r.op, 2) + Pack(r.seqNo, 8) + r.time + Pack(|c.enc(r.meta)|, 4) + Pack(|r.payload|, 4)
  }

  function Encode<M>(c: Codec<M>, r: Record<M>): (b: Option<Bytes>)
    ensures b.Some? <==> Encodable(c, r)
    ensures b.Some? ==> |b.value| == HEADER_SIZE + |c.enc(r.meta)| + |r.payload|
  {
    if !Encodable(c, r) then None
    else
      var body := c.enc(r.meta) + r.payload;
      Some(Head(c, r) + Pack(c.crc(Head(c, r) + body), 4) + body)
  }

  datatype Decoded<M> = Complete(record: Record<M>, consumed: nat) | Partial | Corrupt

  function Decode<M>(c: Codec<M>, b: Bytes): (d: Decoded<M>)
    ensures d.Complete? ==> HEADER_SIZE <= d.consumed <= |b|
  {
    if |b| < HEADER_SIZE then Partial
    else if b[..4] != MAGIC || b[4] != VERSION then Corrupt
    else
      var metaLen := Unpack(b[23..27]);
      var total := HEADER_SIZE + metaLen + Unpack(b[27..31]);
      if |b| < total then Partial
      else
        var metaB := b[HEADER_SIZE..HEADER_SIZE + metaLen];
        var payload := b[HEADER_SIZE + metaLen..total];
        if c.crc(b[..31] + metaB + payload) != Unpack(b[31..HEADER_SIZE]) then Corrupt
        else if !(1 <= Unpack(b[5..7]) <= 11) then Corrupt
        else
          var meta := if metaB == [] then Some(c.empty) else c.dec(metaB);
          if meta == None then Corrupt
          else Complete(Record(Unpack(b[7..15]), Unpack(b[5..7]), meta.value, payload, b[15..23]), total)
  }

  // ----- the header, field by field -----

  lemma HeadFields<M>(c: Codec<M>, r: Record<M>, rest: Bytes)
    requires Encodable(c, r)
    ensures
      var b := Head(c, r) + rest;
      && b[..4] == MAGIC && b[4] == VERSION && b[15..23] == r.time
      && Unpack(b[5..7]) == r.op && Unpack(b[7..15]) == r.seqNo
      && Unpack(b[23..27]) == |c.enc(r.meta)| && Unpack(b[27..31]) == |r.payload|
  {
    hide Pack, Unpack, Fits;
    var b := Head(c, r) + rest;
    OpFits(r.op);
    FieldAt(b, MAGIC + [VERSION], r.op, 2,
            Pack(r.seqNo, 8) + r.time + Pack(|c.enc(r.meta)|, 4) + Pack(|r.payload|, 4) + rest);
    FieldAt(b, MAGIC + [VERSION] + Pack(r.op, 2), r.seqNo, 8,
            r.time + Pack(|c.enc(r.meta)|, 4) + Pack(|r.payload|, 4) + rest);
    FieldAt(b, MAGIC + [VERSION] + Pack(r.op, 2) + Pack(r.seqNo, 8) + r.time, |c.enc(r.meta)|, 4, Pack(|r.payload|, 4) + rest);
    FieldAt(b, MAGIC + [VERSION] + Pack(r.op, 2) + Pack(r.seqNo, 8) + r.time + Pack(|c.enc(r.meta)|, 4), |r.payload|, 4, rest);
  }

  lemma OpFits(op: nat)
    requires 1 <= op <= 11
    ensures Fits(op, 2)
  {
    Spans();
  }

  /** The encoding: header, checksum, dictionary, payload. */
  function Whole<M>(c: Codec<M>, r: Record<M>): (b: Bytes)
    requires Encodable(c, r)
    ensures Encode(c, r) == Some(b) && |b| >= HEADER_SIZE
  {
    Encode(c, r).value
  }

  /** The fields of a well-formed record decide what is decoded. */
  lemma DecodeFields<M>(c: Codec<M>, b: Bytes, r: Record<M>, metaB: Bytes)
    requires |b| >= HEADER_SIZE + |metaB| + |r.payload| && b[..4] == MAGIC && b[4] == VERSION && 1 <= r.op <= 11
    requires Unpack(b[5..7]) == r.op && Unpack(b[7..15]) == r.seqNo && b[15..23] == r.time
    requires Unpack(b[23..27]) == |metaB| && Unpack(b[27..31]) == |r.payload|
    requires b[HEADER_SIZE..HEADER_SIZE + |metaB|] == metaB
    requires b[HEADER_SIZE + |metaB|..HEADER_SIZE + |metaB| + |r.payload|] == r.payload
    requires c.crc(b[..31] + metaB + r.payload) == Unpack(b[31..HEADER_SIZE])
    requires metaB != [] && c.dec(metaB) == Some(r.meta)
    ensures Decode(c, b) == Complete(r, HEADER_SIZE + |metaB| + |r.payload|)
  {
    hide Unpack;
  }

  /** Decoding undoes encoding, whatever follows the record. */
  lemma DecodeEncode<M(!new)>(c: Codec<M>, r: Record<M>, rest: Bytes)
    requires JsonOk(c) && Encodable(c, r)
    ensures Decode(c, Whole(c, r) + rest) == Complete(r, |Whole(c, r)|)
  {
    hide Pack, Unpack, Fits, Head, Decode;
    var metaB := c.enc(r.meta);
    var body := metaB + r.payload;
    var crc := c.crc(Head(c, r) + body);
    var b := Whole(c, r) + rest;
    assert b == Head(c, r) + (Pack(crc, 4) + body + rest);
    HeadFields(c, r, Pack(crc, 4) + body + rest);
    CrcFits(crc);
    FieldAt(b, Head(c, r), crc, 4, body + rest);
    BodyAt(Head(c, r) + Pack(crc, 4), metaB, r.payload, rest, b);
    assert b[..31] == Head(c, r);
    assert b[..31] + metaB + r.payload == Head(c, r) + body;
    assert c.dec(metaB) == Some(r.meta);
    DecodeFields(c, b, r, metaB);
  }

  lemma BodyAt(head: Bytes, metaB: Bytes, payload: Bytes, rest: Bytes, b: Bytes)
    requires |head| == HEADER_SIZE && b == head + (metaB + payload) + rest
    ensures b[HEADER_SIZE..HEADER_SIZE + |metaB|] == metaB
    ensures b[HEADER_SIZE + |metaB|..HEADER_SIZE + |metaB| + |payload|] == payload
  {
  }

  /** Any part of a record's encoding that stops short of its end is a partial record, never a corrupt one. */
  lemma DecodeTorn<M>(c: Codec<M>, r: Record<M>, k: nat)
    requires Encodable(c, r) && k < |Whole(c, r)|
    ensures Decode(c, Whole(c, r)[..k]) == Partial
  {
    hide Pack, Unpack, Fits, Head;
    if k >= HEADER_SIZE {
      var body := c.enc(r.meta) + r.payload;
      var crc := c.crc(Head(c, r) + body);
      var b := Whole(c, r)[..k];
      var rest := (Pack(crc, 4) + body)[..k - (HEADER_SIZE - 4)];
      assert Whole(c, r) == Head(c, r) + (Pack(crc, 4) + body);
      assert b == Head(c, r) + rest;
      HeadFields(c, r, rest);
    }
  }

  /** Where each field of a record is: the magic number "OAOF", a version, the operation, the number, the time, two
      lengths and the checksum of all that and of what follows it, the dictionary and the payload. */
  lemma Layout<M>(c: Codec<M>, r: Record<M>)
    requires Encodable(c, r)
    ensures
      var b := Whole(c, r);
      var n := |c.enc(r.meta)|;
      && |b| == 35 + n + |r.payload|
      && b[..5] == [0x4F, 0x41, 0x4F, 0x46, 1]
      && b[5..7] == Pack(r.op, 2) && b[7..15] == Pack(r.seqNo, 8) && b[15..23] == r.time
      && b[23..27] == Pack(n, 4) && b[27..31] == Pack(|r.payload|, 4)
      && b[31..35] == Pack(c.crc(b[..31] + b[35..]), 4)
      && b[35..35 + n] == c.enc(r.meta) && b[35 + n..] == r.payload
  {
    hide Pack, Fits;
    var b := Whole(c, r);
    assert b[..31] == Head(c, r) && b[35..] == c.enc(r.meta) + r.payload;
  }

  /** What is read as a record has the checksum that it says. */
  lemma ReadMatches<M>(c: Codec<M>, b: Bytes)
    requires Decode(c, b).Complete?
    ensures |b| >= 35 && Unpack(b[31..35]) == c.crc(b[..31] + b[35..Decode(c, b).consumed])
  {
    hide Unpack;
    Covered(b, Unpack(b[23..27]), Decode(c, b).consumed);
  }

  /** A record whose dictionary or payload was altered is refused, unless the alteration leaves its checksum as it
      was. */
  lemma AlteredRefused<M>(c: Codec<M>, b: Bytes, r: Record<M>)
    requires Encodable(c, r) && |b| == |Whole(c, r)| && b[..35] == Whole(c, r)[..35]
    requires c.crc(b[..31] + b[35..]) != c.crc(Whole(c, r)[..31] + Whole(c, r)[35..])
    ensures Decode(c, b) == Corrupt
  {
    hide Pack, Unpack, Fits, Encode, Head;
    var x := Whole(c, r);
    var n := |c.enc(r.meta)|;
    Layout(c, r);
    forall i, j | 0 <= i <= j <= 35
      ensures b[i..j] == x[i..j]
    {
      assert b[..35][i..j] == x[..35][i..j];
    }
    BodyLengths(c, r);
    PackRoundTrip(n, 4);
    PackRoundTrip(|r.payload|, 4);
    CrcFits(c.crc(x[..31] + x[35..]));
    PackRoundTrip(c.crc(x[..31] + x[35..]), 4);
    assert b[4] == b[..5][4];
    assert b[..4] == b[..5][..4];
    Covered(b, n, |b|);
    assert b[35..|b|] == b[35..];
  }

  lemma BodyLengths<M>(c: Codec<M>, r: Record<M>)
    requires Encodable(c, r)
    ensures Fits(|c.enc(r.meta)|, 4) && Fits(|r.payload|, 4)
  {
  }

  lemma Covered(b: Bytes, n: nat, total: nat)
    requires 35 + n <= total <= |b|
    ensures b[..31] + b[35..35 + n] + b[35 + n..total] == b[..31] + b[35..total]
  {
  }
}
