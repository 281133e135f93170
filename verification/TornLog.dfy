/** Reading an append-only file whose tail a crash may have torn off. */
module TornLog {
  import opened Types
  import opened Records

  ghost predicate AllEncodable<M>(c: Codec<M>, recs: seq<Record<M>>) {
    forall r :: r in recs ==> Encodable(c, r)
  }

  /** The file that holds exactly these records. */
  ghost function EncodeAll<M>(c: Codec<M>, recs: seq<Record<M>>): (b: Bytes)
    requires AllEncodable(c, recs)
    decreases |recs|
  {
    if recs == [] then [] else Whole(c, recs[0]) + EncodeAll(c, recs[1..])
  }

  /** The records from an offset on, and the offset after the last whole one. */
  function ReadFrom<M>(c: Codec<M>, data: Bytes, offset: nat): (seq<Record<M>>, nat)
    requires offset <= |data|
    decreases |data| - offset
  {
    if offset == |data| then ([], offset)
    else
      match Decode(c, data[offset..])
      case Complete(r, consumed) =>
        var (rest, keep) := ReadFrom(c, data, offset + consumed);
        ([r] + rest, keep)
      case _ => ([], offset)
  }

  lemma ReadStep<M>(c: Codec<M>, data: Bytes, offset: nat, r: Record<M>, consumed: nat)
    requires offset < |data| && Decode(c, data[offset..]) == Complete(r, consumed)
    ensures ReadFrom(c, data, offset).0 == [r] + ReadFrom(c, data, offset + consumed).0
    ensures ReadFrom(c, data, offset).1 == ReadFrom(c, data, offset + consumed).1
  {
    hide Decode;
  }

  lemma ReadStop<M>(c: Codec<M>, data: Bytes, offset: nat)
    requires offset <= |data| && (offset == |data| || !Decode(c, data[offset..]).Complete?)
    ensures ReadFrom(c, data, offset) == ([], offset)
  {
    hide Decode;
  }

  /** read_aof: the valid records and the size to keep. */
  method ReadAof<M>(c: Codec<M>, data: Bytes) returns (records: seq<Record<M>>, offset: nat)
    ensures offset <= |data|
    ensures records == ReadFrom(c, data, 0).0 && offset == ReadFrom(c, data, 0).1
  {
    hide ReadFrom, Decode;
    records, offset := [], 0;
    while offset < |data|
      invariant offset <= |data|
      invariant ReadFrom(c, data, 0).0 == records + ReadFrom(c, data, offset).0
      invariant ReadFrom(c, data, 0).1 == ReadFrom(c, data, offset).1
      decreases |data| - offset
    {
      match Decode(c, data[offset..]) {
        case Complete(r, consumed) =>
          ReadStep(c, data, offset, r, consumed);
          records, offset := records + [r], offset + consumed;
        case _ =>
          ReadStop(c, data, offset);
          return;
      }
    }
    ReadStop(c, data, offset);
  }

  /** How many records fit whole into the first k bytes. */
  ghost function WholeCount<M>(c: Codec<M>, recs: seq<Record<M>>, k: nat): (j: nat)
    requires AllEncodable(c, recs)
    ensures j <= |recs|
    decreases |recs|
  {
    if recs == [] || k < |Whole(c, recs[0])| then 0 else 1 + WholeCount(c, recs[1..], k - |Whole(c, recs[0])|)
  }

  lemma PrefixEncodable<M>(c: Codec<M>, recs: seq<Record<M>>, j: nat)
    requires AllEncodable(c, recs) && j <= |recs|
    ensures AllEncodable(c, recs[..j]) && AllEncodable(c, recs[j..])
  {
    hide Encodable;
  }

  lemma ConcatEncodable<M>(c: Codec<M>, a: seq<Record<M>>, b: seq<Record<M>>)
    requires AllEncodable(c, a) && AllEncodable(c, b)
    ensures AllEncodable(c, a + b)
  {
    hide Encodable;
  }

  lemma EncodeConcat<M>(c: Codec<M>, a: seq<Record<M>>, b: seq<Record<M>>)
    requires AllEncodable(c, a) && AllEncodable(c, b) && AllEncodable(c, a + b)
    ensures EncodeAll(c, a + b) == EncodeAll(c, a) + EncodeAll(c, b)
    decreases |a|
  {
    hide Encodable, Whole;
    if a == [] {
      assert a + b == b;
    } else {
      assert (a + b)[1..] == a[1..] + b;
      PrefixEncodable(c, a, 1);
      EncodeConcat(c, a[1..], b);
    }
  }

  /** The count is the largest number of records that fit. */
  lemma WholeCountFits<M>(c: Codec<M>, recs: seq<Record<M>>, k: nat)
    requires AllEncodable(c, recs)
    ensures
      var j := WholeCount(c, recs, k);
      && AllEncodable(c, recs[..j]) && |EncodeAll(c, recs[..j])| <= k
      && (j < |recs| ==> AllEncodable(c, recs[..j + 1]) && k < |EncodeAll(c, recs[..j + 1])|)
    decreases |recs|
  {
    hide Encodable, Whole, EncodeAll;
    var j := WholeCount(c, recs, k);
    PrefixEncodable(c, recs, j);
    EncodedPrefix(c, recs, j);
    if j < |recs| {
      PrefixEncodable(c, recs, j + 1);
      EncodedPrefix(c, recs, j + 1);
    }
    if recs != [] && k >= |Whole(c, recs[0])| {
      WholeCountFits(c, recs[1..], k - |Whole(c, recs[0])|);
    }
  }

  lemma EncodedPrefix<M>(c: Codec<M>, recs: seq<Record<M>>, j: nat)
    requires AllEncodable(c, recs) && j <= |recs|
    ensures AllEncodable(c, recs[..j]) && (j == 0 ==> EncodeAll(c, recs[..j]) == [])
    ensures j > 0 ==>
      && AllEncodable(c, recs[1..][..j - 1])
      && |EncodeAll(c, recs[..j])| == |Whole(c, recs[0])| + |EncodeAll(c, recs[1..][..j - 1])|
  {
    hide Encodable, Whole;
    PrefixEncodable(c, recs, j);
    if j > 0 {
      assert recs[..j][1..] == recs[1..][..j - 1];
    }
  }

  lemma {:induction false} ReadTorn<M(!new)>(c: Codec<M>, before: Bytes, recs: seq<Record<M>>, k: nat)
    requires JsonOk(c) && AllEncodable(c, recs) && k <= |EncodeAll(c, recs)|
    ensures
      var j := WholeCount(c, recs, k);
      var (records, keep) := ReadFrom(c, before + EncodeAll(c, recs)[..k], |before|);
      && AllEncodable(c, recs[..j]) && records == recs[..j] && keep == |before| + |EncodeAll(c, recs[..j])|
    decreases |recs|
  {
    hide Encodable, Whole, Decode, JsonOk, ReadFrom;
    var data := before + EncodeAll(c, recs)[..k];
    var j := WholeCount(c, recs, k);
    PrefixEncodable(c, recs, j);
    assert data[|before|..] == EncodeAll(c, recs)[..k];
    if recs == [] {
      ReadStop(c, data, |before|);
    } else if k < |Whole(c, recs[0])| {
      assert EncodeAll(c, recs)[..k] == Whole(c, recs[0])[..k];
      DecodeTorn(c, recs[0], k);
      ReadStop(c, data, |before|);
    } else {
      PrefixEncodable(c, recs, 1);
      ReadTornNext(c, before, recs, k);
      CountNext(c, recs, k);
      ReadTorn(c, before + Whole(c, recs[0]), recs[1..], k - |Whole(c, recs[0])|);
    }
  }

  lemma CountNext<M>(c: Codec<M>, recs: seq<Record<M>>, k: nat)
    requires AllEncodable(c, recs) && recs != [] && k >= |Whole(c, recs[0])|
    ensures
      var j := WholeCount(c, recs, k);
      var rest := recs[1..][..WholeCount(c, recs[1..], k - |Whole(c, recs[0])|)];
      && recs[..j] == [recs[0]] + rest && AllEncodable(c, recs[..j]) && AllEncodable(c, rest)
      && EncodeAll(c, recs[..j]) == Whole(c, recs[0]) + EncodeAll(c, rest)
  {
    hide Encodable, Whole;
    var j := WholeCount(c, recs, k);
    PrefixEncodable(c, recs, j);
    PrefixEncodable(c, recs[1..], j - 1);
    assert recs[..j][1..] == recs[1..][..j - 1];
  }

  lemma HeadEncoded<M>(c: Codec<M>, recs: seq<Record<M>>)
    requires AllEncodable(c, recs) && recs != [] && AllEncodable(c, recs[1..])
    ensures Encodable(c, recs[0]) && EncodeAll(c, recs) == Whole(c, recs[0]) + EncodeAll(c, recs[1..])
  {
    hide Encodable, Whole;
  }

  lemma TakeOver(before: Bytes, w: Bytes, all: Bytes, k: nat)
    requires |w| <= k <= |w + all|
    ensures (w + all)[..k] == w + all[..k - |w|]
    ensures before + (w + all)[..k] == before + w + all[..k - |w|]
    ensures (before + (w + all)[..k])[|before|..] == w + all[..k - |w|]
  {
  }

  lemma ReadTornNext<M(!new)>(c: Codec<M>, before: Bytes, recs: seq<Record<M>>, k: nat)
    requires JsonOk(c) && AllEncodable(c, recs) && recs != [] && |Whole(c, recs[0])| <= k <= |EncodeAll(c, recs)|
    requires AllEncodable(c, recs[1..])
    ensures
      var w := Whole(c, recs[0]);
      var data := before + EncodeAll(c, recs)[..k];
      && data == before + w + EncodeAll(c, recs[1..])[..k - |w|]
      && ReadFrom(c, data, |before|).0 == [recs[0]] + ReadFrom(c, data, |before + w|).0
      && ReadFrom(c, data, |before|).1 == ReadFrom(c, data, |before + w|).1
  {
    hide Encodable, Whole, Decode, JsonOk, ReadFrom, EncodeAll;
    var w := Whole(c, recs[0]);
    var all := EncodeAll(c, recs[1..]);
    HeadEncoded(c, recs);
    TakeOver(before, w, all, k);
    DecodeEncode(c, recs[0], all[..k - |w|]);
    ReadStep(c, before + EncodeAll(c, recs)[..k], |before|, recs[0], |w|);
  }

  /** Wherever the file is cut, reading it gives exactly the records that fit whole before the cut, and the
      size of their encodings as the size to keep. */
  lemma TornLogReads<M(!new)>(c: Codec<M>, recs: seq<Record<M>>, k: nat)
    requires JsonOk(c) && AllEncodable(c, recs) && k <= |EncodeAll(c, recs)|
    ensures
      var j := WholeCount(c, recs, k);
      var (records, keep) := ReadFrom(c, EncodeAll(c, recs)[..k], 0);
      && AllEncodable(c, recs[..j]) && records == recs[..j] && keep == |EncodeAll(c, recs[..j])| <= |EncodeAll(c, recs)|
      && EncodeAll(c, recs)[..|EncodeAll(c, recs[..j])|] == EncodeAll(c, recs[..j])
  {
    hide Encodable, Whole, JsonOk, EncodeAll, ReadFrom;
    var j := WholeCount(c, recs, k);
    ReadTorn(c, [], recs, k);
    assert [] + EncodeAll(c, recs)[..k] == EncodeAll(c, recs)[..k];
    PrefixEncodable(c, recs, j);
    assert recs[..j] + recs[j..] == recs;
    EncodeConcat(c, recs[..j], recs[j..]);
  }

  // ----- many lifetimes of one file -----

  /** What is appended, before it is numbered. */
  datatype Draft<M> = Draft(op: nat, meta: M, payload: Bytes, time: Bytes)

  datatype LogEvent<M> = Appended(drafts: seq<Draft<M>>) | Snapped | Torn(k: nat)

  /** The file, the writer's counter, and the counter stored in the snapshot. */
  datatype LogFile = LogFile(bytes: Bytes, seqNo: nat, snapSeq: nat)

  function Numbered<M>(seqNo: nat, drafts: seq<Draft<M>>): (recs: seq<Record<M>>)
    ensures |recs| == |drafts|
    ensures forall i :: 0 <= i < |recs| ==> recs[i].seqNo == seqNo + 1 + i
    decreases |drafts|
  {
    if drafts == [] then []
    else
      [Record(seqNo + 1, drafts[0].op, drafts[0].meta, drafts[0].payload, drafts[0].time)] + Numbered(seqNo + 1, drafts[1..])
  }

  /** The records that recovery applies, and the number it goes on with. */
  function Resume<M>(records: seq<Record<M>>, snapSeq: nat, last: nat): (seq<Record<M>>, nat)
    decreases |records|
  {
    if records == [] then ([], last)
    else if records[0].seqNo <= snapSeq then Resume(records[1..], snapSeq, last)
    else
      var (applied, last') := Resume(records[1..], snapSeq, records[0].seqNo);
      ([records[0]] + applied, last')
  }

  /** The loop of recover_into over the records it has read. */
  method RecoverRecords<M>(records: seq<Record<M>>, snapSeq: nat) returns (applied: seq<Record<M>>, last: nat)
    ensures applied == Resume(records, snapSeq, snapSeq).0 && last == Resume(records, snapSeq, snapSeq).1
  {
    applied, last := [], snapSeq;
    var i := 0;
    while i < |records|
      invariant 0 <= i <= |records|
      invariant Resume(records, snapSeq, snapSeq).0 == applied + Resume(records[i..], snapSeq, last).0
      invariant Resume(records, snapSeq, snapSeq).1 == Resume(records[i..], snapSeq, last).1
    {
      assert records[i..][1..] == records[i + 1..];
      if records[i].seqNo > snapSeq {
        applied, last := applied + [records[i]], records[i].seqNo;
      }
      i := i + 1;
    }
    assert records[i..] == [];
  }

  ghost predicate Increasing<M>(recs: seq<Record<M>>) {
    forall i, j :: 0 <= i < j < |recs| ==> recs[i].seqNo < recs[j].seqNo
  }

  ghost predicate UpTo<M>(recs: seq<Record<M>>, seqNo: nat) {
    forall r :: r in recs ==> r.seqNo <= seqNo
  }

  ghost predicate LogOk<M>(c: Codec<M>, f: LogFile, recs: seq<Record<M>>) {
    && AllEncodable(c, recs) && f.bytes == EncodeAll(c, recs)
    && Increasing(recs) && UpTo(recs, f.seqNo) && f.snapSeq <= f.seqNo
  }

  ghost predicate CanHappen<M>(c: Codec<M>, f: LogFile, ev: LogEvent<M>) {
    match ev
    case Appended(drafts) => AllEncodable(c, Numbered(f.seqNo, drafts))
    case Snapped => true
    case Torn(k) => k <= |f.bytes|
  }

  /** Appending writes at the end; a snapshot stores the counter; after a crash the file is read, cut to
      the size to keep, and the counter goes on from the last record that was applied. */
  ghost function Happens<M>(c: Codec<M>, f: LogFile, ev: LogEvent<M>): LogFile
    requires CanHappen(c, f, ev)
  {
    match ev
    case Appended(drafts) => f.(bytes := f.bytes + EncodeAll(c, Numbered(f.seqNo, drafts)), seqNo := f.seqNo + |drafts|)
    case Snapped => f.(snapSeq := f.seqNo)
    case Torn(k) =>
      var (records, keep) := ReadFrom(c, f.bytes[..k], 0);
      if keep <= k then f.(bytes := f.bytes[..keep], seqNo := Resume(records, f.snapSeq, f.snapSeq).1) else f
  }

  /** What the file's records become. */
  ghost function Remains<M>(c: Codec<M>, f: LogFile, recs: seq<Record<M>>, ev: LogEvent<M>): seq<Record<M>>
    requires AllEncodable(c, recs)
  {
    match ev
    case Appended(drafts) => recs + Numbered(f.seqNo, drafts)
    case Snapped => recs
    case Torn(k) => recs[..WholeCount(c, recs, k)]
  }

  /** On increasing records recovery applies exactly those after the snapshot. */
  lemma {:induction false} ResumeLast<M>(recs: seq<Record<M>>, snapSeq: nat, last: nat)
    requires Increasing(recs) && snapSeq <= last && forall r :: r in recs && r.seqNo > snapSeq ==> r.seqNo > last
    ensures
      var (applied, last') := Resume(recs, snapSeq, last);
      && last <= last' && UpTo(recs, last')
      && (last' == last || exists r :: r in recs && r.seqNo == last')
      && forall r :: r in applied <==> r in recs && r.seqNo > snapSeq
    decreases |recs|
  {
    hide Increasing;
    if recs != [] {
      HeadLowest(recs);
      ResumeLast(recs[1..], snapSeq, if recs[0].seqNo <= snapSeq then last else recs[0].seqNo);
    }
  }

  lemma HeadLowest<M>(recs: seq<Record<M>>)
    requires Increasing(recs) && recs != []
    ensures Increasing(recs[1..]) && forall r :: r in recs[1..] ==> r.seqNo > recs[0].seqNo
    ensures forall r :: r in recs <==> r == recs[0] || r in recs[1..]
  {
    assert recs == [recs[0]] + recs[1..];
    forall r | r in recs[1..]
      ensures r.seqNo > recs[0].seqNo
    {
      var i :| 0 <= i < |recs[1..]| && recs[1..][i] == r;
      assert recs[i + 1] == r;
    }
  }

  lemma AppendOk<M>(c: Codec<M>, f: LogFile, recs: seq<Record<M>>, drafts: seq<Draft<M>>)
    requires LogOk(c, f, recs) && CanHappen(c, f, Appended(drafts))
    ensures LogOk(c, Happens(c, f, Appended(drafts)), recs + Numbered(f.seqNo, drafts))
  {
    hide Encodable, EncodeAll, Numbered;
    var more := Numbered(f.seqNo, drafts);
    ConcatEncodable(c, recs, more);
    EncodeConcat(c, recs, more);
    AppendIncreasing(recs, f.seqNo, more);
  }

  lemma AppendIncreasing<M>(recs: seq<Record<M>>, seqNo: nat, more: seq<Record<M>>)
    requires Increasing(recs) && UpTo(recs, seqNo)
    requires forall i :: 0 <= i < |more| ==> more[i].seqNo == seqNo + 1 + i
    ensures Increasing(recs + more) && UpTo(recs + more, seqNo + |more|)
  {
    forall i, j | 0 <= i < j < |recs + more|
      ensures (recs + more)[i].seqNo < (recs + more)[j].seqNo
    {
      if i < |recs| {
        assert recs[i] in recs;
      }
    }
  }

  lemma TornOk<M(!new)>(c: Codec<M>, f: LogFile, recs: seq<Record<M>>, k: nat)
    requires JsonOk(c) && LogOk(c, f, recs) && CanHappen(c, f, Torn(k))
    ensures LogOk(c, Happens(c, f, Torn(k)), Remains(c, f, recs, Torn(k)))
  {
    hide Encodable, EncodeAll, ReadFrom, JsonOk, Resume;
    var kept := recs[..WholeCount(c, recs, k)];
    TornLogReads(c, recs, k);
    WholeCountFits(c, recs, k);
    PrefixIncreasing(recs, WholeCount(c, recs, k));
    ResumeLast(kept, f.snapSeq, f.snapSeq);
  }

  lemma PrefixIncreasing<M>(recs: seq<Record<M>>, j: nat)
    requires Increasing(recs) && j <= |recs|
    ensures Increasing(recs[..j])
  {
  }

  ghost predicate LifeOk<M>(c: Codec<M>, f: LogFile, life: seq<LogEvent<M>>)
    decreases |life|
  {
    life == [] || (CanHappen(c, f, life[0]) && LifeOk(c, Happens(c, f, life[0]), life[1..]))
  }

  ghost function AfterLife<M>(c: Codec<M>, f: LogFile, life: seq<LogEvent<M>>): LogFile
    requires LifeOk(c, f, life)
    decreases |life|
  {
    if life == [] then f else AfterLife(c, Happens(c, f, life[0]), life[1..])
  }

  ghost function RemainsAfter<M>(c: Codec<M>, f: LogFile, recs: seq<Record<M>>, life: seq<LogEvent<M>>): seq<Record<M>>
    requires LifeOk(c, f, life)
    decreases |life|
  {
    if life == [] || !AllEncodable(c, recs) then recs
    else RemainsAfter(c, Happens(c, f, life[0]), Remains(c, f, recs, life[0]), life[1..])
  }

  /** Any number of appends, snapshots, crashes at any byte and truncations: the file always holds whole
      records with strictly increasing numbers, it reads back as exactly those records, and the writer's
      next number is larger than all of them. */
  lemma {:induction false} LogCycles<M(!new)>(c: Codec<M>, f: LogFile, recs: seq<Record<M>>, life: seq<LogEvent<M>>)
    requires JsonOk(c) && LogOk(c, f, recs) && LifeOk(c, f, life)
    ensures
      var f' := AfterLife(c, f, life);
      var recs' := RemainsAfter(c, f, recs, life);
      && LogOk(c, f', recs') && ReadFrom(c, f'.bytes, 0).0 == recs' && ReadFrom(c, f'.bytes, 0).1 == |f'.bytes|
    decreases |life|
  {
    hide Encodable, EncodeAll, ReadFrom, JsonOk, Happens, CanHappen, WholeCount, Increasing, UpTo;
    if life == [] {
      TornLogReads(c, recs, |f.bytes|);
      assert f.bytes[..|f.bytes|] == f.bytes;
      WholeCountAll(c, recs);
    } else {
      match life[0]
      case Appended(drafts) => AppendOk(c, f, recs, drafts);
      case Snapped => SnapOk(c, f, recs);
      case Torn(k) => TornOk(c, f, recs, k);
    }
    if life != [] {
      LogCycles(c, Happens(c, f, life[0]), Remains(c, f, recs, life[0]), life[1..]);
    }
  }

  lemma SnapOk<M>(c: Codec<M>, f: LogFile, recs: seq<Record<M>>)
    requires LogOk(c, f, recs)
    ensures CanHappen(c, f, Snapped) && LogOk(c, Happens(c, f, Snapped), recs)
  {
  }

  lemma WholeCountAll<M>(c: Codec<M>, recs: seq<Record<M>>)
    requires AllEncodable(c, recs)
    ensures WholeCount(c, recs, |EncodeAll(c, recs)|) == |recs| && recs[..|recs|] == recs
    decreases |recs|
  {
    hide Encodable, Whole;
    if recs != [] {
      WholeCountAll(c, recs[1..]);
    }
  }
}
