/** The batching writer of the append-only file, as a system of steps that interleave freely: callers append
    and wait, the loop takes a batch, a thread writes it, the loop reports it. */
module Aof {
  import opened Types
  import opened Records
  import opened TornLog

  datatype Policy = Always | EverySecond | Never

  /** An entry of the queue; Stop is the entry that ends the loop. */
  datatype Item<M> = Data(record: Record<M>) | Stop

  /** The writer, its loop and the file. "batch" is what the loop has taken and not yet reported; "written"
      says whether the thread has written it; "synced" is the length of the file that a crash cannot tear. */
  datatype Writer<!M> = Writer(
    c: Codec<M>,
    policy: Policy,
    seqNo: nat,
    queue: seq<Item<M>>,
    waiters: map<nat, bool>,
    durableSeq: nat,
    batch: seq<Record<M>>,
    written: bool,
    disk: Bytes,
    synced: nat,
    closed: bool,
    running: bool)

  function Drafted<M>(seqNo: nat, d: Draft<M>): Record<M> {
    Record(seqNo, d.op, d.meta, d.payload, d.time)
  }

  /** append: a number is used up even if the record cannot be encoded, which raises an error. */
  function Append<M>(w: Writer<M>, d: Draft<M>): (Writer<M>, Option<nat>) {
    if w.closed then (w, Some(w.seqNo))
    else
      var w1 := w.(seqNo := w.seqNo + 1);
      var r := Drafted(w1.seqNo, d);
      if !Encodable(w.c, r) then (w1, None)
      else
        (w1.(queue := w.queue + [Data(r)],
             waiters := if w.policy == Always then w.waiters[r.seqNo := false] else w.waiters),
         Some(r.seqNo))
  }

  /** The records at the head of the queue. */
  function Leading<M>(queue: seq<Item<M>>): (recs: seq<Record<M>>)
    ensures |recs| <= |queue|
    ensures |recs| < |queue| ==> queue[|recs|].Stop?
    decreases |queue|
  {
    if queue == [] || queue[0].Stop? then [] else [queue[0].record] + Leading(queue[1..])
  }

  lemma LeadingHead<M>(queue: seq<Item<M>>)
    ensures Leading(queue) == if queue == [] || queue[0].Stop? then [] else [queue[0].record] + Leading(queue[1..])
  {
  }

  /** What is left of the queue once a batch is taken: the entry that ended the batch goes to the back. */
  function Left<M>(queue: seq<Item<M>>): seq<Item<M>> {
    var rest := queue[|Leading(queue)|..];
    if rest == [] then [] else rest[1..] + [rest[0]]
  }

  /** The loop takes what is queued, or ends. */
  function Take<M>(w: Writer<M>): Writer<M>
    requires w.queue != []
  {
    if w.queue[0].Stop? then w.(queue := w.queue[1..], running := false)
    else w.(batch := Leading(w.queue), queue := Left(w.queue), written := false)
  }

  ghost function Blob<M>(w: Writer<M>): Bytes
    requires AllEncodable(w.c, w.batch)
  {
    EncodeAll(w.c, w.batch)
  }

  /** _write_bytes; "due" is whether a second has passed since the last flush. */
  ghost function Write<M>(w: Writer<M>, due: bool): Writer<M>
    requires AllEncodable(w.c, w.batch)
  {
    var disk := w.disk + Blob(w);
    w.(disk := disk,
       written := true,
       synced := if w.policy == Always || (w.policy == EverySecond && due) then |disk| else w.synced)
  }

  function Told(waiters: map<nat, bool>, batch: seq<nat>): map<nat, bool> {
    map s | s in waiters :: waiters[s] || s in batch
  }

  function Numbers<M>(recs: seq<Record<M>>): seq<nat> {
    seq(|recs|, i requires 0 <= i < |recs| => recs[i].seqNo)
  }

  /** The loop reports a written batch. */
  function Complete<M>(w: Writer<M>): Writer<M>
    requires w.batch != []
  {
    w.(durableSeq := w.batch[|w.batch| - 1].seqNo,
       waiters := if w.policy == Always then Told(w.waiters, Numbers(w.batch)) else w.waiters,
       batch := [], written := false)
  }

  /** wait_durable, at a moment when it is scheduled: whether it returns. */
  function Wait<M>(w: Writer<M>, s: nat): (Writer<M>, bool) {
    if w.policy != Always || s !in w.waiters then (w, true)
    else if w.waiters[s] then (w.(waiters := w.waiters - {s}), true)
    else (w, false)
  }

  function StopLoop<M>(w: Writer<M>): Writer<M> {
    w.(closed := true, queue := w.queue + [Stop])
  }

  /** The end of flush_and_stop, once the loop has ended. */
  function Finish<M>(w: Writer<M>): Writer<M> {
    w.(synced := |w.disk|)
  }

  datatype WriterStep<M> =
    | DoAppend(draft: Draft<M>)
    | DoTake
    | DoWrite(due: bool)
    | DoComplete
    | DoWait(s: nat)
    | DoStop
    | DoFinish

  ghost predicate Enabled<M>(w: Writer<M>, step: WriterStep<M>) {
    match step
    case DoTake => w.running && w.batch == [] && w.queue != []
    case DoWrite(_) => w.batch != [] && !w.written && AllEncodable(w.c, w.batch)
    case DoComplete => w.batch != [] && w.written
    case DoFinish => w.closed && !w.running
    case _ => true
  }

  ghost function Next<M>(w: Writer<M>, step: WriterStep<M>): Writer<M>
    requires Enabled(w, step)
  {
    match step
    case DoAppend(d) => Append(w, d).0
    case DoTake => Take(w)
    case DoWrite(due) => Write(w, due)
    case DoComplete => Complete(w)
    case DoWait(s) => Wait(w, s).0
    case DoStop => StopLoop(w)
    case DoFinish => Finish(w)
  }

  // ----- the invariant -----

  function Queued<M>(queue: seq<Item<M>>): seq<Record<M>>
    decreases |queue|
  {
    if queue == [] then []
    else (if queue[0].Data? then [queue[0].record] else []) + Queued(queue[1..])
  }

  /** What has been appended and is not in the file. */
  function Pending<M>(w: Writer<M>): seq<Record<M>> {
    (if w.written then [] else w.batch) + Queued(w.queue)
  }

  ghost predicate StopsLast<M>(queue: seq<Item<M>>) {
    forall i, j :: 0 <= i < j < |queue| && queue[i].Stop? ==> queue[j].Stop?
  }

  ghost predicate IsSuffix<M>(tail: seq<Record<M>>, recs: seq<Record<M>>) {
    |tail| <= |recs| && recs[|recs| - |tail|..] == tail
  }

  /** "all" is everything in the file when it was opened and everything appended since, in order; "done" is
      what the file holds now. */
  ghost predicate Good<M>(w: Writer<M>, all: seq<Record<M>>, done: seq<Record<M>>) {
    && AllEncodable(w.c, all) && Increasing(all) && UpTo(all, w.seqNo) && w.durableSeq <= w.seqNo
    && all == done + Pending(w)
    && AllEncodable(w.c, done) && w.disk == EncodeAll(w.c, done)
    && w.synced <= |w.disk| && (w.policy == Always ==> w.synced == |w.disk|)
    && (w.written ==> IsSuffix(w.batch, done))
    && (forall r :: r in Pending(w) ==> r.seqNo > w.durableSeq)
    && (w.policy == Always ==>
          forall r :: r in all && (r.seqNo in w.waiters ==> w.waiters[r.seqNo]) ==> r.seqNo <= w.durableSeq)
    && StopsLast(w.queue)
    && (Stop in w.queue || !w.running ==> w.closed)
    && (!w.running ==> w.batch == [] && Queued(w.queue) == [])
  }

  /** What has been appended after a step. */
  ghost function AllAfter<M>(w: Writer<M>, all: seq<Record<M>>, step: WriterStep<M>): seq<Record<M>> {
    if step.DoAppend? && !w.closed && Encodable(w.c, Drafted(w.seqNo + 1, step.draft))
    then all + [Drafted(w.seqNo + 1, step.draft)] else all
  }

  ghost function DoneAfter<M>(w: Writer<M>, done: seq<Record<M>>, step: WriterStep<M>): seq<Record<M>> {
    if step.DoWrite? then done + w.batch else done
  }

  lemma {:induction false} QueuedConcat<M>(a: seq<Item<M>>, b: seq<Item<M>>)
    ensures Queued(a + b) == Queued(a) + Queued(b)
    decreases |a|
  {
    hide Queued;
    QueuedNext(a);
    QueuedNext(a + b);
    if a == [] {
      assert a + b == b;
    } else {
      assert (a + b)[0] == a[0] && (a + b)[1..] == a[1..] + b;
      QueuedConcat(a[1..], b);
    }
  }

  lemma QueuedNext<M>(queue: seq<Item<M>>)
    ensures Queued(queue) ==
            if queue == [] then [] else (if queue[0].Data? then [queue[0].record] else []) + Queued(queue[1..])
  {
  }

  lemma QueuedStops<M>(queue: seq<Item<M>>)
    requires forall i :: 0 <= i < |queue| ==> queue[i].Stop?
    ensures Queued(queue) == []
    decreases |queue|
  {
  }

  lemma LeadingQueued<M>(queue: seq<Item<M>>)
    requires StopsLast(queue)
    ensures Queued(queue) == Leading(queue)
    decreases |queue|
  {
    if queue != [] {
      if queue[0].Stop? {
        QueuedStops(queue);
      } else {
        LeadingQueued(queue[1..]);
      }
    }
  }

  /** After the leading records there is nothing but stops. */
  lemma LeftStops<M>(queue: seq<Item<M>>)
    requires StopsLast(queue)
    ensures Queued(Left(queue)) == [] && StopsLast(Left(queue)) && (Stop in Left(queue) ==> Stop in queue)
  {
    var k := |Leading(queue)|;
    var rest := queue[k..];
    if rest != [] {
      assert queue[k].Stop?;
      forall i | 0 <= i < |rest|
        ensures rest[i].Stop?
      {
        assert rest[i] == queue[k + i];
      }
      QueuedStops(Left(queue));
      assert queue[k] == Stop;
    }
  }

  lemma AppendKeeps<M>(w: Writer<M>, all: seq<Record<M>>, done: seq<Record<M>>, d: Draft<M>)
    requires Good(w, all, done) && !w.closed && Encodable(w.c, Drafted(w.seqNo + 1, d))
    ensures Good(Append(w, d).0, all + [Drafted(w.seqNo + 1, d)], done)
  {
    hide Encodable, EncodeAll, Queued, Increasing;
    var r := Drafted(w.seqNo + 1, d);
    QueuedConcat(w.queue, [Data(r)]);
    QueuedOne(r);
    AppendIncreasing(all, w.seqNo, [r]);
    assert Pending(Append(w, d).0) == Pending(w) + [r];
  }

  lemma QueuedOne<M>(r: Record<M>)
    ensures Queued([Data(r)]) == [r]
  {
  }

  lemma TakeKeeps<M>(w: Writer<M>, all: seq<Record<M>>, done: seq<Record<M>>)
    requires Good(w, all, done) && w.running && w.batch == [] && w.queue != []
    ensures Good(Take(w), all, done)
  {
    hide Encodable, EncodeAll, Queued, Leading, Left, Increasing, UpTo;
    LeadingQueued(w.queue);
    if w.queue[0].Stop? {
      QueuedStops(w.queue);
      QueuedStops(w.queue[1..]);
      assert w.queue[0] in w.queue;
    } else {
      LeftStops(w.queue);
    }
    assert Pending(Take(w)) == Pending(w);
  }

  lemma WriteKeeps<M>(w: Writer<M>, all: seq<Record<M>>, done: seq<Record<M>>, due: bool)
    requires Good(w, all, done) && w.batch != [] && !w.written && AllEncodable(w.c, w.batch)
    ensures Good(Write(w, due), all, done + w.batch)
  {
    hide Encodable, EncodeAll, Queued, Increasing, UpTo;
    ConcatEncodable(w.c, done, w.batch);
    EncodeConcat(w.c, done, w.batch);
    assert done + (w.batch + Queued(w.queue)) == done + w.batch + Queued(w.queue);
    assert (done + w.batch)[|done|..] == w.batch;
    assert forall r :: r in Queued(w.queue) ==> r in Pending(w);
  }

  lemma LastNumber<M>(recs: seq<Record<M>>, tail: seq<Record<M>>, rest: seq<Record<M>>)
    requires IsSuffix(tail, recs) && tail != [] && Increasing(recs + rest)
    ensures
      var last := tail[|tail| - 1].seqNo;
      && (forall r :: r in tail ==> r.seqNo <= last) && (forall r :: r in rest ==> r.seqNo > last)
      && tail[|tail| - 1] in recs && forall r :: r in recs ==> r.seqNo <= last
  {
    var all := recs + rest;
    assert recs[|recs| - 1] == recs[|recs| - |tail|..][|tail| - 1];
    forall r | r in recs
      ensures r.seqNo <= tail[|tail| - 1].seqNo
    {
      var i :| 0 <= i < |recs| && recs[i] == r;
      assert all[i] == r && all[|recs| - 1] == tail[|tail| - 1];
    }
    forall r | r in rest
      ensures r.seqNo > tail[|tail| - 1].seqNo
    {
      var i :| 0 <= i < |rest| && rest[i] == r;
      assert all[|recs| + i] == r && all[|recs| - 1] == tail[|tail| - 1];
    }
    forall r | r in tail
      ensures r in recs
    {
      var i :| 0 <= i < |tail| && tail[i] == r;
      assert recs[|recs| - |tail|..][i] == r;
    }
  }

  lemma CompleteKeeps<M>(w: Writer<M>, all: seq<Record<M>>, done: seq<Record<M>>)
    requires Good(w, all, done) && w.batch != [] && w.written
    ensures Good(Complete(w), all, done)
  {
    hide Encodable, EncodeAll, Queued, Increasing, IsSuffix;
    assert Pending(w) == Queued(w.queue);
    LastNumber(done, w.batch, Queued(w.queue));
    var last := w.batch[|w.batch| - 1];
    assert last in all;
    var w' := Complete(w);
    forall r | w.policy == Always && r in all && (r.seqNo in w'.waiters ==> w'.waiters[r.seqNo])
      ensures r.seqNo <= w'.durableSeq
    {
      if r in done {
      } else {
        assert r in Queued(w.queue) && r in Pending(w);
        NotTold(w, r);
      }
    }
  }

  /** A waiter of a record that is still queued is not told. */
  lemma NotTold<M>(w: Writer<M>, r: Record<M>)
    requires w.policy == Always && r.seqNo in w.waiters && !w.waiters[r.seqNo]
    requires forall b :: b in w.batch ==> b.seqNo < r.seqNo
    requires w.batch != []
    ensures r.seqNo in Complete(w).waiters && !Complete(w).waiters[r.seqNo]
  {
    forall i | 0 <= i < |w.batch|
      ensures Numbers(w.batch)[i] != r.seqNo
    {
      assert w.batch[i] in w.batch;
    }
  }

  lemma StopKeeps<M>(w: Writer<M>, all: seq<Record<M>>, done: seq<Record<M>>)
    requires Good(w, all, done)
    ensures Good(StopLoop(w), all, done)
  {
    hide Encodable, EncodeAll, Queued, Increasing, UpTo, IsSuffix;
    QueuedConcat(w.queue, [Stop]);
    QueuedStops<M>([Stop]);
    assert Pending(StopLoop(w)) == Pending(w);
  }

  /** Every step keeps the invariant: the file, the batch being written and the queue together are always
      the encodings of everything appended, in order. */
  lemma StepKeeps<M>(w: Writer<M>, all: seq<Record<M>>, done: seq<Record<M>>, step: WriterStep<M>)
    requires Good(w, all, done) && Enabled(w, step)
    ensures Good(Next(w, step), AllAfter(w, all, step), DoneAfter(w, done, step))
  {
    hide Encodable, EncodeAll, Queued, Increasing, IsSuffix, Take, Write, Complete, StopLoop, StopsLast;
    match step
    case DoAppend(d) =>
      if !w.closed && Encodable(w.c, Drafted(w.seqNo + 1, d)) {
        AppendKeeps(w, all, done, d);
      }
    case DoTake => TakeKeeps(w, all, done);
    case DoWrite(due) => WriteKeeps(w, all, done, due);
    case DoComplete => CompleteKeeps(w, all, done);
    case DoStop => StopKeeps(w, all, done);
    case _ =>
  }

  // ----- runs of the writer -----

  ghost predicate StepsOk<M>(w: Writer<M>, steps: seq<WriterStep<M>>)
    decreases |steps|
  {
    steps == [] || (Enabled(w, steps[0]) && StepsOk(Next(w, steps[0]), steps[1..]))
  }

  ghost function AfterSteps<M>(w: Writer<M>, steps: seq<WriterStep<M>>): Writer<M>
    requires StepsOk(w, steps)
    decreases |steps|
  {
    if steps == [] then w else AfterSteps(Next(w, steps[0]), steps[1..])
  }

  ghost function Appended<M>(w: Writer<M>, all: seq<Record<M>>, steps: seq<WriterStep<M>>): seq<Record<M>>
    requires StepsOk(w, steps)
    decreases |steps|
  {
    if steps == [] then all else Appended(Next(w, steps[0]), AllAfter(w, all, steps[0]), steps[1..])
  }

  ghost function Stored<M>(w: Writer<M>, done: seq<Record<M>>, steps: seq<WriterStep<M>>): seq<Record<M>>
    requires StepsOk(w, steps)
    decreases |steps|
  {
    if steps == [] then done else Stored(Next(w, steps[0]), DoneAfter(w, done, steps[0]), steps[1..])
  }

  lemma {:induction false} RunKeeps<M>(w: Writer<M>, all: seq<Record<M>>, done: seq<Record<M>>, steps: seq<WriterStep<M>>)
    requires Good(w, all, done) && StepsOk(w, steps)
    ensures Good(AfterSteps(w, steps), Appended(w, all, steps), Stored(w, done, steps))
    decreases |steps|
  {
    hide Good, Enabled, Next, AllAfter, DoneAfter;
    if steps != [] {
      StepKeeps(w, all, done, steps[0]);
      RunKeeps(Next(w, steps[0]), AllAfter(w, all, steps[0]), DoneAfter(w, done, steps[0]), steps[1..]);
    }
  }

  /** A writer that has just opened the file which recovery left. */
  ghost function Opened<M>(c: Codec<M>, policy: Policy, recs: seq<Record<M>>, seqNo: nat): Writer<M>
    requires AllEncodable(c, recs)
  {
    var file := EncodeAll(c, recs);
    Writer(c, policy, seqNo, [], map[], seqNo, [], false, file, |file|, false, true)
  }

  lemma OpenedGood<M>(c: Codec<M>, policy: Policy, recs: seq<Record<M>>, seqNo: nat)
    requires AllEncodable(c, recs) && Increasing(recs) && UpTo(recs, seqNo)
    ensures Good(Opened(c, policy, recs, seqNo), recs, recs)
  {
    hide Encodable, EncodeAll;
    assert recs == recs + Pending(Opened(c, policy, recs, seqNo));
  }

  /** Under "always", once a wait for a record returns, the file holds every record up to it, flushed. */
  lemma WaitIsDurable<M>(w: Writer<M>, all: seq<Record<M>>, done: seq<Record<M>>, mine: Record<M>, r: Record<M>)
    requires Good(w, all, done) && w.policy == Always && Wait(w, mine.seqNo).1
    requires mine in all && r in all && r.seqNo <= mine.seqNo
    ensures r in done && w.synced == |EncodeAll(w.c, done)|
  {
    hide Encodable, EncodeAll, Queued, Increasing;
  }

  /** When flush_and_stop returns, nothing is left unwritten or unflushed. */
  lemma FinishLeavesNothing<M>(w: Writer<M>, all: seq<Record<M>>, done: seq<Record<M>>)
    requires Good(w, all, done) && Enabled(w, DoFinish)
    ensures Finish(w).disk == EncodeAll(w.c, all) && Finish(w).synced == |EncodeAll(w.c, all)|
  {
    hide Encodable, EncodeAll, Queued, Increasing;
    assert done == all;
  }

  /** What the loop has left to do. */
  function Work<M>(w: Writer<M>): nat {
    3 * |w.queue| + (if w.batch == [] then 0 else if w.written then 1 else 2) + (if w.running then 1 else 0)
  }

  predicate OfLoop<M>(step: WriterStep<M>) {
    step.DoTake? || step.DoWrite? || step.DoComplete?
  }

  /** flush_and_stop ends: until the loop has ended one of its steps is enabled, and each of them leaves
      less to do. */
  lemma StopEnds<M>(w: Writer<M>, all: seq<Record<M>>, done: seq<Record<M>>, step: WriterStep<M>)
    requires Good(w, all, done) && w.closed && w.running && Stop in w.queue
    ensures Enabled(w, DoTake) || Enabled(w, DoWrite(false)) || Enabled(w, DoComplete)
    ensures OfLoop(step) && Enabled(w, step) ==> Work(Next(w, step)) < Work(w)
  {
    hide EncodeAll, Queued, Increasing, Encodable, IsSuffix;
    BatchKnown(w, all, done);
  }

  /** What a crash can leave of the file: everything up to the flushed length survives, and of the rest,
      including a batch that is being written, any prefix may. */
  ghost predicate CrashLeaves<M>(w: Writer<M>, file: Bytes)
    requires AllEncodable(w.c, w.batch)
  {
    |file| >= w.synced && file <= (if w.written then w.disk else w.disk + Blob(w))
  }

  lemma GoodBatch<M>(w: Writer<M>, all: seq<Record<M>>, done: seq<Record<M>>)
    requires Good(w, all, done)
    ensures AllEncodable(w.c, w.batch)
    ensures forall file :: CrashLeaves(w, file) ==> file <= EncodeAll(w.c, all)
  {
    hide Encodable, EncodeAll, Queued, Increasing;
    BatchKnown(w, all, done);
    var now := done + (if w.written then [] else w.batch);
    assert all == now + Queued(w.queue);
    PrefixEncodable(w.c, all, |now|);
    assert all[..|now|] == now && all[|now|..] == Queued(w.queue);
    EncodeConcat(w.c, now, Queued(w.queue));
    if !w.written {
      EncodeConcat(w.c, done, w.batch);
    } else {
      assert now == done;
    }
  }

  lemma BatchKnown<M>(w: Writer<M>, all: seq<Record<M>>, done: seq<Record<M>>)
    requires Good(w, all, done)
    ensures AllEncodable(w.c, w.batch)
  {
    hide Encodable, EncodeAll, Queued, Increasing;
    forall r | r in w.batch
      ensures r in all
    {
      if w.written {
        assert r in done[|done| - |w.batch|..];
      } else {
        assert r in Pending(w);
      }
    }
  }

  /** A crash at any moment, in the middle of any write: reading what it leaves gives a prefix of everything
      appended, and under "always" the prefix has every record up to any one whose wait has returned. */
  lemma CrashRecovers<M(!new)>(w: Writer<M>, all: seq<Record<M>>, done: seq<Record<M>>, file: Bytes)
    requires JsonOk(w.c) && Good(w, all, done) && AllEncodable(w.c, w.batch) && CrashLeaves(w, file)
    ensures ReadFrom(w.c, file, 0).0 <= all
    ensures w.policy == Always ==>
      forall r, mine :: r in all && mine in all && r.seqNo <= mine.seqNo && Wait(w, mine.seqNo).1 ==>
        r in ReadFrom(w.c, file, 0).0
  {
    hide Encodable, EncodeAll, Queued, Increasing, JsonOk, ReadFrom, IsSuffix;
    GoodBatch(w, all, done);
    var whole := EncodeAll(w.c, all);
    assert file == whole[..|file|];
    TornLogReads(w.c, all, |file|);
    if w.policy == Always {
      CrashKeepsDone(w, all, done, |file|);
    }
  }

  lemma CrashKeepsDone<M>(w: Writer<M>, all: seq<Record<M>>, done: seq<Record<M>>, k: nat)
    requires Good(w, all, done) && w.policy == Always && w.synced <= k <= |EncodeAll(w.c, all)|
    ensures forall r, mine :: r in all && mine in all && r.seqNo <= mine.seqNo && Wait(w, mine.seqNo).1 ==>
              r in all[..WholeCount(w.c, all, k)]
  {
    hide Encodable, EncodeAll, Queued, Increasing, IsSuffix, WholeCount;
    CrashKeepsPrefix(w.c, all, done, k);
    forall r, mine | r in all && mine in all && r.seqNo <= mine.seqNo && Wait(w, mine.seqNo).1
      ensures r in all[..WholeCount(w.c, all, k)]
    {
      WaitIsDurable(w, all, done, mine, r);
    }
  }

  /** A torn file that is not shorter than the encoding of the first records still has them. */
  lemma CrashKeepsPrefix<M>(c: Codec<M>, all: seq<Record<M>>, done: seq<Record<M>>, k: nat)
    requires AllEncodable(c, all) && AllEncodable(c, done) && done <= all
    requires |EncodeAll(c, done)| <= k <= |EncodeAll(c, all)|
    ensures done <= all[..WholeCount(c, all, k)]
  {
    hide Encodable, EncodeAll, WholeCount;
    var j := WholeCount(c, all, k);
    WholeCountFits(c, all, k);
    if j < |done| {
      assert done[..j + 1] == all[..j + 1];
      EncodeMonotone(c, done, j + 1);
    }
  }

  lemma EncodeMonotone<M>(c: Codec<M>, recs: seq<Record<M>>, j: nat)
    requires AllEncodable(c, recs) && j <= |recs|
    ensures AllEncodable(c, recs[..j]) && |EncodeAll(c, recs[..j])| <= |EncodeAll(c, recs)|
  {
    hide Encodable, EncodeAll;
    PrefixEncodable(c, recs, j);
    assert recs[..j] + recs[j..] == recs;
    EncodeConcat(c, recs[..j], recs[j..]);
  }

  /** A run only adds to what has been appended, and never takes back what has been flushed. */
  lemma {:induction false} RunGrows<M>(w: Writer<M>, all: seq<Record<M>>, done: seq<Record<M>>, steps: seq<WriterStep<M>>)
    requires Good(w, all, done) && StepsOk(w, steps)
    ensures AfterSteps(w, steps).c == w.c && AfterSteps(w, steps).synced >= w.synced
    ensures all <= Appended(w, all, steps)
    decreases |steps|
  {
    hide Good, Enabled, Next, AllAfter, DoneAfter;
    if steps != [] {
      StepKeeps(w, all, done, steps[0]);
      StepGrows(w, all, done, steps[0]);
      RunGrows(Next(w, steps[0]), AllAfter(w, all, steps[0]), DoneAfter(w, done, steps[0]), steps[1..]);
    }
  }

  lemma StepGrows<M>(w: Writer<M>, all: seq<Record<M>>, done: seq<Record<M>>, step: WriterStep<M>)
    requires Good(w, all, done) && Enabled(w, step)
    ensures Next(w, step).c == w.c && Next(w, step).synced >= w.synced && all <= AllAfter(w, all, step)
  {
    hide Encodable, EncodeAll, Leading, Left, Told, Numbers, Queued, Increasing, StopsLast, UpTo, IsSuffix;
  }

  /** A batch that is flushed when it is written, which is every batch under "always" and under "every second" the
      one that finds the second over, survives every later crash with everything before it. */
  lemma FlushedSurvives<M(!new)>(w: Writer<M>, all: seq<Record<M>>, done: seq<Record<M>>, due: bool,
                                 steps: seq<WriterStep<M>>, file: Bytes)
    requires JsonOk(w.c) && Good(w, all, done) && Enabled(w, DoWrite(due))
    requires w.policy == Always || (w.policy == EverySecond && due)
    requires StepsOk(Write(w, due), steps)
    requires AllEncodable(AfterSteps(Write(w, due), steps).c, AfterSteps(Write(w, due), steps).batch)
    requires CrashLeaves(AfterSteps(Write(w, due), steps), file)
    ensures done + w.batch <= ReadFrom(w.c, file, 0).0
  {
    hide Encodable, EncodeAll, Queued, Increasing, IsSuffix, StepsOk, AfterSteps, Appended, Stored, JsonOk, ReadFrom,
      CrashLeaves;
    var w1 := Write(w, due);
    WriteKeeps(w, all, done, due);
    RunGrows(w1, all, done + w.batch, steps);
    RunKeeps(w1, all, done + w.batch, steps);
    CrashReads(AfterSteps(w1, steps), Appended(w1, all, steps), Stored(w1, done + w.batch, steps),
               done + w.batch, file);
  }

  lemma CrashReads<M(!new)>(w: Writer<M>, all: seq<Record<M>>, done: seq<Record<M>>,
                            flushed: seq<Record<M>>, file: Bytes)
    requires JsonOk(w.c) && Good(w, all, done) && AllEncodable(w.c, w.batch) && CrashLeaves(w, file)
    requires AllEncodable(w.c, flushed) && flushed <= all && w.synced >= |EncodeAll(w.c, flushed)|
    ensures flushed <= ReadFrom(w.c, file, 0).0
  {
    hide Encodable, EncodeAll, Queued, Increasing, IsSuffix, JsonOk, ReadFrom;
    GoodBatch(w, all, done);
    assert file == EncodeAll(w.c, all)[..|file|];
    TornLogReads(w.c, all, |file|);
    CrashKeepsPrefix(w.c, all, flushed, |file|);
  }
}
