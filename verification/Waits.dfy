/** Every wait for an appended record returns: exactly when the record's batch is reported, and no later than the
    end of the writer's loop. */
module Waits {
  import opened Records
  import opened TornLog
  import opened Aof

  /** What has been taken or queued and is not reported yet. */
  function Unreported<M>(w: Writer<M>): seq<Record<M>> {
    w.batch + Queued(w.queue)
  }

  ghost predicate Numbered<M>(recs: seq<Record<M>>, s: nat) {
    exists r :: r in recs && r.seqNo == s
  }

  /** Everyone who waits, waits for an appended record; who is not told yet, for one that is not reported; and
      who is told, for one up to the durable number. Only under "always" does anyone wait. A loop that has been told to
      stop and has not ended still has the entry that will end it. */
  ghost predicate WaitersOk<M>(w: Writer<M>, all: seq<Record<M>>) {
    && (w.policy != Always ==> w.waiters == map[])
    && (forall r :: r in w.batch ==> r.seqNo > w.durableSeq)
    && (w.closed && w.running ==> Stop in w.queue)
    && forall s :: s in w.waiters ==>
         && Numbered(all, s)
         && (w.waiters[s] <==> s <= w.durableSeq)
         && (!w.waiters[s] ==> Numbered(Unreported(w), s))
  }

  /** A reported batch tells exactly those who wait for one of its records; whoever was told stays told. */
  lemma CompleteTells<M>(w: Writer<M>, s: nat)
    requires w.policy == Always && w.batch != [] && s in w.waiters
    ensures s in Aof.Complete(w).waiters
    ensures Wait(Aof.Complete(w), s).1 <==> w.waiters[s] || Numbered(w.batch, s)
  {
    var numbers := Numbers(w.batch);
    if Numbered(w.batch, s) {
      var r :| r in w.batch && r.seqNo == s;
      var i :| 0 <= i < |w.batch| && w.batch[i] == r;
      assert numbers[i] == s;
    }
    if s in numbers {
      var i :| 0 <= i < |numbers| && numbers[i] == s;
      assert w.batch[i] in w.batch && w.batch[i].seqNo == s;
    }
  }

  lemma CompleteWaiters<M>(w: Writer<M>, all: seq<Record<M>>, done: seq<Record<M>>)
    requires Good(w, all, done) && WaitersOk(w, all) && w.batch != [] && w.written
    ensures WaitersOk(Aof.Complete(w), all)
  {
    hide Encodable, EncodeAll, Queued, Increasing, IsSuffix, Told, Numbers, StopsLast;
    var w' := Aof.Complete(w);
    assert all == done + Queued(w.queue);
    LastNumber(done, w.batch, Queued(w.queue));
    if w.policy == Always {
      forall s | s in w'.waiters
        ensures Numbered(all, s) && (w'.waiters[s] <==> s <= w'.durableSeq)
        ensures !w'.waiters[s] ==> Numbered(Unreported(w'), s)
      {
        SameWaiters(w, s);
        CompleteTells(w, s);
        if !w.waiters[s] {
          var r :| r in Unreported(w) && r.seqNo == s;
          assert r in w.batch || r in Queued(w.queue);
          if !w'.waiters[s] {
            assert r in Unreported(w');
          }
        } else {
          assert w.batch[0] in w.batch;
        }
      }
    } else {
      SameWaiters(w, 0);
    }
  }

  lemma SameWaiters<M>(w: Writer<M>, s: nat)
    requires w.batch != []
    ensures s in Aof.Complete(w).waiters <==> s in w.waiters
    ensures w.policy != Always ==> Aof.Complete(w).waiters == w.waiters
  {
  }

  lemma SameQueue<M>(w: Writer<M>, w': Writer<M>, all: seq<Record<M>>, all': seq<Record<M>>)
    requires WaitersOk(w, all) && w'.policy == w.policy && w'.durableSeq == w.durableSeq && w'.batch == w.batch
    requires forall r :: r in all ==> r in all'
    requires forall r :: r in Queued(w.queue) ==> r in Queued(w'.queue)
    requires forall s :: s in w'.waiters ==> s in w.waiters && w'.waiters[s] == w.waiters[s]
    requires w'.closed && w'.running ==> Stop in w'.queue
    ensures WaitersOk(w', all')
  {
    hide Queued;
    forall s | s in w'.waiters
      ensures Numbered(all', s) && (!w'.waiters[s] ==> Numbered(Unreported(w'), s))
    {
      var r :| r in all && r.seqNo == s;
      assert r in all';
      if !w'.waiters[s] {
        var x :| x in Unreported(w) && x.seqNo == s;
        assert x in Unreported(w');
      }
    }
    if w.policy != Always {
      assert w'.waiters.Keys == {};
    }
  }

  lemma AppendWaiters<M>(w: Writer<M>, all: seq<Record<M>>, done: seq<Record<M>>, d: Draft<M>)
    requires Good(w, all, done) && WaitersOk(w, all)
    ensures WaitersOk(Append(w, d).0, AllAfter(w, all, DoAppend(d)))
  {
    hide Encodable, EncodeAll, Queued, Increasing, IsSuffix, StopsLast;
    var w' := Append(w, d).0;
    var all' := AllAfter(w, all, DoAppend(d));
    if !w.closed && Encodable(w.c, Drafted(w.seqNo + 1, d)) {
      var r := Drafted(w.seqNo + 1, d);
      QueuedConcat(w.queue, [Data(r)]);
      QueuedOne(r);
      SameQueue(w, w'.(waiters := w.waiters), all, all');
      assert r in Queued(w'.queue) && r in Unreported(w') && r in all';
      forall s | s in w'.waiters
        ensures Numbered(all', s) && (w'.waiters[s] <==> s <= w'.durableSeq) && (!w'.waiters[s] ==> Numbered(Unreported(w'), s))
      {
        if s != r.seqNo {
          assert s in w.waiters;
        }
      }
    } else {
      SameQueue(w, w', all, all');
    }
  }

  lemma {:induction false} LeadingData<M>(queue: seq<Item<M>>, i: nat)
    requires i < |Leading(queue)|
    ensures queue[i].Data?
    decreases |queue|
  {
    if i > 0 {
      LeadingData(queue[1..], i - 1);
    }
  }

  /** Taking a batch puts the entry that ends the loop back into the queue. */
  lemma StopKept<M>(queue: seq<Item<M>>)
    requires Stop in queue
    ensures Stop in Left(queue)
  {
    hide Leading;
    var i :| 0 <= i < |queue| && queue[i] == Stop;
    var k := |Leading(queue)|;
    if i < k {
      LeadingData(queue, i);
      assert false;
    }
    var rest := queue[k..];
    assert rest[i - k] == Stop;
    assert rest == [rest[0]] + rest[1..];
  }

  lemma TakeWaiters<M>(w: Writer<M>, all: seq<Record<M>>, done: seq<Record<M>>)
    requires Good(w, all, done) && WaitersOk(w, all) && w.running && w.batch == [] && w.queue != []
    ensures WaitersOk(Take(w), all)
  {
    hide Encodable, EncodeAll, Queued, Leading, Left, Increasing, UpTo;
    LeadingQueued(w.queue);
    if w.queue[0].Stop? {
      QueuedStops(w.queue);
      SameQueue(w, Take(w), all, all);
    } else {
      assert forall r :: r in Queued(w.queue) ==> r in Pending(w);
      if Stop in w.queue {
        StopKept(w.queue);
      }
      forall s | s in w.waiters && !w.waiters[s]
        ensures Numbered(Unreported(Take(w)), s)
      {
        var r :| r in Unreported(w) && r.seqNo == s;
        assert r in Unreported(Take(w));
      }
    }
  }

  lemma StopThere<M>(w: Writer<M>, all: seq<Record<M>>)
    requires WaitersOk(w, all) && w.closed && w.running
    ensures Stop in w.queue
  {
  }

  /** Every step keeps it. */
  lemma StepWaiters<M>(w: Writer<M>, all: seq<Record<M>>, done: seq<Record<M>>, step: WriterStep<M>)
    requires Good(w, all, done) && WaitersOk(w, all) && Enabled(w, step)
    ensures WaitersOk(Next(w, step), AllAfter(w, all, step))
  {
    hide Good, WaitersOk, Encodable, EncodeAll, Queued, Append, Take, Told, Numbers;
    if w.closed && w.running {
      StopThere(w, all);
    }
    match step
    case DoAppend(d) => AppendWaiters(w, all, done, d);
    case DoTake => TakeWaiters(w, all, done);
    case DoWrite(due) => SameQueue(w, Write(w, due), all, all);
    case DoComplete => CompleteWaiters(w, all, done);
    case DoWait(s) => SameQueue(w, Wait(w, s).0, all, all);
    case DoStop =>
      QueuedConcat(w.queue, [Stop]);
      QueuedStops<M>([Stop]);
      SameQueue(w, StopLoop(w), all, all);
    case DoFinish => SameQueue(w, Finish(w), all, all);
  }

  lemma {:induction false} RunWaiters<M>(w: Writer<M>, all: seq<Record<M>>, done: seq<Record<M>>, steps: seq<WriterStep<M>>)
    requires Good(w, all, done) && WaitersOk(w, all) && StepsOk(w, steps)
    ensures WaitersOk(AfterSteps(w, steps), Aof.Appended(w, all, steps))
    decreases |steps|
  {
    hide Good, WaitersOk, Enabled, Next, AllAfter, DoneAfter;
    if steps != [] {
      StepKeeps(w, all, done, steps[0]);
      StepWaiters(w, all, done, steps[0]);
      RunWaiters(Next(w, steps[0]), AllAfter(w, all, steps[0]), DoneAfter(w, done, steps[0]), steps[1..]);
    }
  }

  /** A record of everything appended has its number alone. */
  lemma NumberOnce<M>(all: seq<Record<M>>, r: Record<M>, x: Record<M>)
    requires Increasing(all) && r in all && x in all && r.seqNo == x.seqNo
    ensures r == x
  {
    var i :| 0 <= i < |all| && all[i] == r;
    var j :| 0 <= j < |all| && all[j] == x;
  }

  /** When a wait returns. Between two batches, the wait for an appended record returns if and only if the record is
      in the file; and once the loop has ended, every wait returns. */
  lemma WaitReturnsIff<M>(w: Writer<M>, all: seq<Record<M>>, done: seq<Record<M>>, r: Record<M>)
    requires Good(w, all, done) && WaitersOk(w, all) && w.policy == Always && w.batch == [] && r in all
    ensures Wait(w, r.seqNo).1 <==> r in done
    ensures !w.running ==> Wait(w, r.seqNo).1
  {
    hide Encodable, EncodeAll, Queued, StopsLast, UpTo, Increasing;
    assert Pending(w) == Queued(w.queue);
    if r in done {
      NotInBoth(done, Queued(w.queue), r);
    }
    if !Wait(w, r.seqNo).1 {
      var x :| x in Unreported(w) && x.seqNo == r.seqNo;
      assert x in Queued(w.queue) && x in all;
      NumberOnce(all, r, x);
    }
  }

  lemma NotInBoth<M>(a: seq<Record<M>>, b: seq<Record<M>>, r: Record<M>)
    requires Increasing(a + b) && r in a
    ensures r !in b
  {
    var i :| 0 <= i < |a| && a[i] == r;
    forall j | 0 <= j < |b|
      ensures b[j] != r
    {
      assert (a + b)[i] == r && (a + b)[|a| + j] == b[j];
    }
  }

  /** One turn of the loop: everyone who waits when a batch is taken is told when that batch is reported. */
  lemma TurnTells<M>(w: Writer<M>, all: seq<Record<M>>, done: seq<Record<M>>, due: bool, s: nat)
    requires Good(w, all, done) && WaitersOk(w, all) && w.policy == Always && s in w.waiters
    requires Enabled(w, DoTake) && w.queue[0].Data?
    ensures
      var w1 := Take(w);
      Enabled(w1, DoWrite(due)) && Enabled(Write(w1, due), DoComplete) && Wait(Aof.Complete(Write(w1, due)), s).1
  {
    hide Encodable, EncodeAll, Queued, StopsLast, Increasing, Left, Told, Numbers;
    LeadingQueued(w.queue);
    LeadingHead(w.queue);
    hide Leading;
    TakeKeeps(w, all, done);
    BatchKnown(Take(w), all, done);
    if !w.waiters[s] {
      var r :| r in Unreported(w) && r.seqNo == s;
      assert r in Take(w).batch;
    }
    CompleteTells(Write(Take(w), due), s);
  }

  /** Every wait returns. In any run of a writer on the file that recovery left: a waiter is told if and only if its
      number is at most the durable one; the entry that stops the loop is never lost, so that by StopEnds the loop ends;
      and when it has ended, the wait for every record ever appended returns. Without "always" no wait ever blocks. */
  lemma RunTells<M>(c: Codec<M>, policy: Policy, recs: seq<Record<M>>, seqNo: nat, steps: seq<WriterStep<M>>)
    requires AllEncodable(c, recs) && Increasing(recs) && UpTo(recs, seqNo)
    requires StepsOk(Opened(c, policy, recs, seqNo), steps)
    ensures
      var w := AfterSteps(Opened(c, policy, recs, seqNo), steps);
      var all := Aof.Appended(Opened(c, policy, recs, seqNo), recs, steps);
      && (forall s :: s in w.waiters ==> (Wait(w, s).1 <==> s <= w.durableSeq))
      && (w.closed && w.running ==> Stop in w.queue)
      && (!w.running || policy != Always ==> forall r :: r in all ==> Wait(w, r.seqNo).1)
  {
    hide Encodable, EncodeAll, Queued, StopsLast, Increasing, UpTo, StepsOk, AfterSteps, Aof.Appended, Stored;
    var w0 := Opened(c, policy, recs, seqNo);
    OpenedGood(c, policy, recs, seqNo);
    RunKeeps(w0, recs, recs, steps);
    assert WaitersOk(w0, recs);
    RunWaiters(w0, recs, recs, steps);
    var w := AfterSteps(w0, steps);
    var all, done := Aof.Appended(w0, recs, steps), Stored(w0, recs, steps);
    PolicyStays(w0, steps);
    if !w.running && policy == Always {
      forall r | r in all
        ensures Wait(w, r.seqNo).1
      {
        WaitReturnsIff(w, all, done, r);
      }
    }
  }

  lemma {:induction false} PolicyStays<M>(w: Writer<M>, steps: seq<WriterStep<M>>)
    requires StepsOk(w, steps)
    ensures AfterSteps(w, steps).policy == w.policy
    decreases |steps|
  {
    hide Enabled;
    if steps != [] {
      StepPolicy(w, steps[0]);
      PolicyStays(Next(w, steps[0]), steps[1..]);
    }
  }

  lemma StepPolicy<M>(w: Writer<M>, step: WriterStep<M>)
    requires Enabled(w, step)
    ensures Next(w, step).policy == w.policy
  {
    hide Encodable, EncodeAll, Leading, Left, Told, Numbers;
  }
}
