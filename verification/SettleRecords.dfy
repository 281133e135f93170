/** What settling messages and the passing of time write to the journal: one record for every acknowledgement and
    every refusal, and one for every delivery that fails, which says what became of the message. */
module SettleRecords {
  import opened Types
  import opened DlqNames
  import opened Heaps
  import opened Backoffs
  import opened Journal
  import opened Engine
  import opened Index
  import opened Partition
  import opened Invariant
  import opened InvariantOps
  import opened Places
  import opened Ticks

  /** The record of a message that died; only this one carries the payload. */
  function DeathRec(n: QName, m: Message): Rec {
    Rec(MessageDead(m.id, n, m.attempts), m.payload)
  }

  /** The record of a delivery that failed: the attempt counts, and the message is retried or dies. */
  function FailureRec(cfg: Config, n: QName, m: Message, now: Time): Rec {
    var attempts := m.attempts + 1;
    if attempts >= m.maxAttempts then Rec(MessageDead(m.id, n, attempts), m.payload)
    else Rec(MessageRetry(m.id, n, now + RetryDelay(attempts, cfg.backoff, cfg.baseDelay), attempts), [])
  }

  /** A step appended these records, and nothing else. */
  predicate Wrote(s: State, s': State, recs: seq<Rec>) {
    s'.journal == s.journal + recs
  }

  lemma DeclareSilent(s: State, n: QName, a: DeclareArgs)
    ensures Declare(s, n, a, false).journal == s.journal
    decreases if IsDlq(n) then 0 else 1
  {
  }

  lemma MoveWrites(s: State, n: QName, m: Message)
    requires n in s.queues
    ensures Wrote(s, MoveToDlq(s, n, m, true), [DeathRec(n, m)])
  {
    hide Push, IsDlq, Declare;
    var s1 := Remove(s, n, m, true);
    DeclareSilent(s1, DlqName(n), DEFAULT_ARGS.(deadLetter := false));
    DeclareKeepsQueues(s1, DlqName(n), DEFAULT_ARGS.(deadLetter := false), false);
  }

  lemma RetryOrDeadWrites(s: State, n: QName, m: Message, now: Time)
    requires n in s.queues
    ensures Wrote(s, RetryOrDead(s, n, m, now, true), [FailureRec(s.cfg, n, m, now)])
  {
    hide Push, RetryDelay, MoveToDlq;
    var m1 := m.(attempts := m.attempts + 1);
    if m1.attempts >= m1.maxAttempts {
      MoveWrites(s, n, m1);
    }
  }

  /** An accepted acknowledgement writes one record, any other nothing. */
  lemma AckWrites(s: State, id: Id)
    requires Inv(s)
    ensures
      var (s', r) := Ack(s, id, true);
      if r == AckOk then PlaceOf(s, id).InflightIn? && Wrote(s, s', [Rec(MessageAck(id, PlaceOf(s, id).queue), [])])
      else Wrote(s, s', [])
  {
    hide Inv, Trim, Discharge;
    AckPlace(s, id, true);
  }

  /** An accepted refusal writes two: that it was refused, and what became of the message. */
  lemma NackWrites(s: State, id: Id, requeue: bool, now: Time)
    requires Inv(s)
    ensures
      var (s', r) := Nack(s, id, requeue, now, true);
      var p := PlaceOf(s, id);
      if r == NackOk then
        p.InflightIn?
        && Wrote(s, s', [Rec(MessageNack(id, p.queue, requeue), []),
                         if requeue then FailureRec(s.cfg, p.queue, p.message, now) else DeathRec(p.queue, p.message)])
      else Wrote(s, s', [])
  {
    hide Inv, RetryOrDead, MoveToDlq, FailureRec;
    NackPlace(s, id, requeue, now, true);
    if PlaceOf(s, id).InflightIn? {
      var n := s.byId[id];
      var q := TakeBack(s.queues[n], id);
      var s1 := Log(SetQueue(s, n, CountNack(q)), MessageNack(id, n, requeue), [], true);
      if requeue {
        RetryOrDeadWrites(s1, n, q.messages[id], now);
      } else {
        MoveWrites(s1, n, q.messages[id]);
      }
    }
  }

  lemma ExpireWrites(s: State, n: QName, id: Id, now: Time)
    requires Inv(s) && n in s.queues && id in s.queues[n].inflight
    ensures PlaceOf(s, id).InflightIn? && PlaceOf(s, id).queue == n
    ensures Wrote(s, Expire(s, n, id, now, true), [FailureRec(s.cfg, n, PlaceOf(s, id).message, now)])
  {
    hide Inv, RetryOrDead, FailureRec;
    InflightPlace(s, n, id);
    RetryOrDeadWrites(SetQueue(s, n, TakeBack(s.queues[n], id)), n, s.queues[n].messages[id], now);
  }

  // ----- several deliveries that fail -----

  /** One record for every delivery in the list, in its order, as the messages were before. */
  ghost predicate Reports(s: State, recs: seq<Rec>, ids: seq<Id>, now: Time) {
    |recs| == |ids|
    && forall i :: 0 <= i < |ids| ==>
         && PlaceOf(s, ids[i]).InflightIn?
         && recs[i] == FailureRec(s.cfg, PlaceOf(s, ids[i]).queue, PlaceOf(s, ids[i]).message, now)
  }

  ghost predicate Reported(s: State, s': State, ids: seq<Id>, now: Time) {
    s.journal <= s'.journal && Reports(s, s'.journal[|s.journal|..], ids, now)
  }

  function IdsOf(todo: seq<Addr>): seq<Id> {
    seq(|todo|, i requires 0 <= i < |todo| => todo[i].id)
  }

  /** First one delivery fails, then others do. */
  lemma ReportsThen(a: State, b: State, c: State, id: Id, ids: seq<Id>, now: Time)
    requires PlaceOf(a, id).InflightIn? && b.cfg == a.cfg
    requires Wrote(a, b, [FailureRec(a.cfg, PlaceOf(a, id).queue, PlaceOf(a, id).message, now)])
    requires Reported(b, c, ids, now)
    requires forall x :: x in ids ==> PlaceOf(b, x) == PlaceOf(a, x)
    ensures Reported(a, c, [id] + ids, now)
  {
    hide PlaceOf, FailureRec;
    var recs := c.journal[|b.journal|..];
    assert c.journal[|a.journal|..] == [b.journal[|a.journal|]] + recs;
    forall i | 0 <= i < |[id] + ids|
      ensures PlaceOf(a, ([id] + ids)[i]).InflightIn?
      ensures c.journal[|a.journal|..][i] ==
              FailureRec(a.cfg, PlaceOf(a, ([id] + ids)[i]).queue, PlaceOf(a, ([id] + ids)[i]).message, now)
    {
      if i > 0 {
        assert ids[i - 1] in ids && recs[i - 1] == c.journal[|a.journal|..][i];
      }
    }
  }

  /** Taking back a consumer's deliveries writes one record for each, in order. */
  lemma {:induction false} RecoverWrites(s: State, todo: seq<Addr>, now: Time)
    requires Inv(s) && AllInflight(s, todo) && now > 0 && s.cfg.baseDelay >= 0
    ensures Reported(s, Recover(s, todo, now, true), IdsOf(todo), now)
    decreases |todo|
  {
    hide Inv, Expire, PlaceOf, FailureRec, SameElsewhere, Holds, AfterFailure;
    if todo != [] {
      var a := todo[0];
      var s1 := Expire(s, a.queue, a.id, now, true);
      ExpireKeepsQueues(s, a.queue, a.id, now, true);
      ExpireInv(s, a.queue, a.id, now, true);
      ExpireCfg(s, a.queue, a.id, now, true);
      RestInflight(s, todo, now, true);
      RecoverWrites(s1, todo[1..], now);
      ExpireWrites(s, a.queue, a.id, now);
      ExpirePlace(s, a.queue, a.id, now, true);
      ListedOnce(s, todo);
      OthersStay(s, s1, todo);
      ReportsThen(s, s1, Recover(s1, todo[1..], now, true), a.id, IdsOf(todo[1..]), now);
      assert IdsOf(todo) == [a.id] + IdsOf(todo[1..]);
    }
  }

  lemma OthersStay(s: State, s1: State, todo: seq<Addr>)
    requires todo != [] && SameElsewhere(s, s1, todo[0].id) && !Listed(todo[1..], todo[0].id)
    ensures forall x :: x in IdsOf(todo[1..]) ==> PlaceOf(s1, x) == PlaceOf(s, x)
  {
    hide PlaceOf;
    forall x | x in IdsOf(todo[1..])
      ensures x != todo[0].id
    {
      var i :| 0 <= i < |todo[1..]| && IdsOf(todo[1..])[i] == x;
      assert todo[1..][i] in todo[1..];
    }
  }

  // ----- deliveries that time out -----

  /** The deliveries that the loop takes back, in its order. */
  ghost function Overdue(s: State, ts: Time, now: Time): seq<Id>
    decreases |s.visibility|
  {
    if s.visibility == [] || s.visibility[0].key > ts then []
    else
      var e := s.visibility[0];
      var s1 := s.(visibility := s.visibility[1..]);
      TimeoutKeepsHeap(s1, e, now);
      (if Current(s, e) then [e.item.id] else []) + Overdue(TimeoutOne(s1, e, now), ts, now)
  }

  /** The earliest deadline first, and every delivery that is past its deadline, once. */
  ghost predicate InDeadlineOrder(s: State, ids: seq<Id>, ts: Time) {
    && (forall x :: x in ids <==> Expired(PlaceOf(s, x), ts))
    && (forall i, j :: 0 <= i < j < |ids| ==> ids[i] != ids[j] && Deadline(s, ids[i]) <= Deadline(s, ids[j]))
  }

  function Deadline(s: State, id: Id): Time {
    if PlaceOf(s, id).InflightIn? then PlaceOf(s, id).delivery.deadline else 0
  }

  lemma HeadFirst(s: State, x: Id)
    requires Inv(s) && s.visibility != [] && PlaceOf(s, x).InflightIn?
    ensures s.visibility[0].key <= Deadline(s, x)
  {
    hide QueueOk, TablesAgree, DelayedOk, EntriesOk;
    var p := PlaceOf(s, x);
    assert VisibleOf(p.queue, s.queues[p.queue].inflight, s.visibility);
    var e :| e in s.visibility && e.key == p.delivery.deadline && e.item == Addr(p.queue, x);
    Heaps.Pop(s.visibility);
  }

  /** One turn of the loop. */
  lemma OverdueThen(s: State, s1: State, ids: seq<Id>, ts: Time, now: Time)
    requires Inv(s) && s.visibility != [] && s.visibility[0].key <= ts && SameSpecs(s, s1)
    requires forall x :: PlaceOf(s1, x) ==
               if x == s.visibility[0].item.id && Current(s, s.visibility[0]) then Failed(s, PlaceOf(s, x), now)
               else PlaceOf(s, x)
    requires InDeadlineOrder(s1, ids, ts)
    ensures
      var e := s.visibility[0];
      && (forall x :: x in ids ==> PlaceOf(s1, x) == PlaceOf(s, x))
      && InDeadlineOrder(s, (if Current(s, e) then [e.item.id] else []) + ids, ts)
  {
    hide Inv, PlaceOf, Current, AfterFailure;
    var e := s.visibility[0];
    var all := (if Current(s, e) then [e.item.id] else []) + ids;
    if Current(s, e) {
      CurrentPlace(s, e);
      FailedNotInflight(s, PlaceOf(s, e.item.id), now);
    }
    forall x | x in ids
      ensures PlaceOf(s1, x) == PlaceOf(s, x) && PlaceOf(s, x).InflightIn?
      ensures e.key <= Deadline(s, x) && Deadline(s1, x) == Deadline(s, x) && (Current(s, e) ==> x != e.item.id)
    {
      HeadFirst(s, x);
    }
    forall i, j | 0 <= i < j < |all|
      ensures all[i] != all[j] && Deadline(s, all[i]) <= Deadline(s, all[j])
    {
      if Current(s, e) {
        assert all[j] == ids[j - 1] && all[j] in ids && (i > 0 ==> all[i] == ids[i - 1] && all[i] in ids);
      } else {
        assert all[j] in ids && all[i] in ids;
      }
    }
  }

  lemma TurnWrites(s: State, now: Time)
    requires Inv(s) && s.visibility != []
    ensures
      var e := s.visibility[0];
      var s1 := TimeoutOne(s.(visibility := s.visibility[1..]), e, now);
      var p := PlaceOf(s, e.item.id);
      if Current(s, e) then p.InflightIn? && Wrote(s, s1, [FailureRec(s.cfg, p.queue, p.message, now)]) else Wrote(s, s1, [])
  {
    hide Inv, Expire, PlaceOf, FailureRec;
    var e := s.visibility[0];
    if Current(s, e) {
      ExpireHeap(s, s.visibility[1..], e.item.queue, e.item.id, now, true);
      ExpireWrites(s, e.item.queue, e.item.id, now);
    }
  }

  lemma ReportsSame(a: State, b: State, c: State, ids: seq<Id>, now: Time)
    requires b.cfg == a.cfg && Wrote(a, b, []) && Reported(b, c, ids, now)
    requires forall x :: x in ids ==> PlaceOf(b, x) == PlaceOf(a, x)
    ensures Reported(a, c, ids, now)
  {
    hide PlaceOf, FailureRec;
    assert b.journal == a.journal;
    forall i | 0 <= i < |ids|
      ensures PlaceOf(a, ids[i]) == PlaceOf(b, ids[i])
    {
      assert ids[i] in ids;
    }
  }

  lemma {:induction false} TimeoutWrites(s: State, ts: Time, now: Time)
    requires Inv(s) && now > 0 && s.cfg.baseDelay >= 0
    ensures InDeadlineOrder(s, Overdue(s, ts, now), ts)
    ensures Reported(s, TimeoutInflight(s, ts, now), Overdue(s, ts, now), now)
    decreases |s.visibility|
  {
    hide Inv, PlaceOf, FailureRec, TimeoutOne, Current, InDeadlineOrder, Reported, Wrote, Failed;
    if s.visibility == [] || s.visibility[0].key > ts {
      NoneOverdue(s, ts, now);
    } else {
      var e := s.visibility[0];
      var s1 := TimeoutOne(s.(visibility := s.visibility[1..]), e, now);
      TimeoutKeepsHeap(s.(visibility := s.visibility[1..]), e, now);
      TimeoutStep(s, now);
      TurnWrites(s, now);
      TimeoutWrites(s1, ts, now);
      var ids := Overdue(s1, ts, now);
      OverdueThen(s, s1, ids, ts, now);
      if Current(s, e) {
        ReportsThen(s, s1, TimeoutInflight(s1, ts, now), e.item.id, ids, now);
      } else {
        ReportsSame(s, s1, TimeoutInflight(s1, ts, now), ids, now);
        assert [] + ids == ids;
      }
    }
  }

  lemma NoneOverdue(s: State, ts: Time, now: Time)
    requires Inv(s) && (s.visibility == [] || s.visibility[0].key > ts)
    ensures InDeadlineOrder(s, Overdue(s, ts, now), ts)
    ensures Reported(s, TimeoutInflight(s, ts, now), Overdue(s, ts, now), now)
  {
    hide Inv, PlaceOf;
    forall x
      ensures !Expired(PlaceOf(s, x), ts)
    {
      NothingDue(s, ts, x);
    }
  }

  lemma ReleaseSilent(s: State, due: seq<Addr>)
    ensures ReleaseAll(s, due).journal == s.journal
    decreases |due|
  {
    hide Push;
    if due != [] {
      ReleaseSilent(ReleaseOne(s, due[0]), due[1..]);
    }
  }

  /** A tick writes one record for every delivery that is past its deadline, the earliest deadline first, and none for
      the delayed messages that it releases. */
  lemma TickWrites(s: State, ts: Time, now: Time) returns (ids: seq<Id>)
    requires Inv(s) && now > 0 && s.cfg.baseDelay >= 0
    ensures InDeadlineOrder(s, ids, ts) && Reported(s, Tick(s, ts, now), ids, now)
  {
    hide Inv, PlaceOf, FailureRec, ReleaseAll, TimeoutInflight, Deadline, Overdue, PopDue;
    var s1 := ReleaseDelayed(s, ts);
    ids := Overdue(s1, ts, now);
    ReleaseSilent(s.(delayed := PopDue(s.delayed, ts).1), PopDue(s.delayed, ts).0);
    ReleaseDelayedPlace(s, ts, "");
    TimeoutWrites(s1, ts, now);
    forall x
      ensures Expired(PlaceOf(s1, x), ts) <==> Expired(PlaceOf(s, x), ts)
      ensures PlaceOf(s, x).InflightIn? ==> PlaceOf(s1, x) == PlaceOf(s, x)
      ensures PlaceOf(s1, x).InflightIn? ==> PlaceOf(s1, x) == PlaceOf(s, x)
    {
      ReleaseDelayedPlace(s, ts, x);
    }
    SameDeadlines(s, s1, ids, ts);
    ReportsSame(s, s1, Tick(s, ts, now), ids, now);
  }

  lemma SameDeadlines(s: State, s1: State, ids: seq<Id>, ts: Time)
    requires InDeadlineOrder(s1, ids, ts)
    requires forall x :: Expired(PlaceOf(s1, x), ts) <==> Expired(PlaceOf(s, x), ts)
    requires forall x :: PlaceOf(s1, x).InflightIn? ==> PlaceOf(s1, x) == PlaceOf(s, x)
    ensures InDeadlineOrder(s, ids, ts)
    ensures forall x :: x in ids ==> PlaceOf(s1, x) == PlaceOf(s, x)
  {
    hide PlaceOf;
    forall i | 0 <= i < |ids|
      ensures Deadline(s1, ids[i]) == Deadline(s, ids[i])
    {
      assert ids[i] in ids;
    }
  }
}
