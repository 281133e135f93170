/** What the loops over deliveries and heaps report: how many messages they moved. */
module Counts {
  import opened Types
  import opened DlqNames
  import opened Heaps
  import opened Backoffs
  import opened Engine
  import opened Invariant
  import opened InvariantOps
  import opened Places
  import opened Ticks

  // ----- released messages -----

  /** The messages whose due time has come. */
  ghost function DueIds(s: State, ts: Time): set<Id> {
    set id | id in s.byId && Due(PlaceOf(s, id), ts)
  }

  lemma ReleasedIds(s: State, due: seq<Addr>, ts: Time)
    requires InvDue(s, due, ts) && due != [] && Waiting(s, due[0])
    ensures DueIds(ReleaseOne(s, due[0]), ts) == DueIds(s, ts) - {due[0].id} && due[0].id in DueIds(s, ts)
    ensures Releasable(s, due[0])
  {
    hide InvDue, PlaceOf, ReleaseOne, ReleasedQueue, NoEntry, SameBut, SameElsewhere;
    WaitingMeaning(s, due, ts);
    ReleaseForm(s, due, ts);
    ReleasePlace(s, due, ts);
    SameElsewhereAll(s, ReleaseOne(s, due[0]), due[0].id);
  }

  lemma SameElsewhereAll(s: State, s': State, id: Id)
    requires SameElsewhere(s, s', id)
    ensures forall x :: x != id ==> PlaceOf(s', x) == PlaceOf(s, x)
  {
    hide PlaceOf;
  }

  lemma NoneDue(s: State, ts: Time)
    requires InvDue(s, [], ts)
    ensures DueIds(s, ts) == {}
  {
    hide InvDue, PlaceOf, Inv;
    forall id | id in s.byId
      ensures !Due(PlaceOf(s, id), ts)
    {
      NothingLeftDue(s, ts, id);
    }
  }

  lemma {:induction false} ReleaseCounts(s: State, due: seq<Addr>, ts: Time)
    requires InvDue(s, due, ts)
    ensures ReleaseCount(s, due) == |DueIds(s, ts)|
    decreases |due|
  {
    hide InvDue, Inv, ReleaseOne, DueIds, Releasable, Waiting;
    if due == [] {
      NoneDue(s, ts);
    } else {
      if Waiting(s, due[0]) {
        ReleaseInv(s, due, ts);
        ReleasedIds(s, due, ts);
      } else {
        SkipDue(s, due, ts);
        NotWaiting(s, due[0]);
        NotReleasable(s, due[0]);
      }
      ReleaseCounts(ReleaseOne(s, due[0]), due[1..], ts);
    }
  }

  lemma NotReleasable(s: State, a: Addr)
    requires !Waiting(s, a)
    ensures !Releasable(s, a)
  {
  }

  // ----- deliveries that time out -----

  /** The messages whose delivery has passed its deadline. */
  ghost function ExpiredIds(s: State, ts: Time): set<Id> {
    set id | id in s.byId && Expired(PlaceOf(s, id), ts)
  }

  lemma ExpiredMeaning(s: State, ts: Time, id: Id)
    requires Inv(s)
    ensures id in ExpiredIds(s, ts) <==> Expired(PlaceOf(s, id), ts)
  {
    hide Inv, PlaceOf;
    PlaceMeaning(s, "", id);
  }

  lemma CurrentStored(s: State, e: Entry<Addr>)
    requires Inv(s) && Current(s, e)
    ensures e.item.id in s.queues[e.item.queue].messages
  {
    hide Inv;
    InflightPlace(s, e.item.queue, e.item.id);
  }

  lemma TimedOutIds(s: State, ts: Time, now: Time)
    requires Inv(s) && s.visibility != [] && s.visibility[0].key <= ts && now > 0 && s.cfg.baseDelay >= 0
    ensures
      var e := s.visibility[0];
      var s1 := TimeoutOne(s.(visibility := s.visibility[1..]), e, now);
      && Inv(s1) && s1.cfg == s.cfg
      && (if Current(s, e) then e.item.id in ExpiredIds(s, ts) && ExpiredIds(s1, ts) == ExpiredIds(s, ts) - {e.item.id}
          else ExpiredIds(s1, ts) == ExpiredIds(s, ts))
  {
    hide Inv, PlaceOf, TimeoutOne, Current, ExpiredIds, AfterFailure;
    var e := s.visibility[0];
    var s1 := TimeoutOne(s.(visibility := s.visibility[1..]), e, now);
    TimeoutStep(s, now);
    if Current(s, e) {
      CurrentPlace(s, e);
      FailedNotInflight(s, PlaceOf(s, e.item.id), now);
      ExpiredMeaning(s, ts, e.item.id);
    }
    forall x
      ensures x in ExpiredIds(s1, ts) <==> x in ExpiredIds(s, ts) && !(Current(s, e) && x == e.item.id)
    {
      ExpiredMeaning(s, ts, x);
      ExpiredMeaning(s1, ts, x);
    }
  }

  lemma NoneExpired(s: State, ts: Time)
    requires Inv(s) && (s.visibility == [] || s.visibility[0].key > ts)
    ensures ExpiredIds(s, ts) == {}
  {
    hide Inv, PlaceOf;
    forall id | id in s.byId
      ensures !Expired(PlaceOf(s, id), ts)
    {
      NothingDue(s, ts, id);
    }
  }

  lemma TimeoutCountNext(s: State, ts: Time, now: Time)
    requires s.visibility != [] && s.visibility[0].key <= ts
    ensures
      var e := s.visibility[0];
      var s1 := s.(visibility := s.visibility[1..]);
      && (Current(s1, e) <==> Current(s, e)) && TimeoutOne(s1, e, now).visibility == s1.visibility
      && TimeoutCount(s, ts, now) ==
         (if Current(s, e) && e.item.id in s.queues[e.item.queue].messages then 1 else 0)
         + TimeoutCount(TimeoutOne(s1, e, now), ts, now)
  {
    hide TimeoutOne;
    TimeoutKeepsHeap(s.(visibility := s.visibility[1..]), s.visibility[0], now);
  }

  lemma {:induction false} TimeoutCounts(s: State, ts: Time, now: Time)
    requires Inv(s) && now > 0 && s.cfg.baseDelay >= 0
    ensures TimeoutCount(s, ts, now) == |ExpiredIds(s, ts)|
    decreases |s.visibility|
  {
    hide Inv, TimeoutOne, Current, ExpiredIds, TimeoutCount;
    if s.visibility == [] || s.visibility[0].key > ts {
      NoneExpired(s, ts);
      NoTimeouts(s, ts, now);
    } else {
      var e := s.visibility[0];
      TimeoutCountNext(s, ts, now);
      TimedOutIds(s, ts, now);
      if Current(s, e) {
        CurrentStored(s, e);
      }
      TimeoutCounts(TimeoutOne(s.(visibility := s.visibility[1..]), e, now), ts, now);
    }
  }

  lemma NoTimeouts(s: State, ts: Time, now: Time)
    requires s.visibility == [] || s.visibility[0].key > ts
    ensures TimeoutCount(s, ts, now) == 0
  {
  }

  // ----- a tick -----

  lemma ReleaseKeepsExpired(s: State, ts: Time)
    requires Inv(s)
    ensures Inv(ReleaseDelayed(s, ts)) && ReleaseDelayed(s, ts).cfg == s.cfg
    ensures ExpiredIds(ReleaseDelayed(s, ts), ts) == ExpiredIds(s, ts)
  {
    hide Inv, PlaceOf, ReleaseDelayed, ExpiredIds;
    ReleaseDelayedPlace(s, ts, "");
    forall x
      ensures x in ExpiredIds(ReleaseDelayed(s, ts), ts) <==> x in ExpiredIds(s, ts)
    {
      ReleaseDelayedPlace(s, ts, x);
      ExpiredMeaning(s, ts, x);
      ExpiredMeaning(ReleaseDelayed(s, ts), ts, x);
    }
  }

  /** The number that a tick returns is the number of delayed messages that are due plus the number of
      deliveries past their deadline, however many outdated entries the heaps hold. */
  lemma TickCounted(s: State, ts: Time, now: Time)
    requires Inv(s) && now > 0 && s.cfg.baseDelay >= 0
    ensures TickCount(s, ts, now) == |DueIds(s, ts)| + |ExpiredIds(s, ts)|
  {
    hide Inv, InvDue, ReleaseCount, TimeoutCount, DueIds, ExpiredIds, PopDue, ReleaseDelayed;
    var (due, rest) := PopDue(s.delayed, ts);
    StartRelease(s, ts);
    ReleaseCounts(s.(delayed := rest), due, ts);
    HeapAside(s, rest, ts);
    ReleaseKeepsExpired(s, ts);
    TimeoutCounts(ReleaseDelayed(s, ts), ts, now);
  }

  lemma HeapAside(s: State, h: seq<Entry<Addr>>, ts: Time)
    ensures DueIds(s.(delayed := h), ts) == DueIds(s, ts)
  {
  }

  // ----- deliveries of a lost consumer -----

  /** Every listed delivery is counted. */
  lemma {:induction false} RecoverCounted(s: State, todo: seq<Addr>, now: Time, persist: bool)
    requires Inv(s) && AllInflight(s, todo) && now > 0 && s.cfg.baseDelay >= 0
    requires forall a :: a in todo ==> a.queue in s.queues
    ensures RecoverCount(s, todo, now, persist) == |todo|
    decreases |todo|
  {
    hide Inv, Expire;
    if todo != [] {
      var a := todo[0];
      ExpireKeepsQueues(s, a.queue, a.id, now, persist);
      InflightPlace(s, a.queue, a.id);
      ExpireInv(s, a.queue, a.id, now, persist);
      ExpireCfg(s, a.queue, a.id, now, persist);
      RestInflight(s, todo, now, persist);
      RecoverCounted(Expire(s, a.queue, a.id, now, persist), todo[1..], now, persist);
    }
  }

  /** A delivery whose message dies now, in a queue whose dead-letter queue is missing. */
  predicate Orphaned(s: State, a: Addr) {
    && a.queue in s.queues && a.id in s.queues[a.queue].messages
    && s.queues[a.queue].messages[a.id].attempts + 1 >= s.queues[a.queue].messages[a.id].maxAttempts
    && s.queues[a.queue].spec.deadLetter && DlqName(a.queue) !in s.queues
  }

  lemma MoveGrows(s: State, n: QName, m: Message, persist: bool)
    requires n in s.queues
    ensures MoveToDlq(s, n, m, persist).queues.Keys ==
            if s.queues[n].spec.deadLetter then s.queues.Keys + {DlqName(n)} else s.queues.Keys
  {
    hide Push, IsDlq, DlqName;
    if s.queues[n].spec.deadLetter {
      DlqDeclareKeys(Remove(s, n, m, persist), n);
    }
  }

  lemma DlqDeclareKeys(s: State, n: QName)
    ensures Declare(s, DlqName(n), DEFAULT_ARGS.(deadLetter := false), false).queues.Keys == s.queues.Keys + {DlqName(n)}
  {
    hide IsDlq;
  }

  lemma ExpireGrows(s: State, a: Addr, now: Time, persist: bool)
    requires a.queue in s.queues
    ensures Expire(s, a.queue, a.id, now, persist).queues.Keys != s.queues.Keys <==> Orphaned(s, a)
  {
    hide MoveToDlq, Push, RetryDelay, IsDlq, DlqName;
    var q := TakeBack(s.queues[a.queue], a.id);
    if a.id in q.messages {
      var m := q.messages[a.id];
      MoveGrows(SetQueue(s, a.queue, q), a.queue, m.(attempts := m.attempts + 1), persist);
    }
  }

  lemma RecoverKeeps(s: State, todo: seq<Addr>, now: Time, persist: bool)
    requires forall a :: a in todo ==> a.queue in s.queues
    ensures s.queues.Keys <= Recover(s, todo, now, persist).queues.Keys
    decreases |todo|
  {
    hide Expire;
    if todo != [] {
      ExpireKeepsQueues(s, todo[0].queue, todo[0].id, now, persist);
      RecoverKeeps(Expire(s, todo[0].queue, todo[0].id, now, persist), todo[1..], now, persist);
    }
  }

  lemma OrphanedSame(s: State, todo: seq<Addr>, b: Addr, now: Time, persist: bool)
    requires Inv(s) && AllInflight(s, todo) && todo != [] && b in todo[1..] && now > 0 && s.cfg.baseDelay >= 0
    requires Expire(s, todo[0].queue, todo[0].id, now, persist).queues.Keys == s.queues.Keys
    ensures Orphaned(Expire(s, todo[0].queue, todo[0].id, now, persist), b) <==> Orphaned(s, b)
  {
    hide Inv, Expire, PlaceOf, DlqName;
    var a := todo[0];
    var s1 := Expire(s, a.queue, a.id, now, persist);
    assert b in todo;
    ExpireInv(s, a.queue, a.id, now, persist);
    ExpirePlace(s, a.queue, a.id, now, persist);
    ExpireSpecs(s, a.queue, a.id, now, persist);
    RestInflight(s, todo, now, persist);
    ListedOnce(s, todo);
    InflightPlace(s, b.queue, b.id);
    InflightPlace(s1, b.queue, b.id);
  }

  /** The queue map grows, so that recover_consumer raises an error, if and only if one of the deliveries is of
      a message that dies now in a queue whose dead-letter queue is missing. */
  lemma {:induction false} RecoverGrows(s: State, todo: seq<Addr>, now: Time, persist: bool)
    requires Inv(s) && AllInflight(s, todo) && now > 0 && s.cfg.baseDelay >= 0
    requires forall a :: a in todo ==> a.queue in s.queues
    ensures Recover(s, todo, now, persist).queues.Keys != s.queues.Keys <==> exists a :: a in todo && Orphaned(s, a)
    decreases |todo|
  {
    hide Inv, Expire, Orphaned;
    if todo != [] {
      var a := todo[0];
      var s1 := Expire(s, a.queue, a.id, now, persist);
      ExpireKeepsQueues(s, a.queue, a.id, now, persist);
      ExpireInv(s, a.queue, a.id, now, persist);
      ExpireCfg(s, a.queue, a.id, now, persist);
      RestInflight(s, todo, now, persist);
      ExpireGrows(s, a, now, persist);
      if Orphaned(s, a) {
        RecoverKeeps(s1, todo[1..], now, persist);
      } else {
        RecoverGrows(s1, todo[1..], now, persist);
        forall b | b in todo[1..]
          ensures Orphaned(s1, b) <==> Orphaned(s, b)
        {
          OrphanedSame(s, todo, b, now, persist);
        }
        assert todo == [a] + todo[1..];
      }
    }
  }
}
