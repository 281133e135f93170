/** What every counter of every queue counts: over any run it is the number of the events, or of the messages that
    the events moved, that it is named after. */
module Counters {
  import opened Types
  import opened DlqNames
  import opened Heaps
  import opened Backoffs
  import opened Engine
  import opened Index
  import opened Partition
  import opened Invariant
  import opened InvariantOps
  import opened Places
  import opened Ticks
  import opened Requeue
  import opened Runs

  const NOTHING := Stats(0, 0, 0, 0, 0, 0)

  function Plus(a: Stats, b: Stats): Stats {
    Stats(a.published + b.published, a.delivered + b.delivered, a.acked + b.acked, a.nacked + b.nacked,
          a.retried + b.retried, a.dead + b.dead)
  }

  /** A queue that is not there has counted nothing, and holds nothing. */
  function StatsAt(s: State, n: QName): Stats {
    if n in s.queues then s.queues[n].stats else NOTHING
  }

  function StoredAt(s: State, n: QName): set<Id> {
    if n in s.queues then s.queues[n].messages.Keys else {}
  }

  function InflightAt(s: State, n: QName): set<Id> {
    if n in s.queues then s.queues[n].inflight.Keys else {}
  }

  function DelayedAt(s: State, n: QName): set<Id> {
    if n in s.queues then s.queues[n].delayedIds else {}
  }

  // ----- what one event moves -----

  /** The messages that the queue stores now and did not store before. */
  function Arrived(s: State, s': State, n: QName): set<Id> {
    StoredAt(s', n) - StoredAt(s, n)
  }

  /** The messages that were in flight in the queue and are delayed in it now. */
  function Retried(s: State, s': State, n: QName): set<Id> {
    InflightAt(s, n) * DelayedAt(s', n)
  }

  /** The messages that were in flight in the queue and have left it. */
  function Departed(s: State, s': State, n: QName): set<Id> {
    InflightAt(s, n) - StoredAt(s', n)
  }

  /** What an event adds to the counters of a queue. A requeue counts as a publish to the origin, even if that is
      the dead-letter queue itself; a message that was acknowledged has not died. */
  ghost function Tally(s: State, ev: Event, n: QName): Stats
    requires Callable(s, ev.op)
  {
    var s' := Step(s, ev);
    Stats(
      published :=
        if ev.op.DoRequeue? then
          (if OriginQueue(ev.op.name) == n && DlqRequeue(s, ev.op.name, ev.op.id, ev.now, true).1 then 1 else 0)
        else |Arrived(s, s', n)|,
      delivered :=
        if ev.op.DoReserve? && ev.op.queue == n && Reserve(s, n, ev.op.consumer, ev.now).1.Some? then 1 else 0,
      acked :=
        if ev.op.DoAck? && ev.op.id in StoredAt(s, n) && Ack(s, ev.op.id, true).1 == AckOk then 1 else 0,
      nacked :=
        if ev.op.DoNack? && ev.op.id in StoredAt(s, n) && Nack(s, ev.op.id, ev.op.requeue, ev.now, true).1 == NackOk then 1
        else 0,
      retried := |Retried(s, s', n)|,
      dead := if ev.op.DoAck? then 0 else |Departed(s, s', n)|)
  }

  // ----- one message moves -----

  lemma PlaceSets(s: State, n: QName, id: Id)
    requires Inv(s)
    ensures id in StoredAt(s, n) <==> PlaceOf(s, id) != Gone && PlaceOf(s, id).queue == n
    ensures id in InflightAt(s, n) <==> PlaceOf(s, id).InflightIn? && PlaceOf(s, id).queue == n
    ensures id in DelayedAt(s, n) <==> PlaceOf(s, id).DelayedIn? && PlaceOf(s, id).queue == n
  {
    hide Inv, PlaceOf;
    PlaceMeaning(s, n, id);
    PlaceQueue(s, id);
  }

  /** If one message moved, the sets are about it alone. */
  lemma OneMoved(s: State, s': State, id: Id, n: QName)
    requires Inv(s) && Inv(s') && SameElsewhere(s, s', id)
    ensures
      var (p, p') := (PlaceOf(s, id), PlaceOf(s', id));
      && Arrived(s, s', n) == (if p' != Gone && p'.queue == n && (p == Gone || p.queue != n) then {id} else {})
      && Retried(s, s', n) == (if p.InflightIn? && p.queue == n && p'.DelayedIn? && p'.queue == n then {id} else {})
      && Departed(s, s', n) == (if p.InflightIn? && p.queue == n && (p' == Gone || p'.queue != n) then {id} else {})
  {
    hide Inv, PlaceOf, StoredAt, InflightAt, DelayedAt;
    forall x
      ensures x in Arrived(s, s', n) ==> x == id
      ensures x in Retried(s, s', n) ==> x == id
      ensures x in Departed(s, s', n) ==> x == id
    {
      PlaceSets(s, n, x);
      PlaceSets(s', n, x);
    }
    PlaceSets(s, n, id);
    PlaceSets(s', n, id);
  }

  /** A queue that did not change moved nothing. */
  lemma NothingMoved(s: State, s': State, n: QName)
    requires Inv(s) && n in s'.queues
    requires n in s.queues ==>
      && s'.queues[n].messages.Keys == s.queues[n].messages.Keys && s'.queues[n].inflight.Keys == s.queues[n].inflight.Keys
      && s'.queues[n].delayedIds <= s.queues[n].delayedIds
    requires n !in s.queues ==> s'.queues[n].messages == map[]
    ensures Arrived(s, s', n) == {} && Retried(s, s', n) == {} && Departed(s, s', n) == {}
  {
    hide HeapsOk, TablesAgree, Items, HeapOk, DeliveriesOk, TimesOk;
    if n in s.queues {
      assert QueueOk(n, s.queues[n]);
    }
  }

  /** What losing deliveries adds. */
  function Losses(s: State, s': State, n: QName): Stats {
    Stats(|Arrived(s, s', n)|, 0, 0, 0, |Retried(s, s', n)|, |Departed(s, s', n)|)
  }

  ghost predicate Losing(s: State, s': State) {
    forall n :: n in s'.queues ==> s'.queues[n].stats == Plus(StatsAt(s, n), Losses(s, s', n))
  }

  // ----- a delivery that fails -----

  /** What a failed or refused delivery adds to the counters. */
  function FailureCounts(queues: map<QName, Queue>, n: QName, dies: bool, x: QName): Stats
    requires n in queues
  {
    Stats(if dies && queues[n].spec.deadLetter && x == DlqName(n) then 1 else 0, 0, 0, 0,
          if !dies && x == n then 1 else 0, if dies && x == n then 1 else 0)
  }

  lemma RemoveCounts(s: State, n: QName, m: Message, persist: bool, x: QName)
    requires n in s.queues
    ensures StatsAt(Remove(s, n, m, persist), x) == Plus(StatsAt(s, x), NOTHING.(dead := if x == n then 1 else 0))
    ensures forall y :: y in Remove(s, n, m, persist).queues <==> y in s.queues
  {
  }

  lemma LayCounts(s: State, m: Message, x: QName)
    requires m.queue in s.queues
    ensures StatsAt(Lay(s, m), x) == Plus(StatsAt(s, x), NOTHING.(published := if x == m.queue then 1 else 0))
  {
    hide Push;
  }

  lemma DeclaredCounts(s: State, n: QName, x: QName)
    ensures StatsAt(Declare(s, DlqName(n), DEFAULT_ARGS.(deadLetter := false), false), x) == StatsAt(s, x)
    ensures DlqName(n) in Declare(s, DlqName(n), DEFAULT_ARGS.(deadLetter := false), false).queues
  {
    hide Declare, IsDlq;
    DlqDeclared(s, n);
  }

  lemma MoveCounts(s: State, n: QName, m: Message, persist: bool, x: QName)
    requires n in s.queues && (s.queues[n].spec.deadLetter ==> !IsDlq(n)) && x in MoveToDlq(s, n, m, persist).queues
    ensures MoveToDlq(s, n, m, persist).queues[x].stats == Plus(StatsAt(s, x), FailureCounts(s.queues, n, true, x))
  {
    hide Push, IsDlq, Declare, Remove, Lay, StatsAt;
    RemoveCounts(s, n, m, persist, x);
    if s.queues[n].spec.deadLetter {
      var s1 := Remove(s, n, m, persist);
      DeclaredCounts(s1, n, x);
      LayCounts(Declare(s1, DlqName(n), DEFAULT_ARGS.(deadLetter := false), false), DeadMessage(m, n), x);
      DlqNameDiffers(n);
    }
    StatsIn(MoveToDlq(s, n, m, persist), x);
  }

  lemma DlqNameDiffers(n: QName)
    requires !IsDlq(n)
    ensures DlqName(n) != n
  {
  }

  lemma StatsIn(s: State, n: QName)
    requires n in s.queues
    ensures StatsAt(s, n) == s.queues[n].stats
  {
  }

  lemma DlqDeclared(s: State, n: QName)
    ensures
      var s' := Declare(s, DlqName(n), DEFAULT_ARGS.(deadLetter := false), false);
      && (forall x :: x in s'.queues <==> x in s.queues || x == DlqName(n))
      && (forall x :: x in s.queues ==> s'.queues[x] == s.queues[x])
      && (DlqName(n) !in s.queues ==> s'.queues[DlqName(n)].stats == NOTHING)
  {
    hide IsDlq;
  }

  lemma RetryOrDeadCounts(s: State, n: QName, m: Message, now: Time, persist: bool, x: QName)
    requires n in s.queues && (s.queues[n].spec.deadLetter ==> !IsDlq(n)) && x in RetryOrDead(s, n, m, now, persist).queues
    ensures RetryOrDead(s, n, m, now, persist).queues[x].stats ==
            Plus(StatsAt(s, x), FailureCounts(s.queues, n, m.attempts + 1 >= m.maxAttempts, x))
  {
    hide MoveToDlq, IsDlq, RetryDelay, Push;
    var m1 := m.(attempts := m.attempts + 1);
    if m1.attempts >= m1.maxAttempts {
      MoveCounts(s, n, m1, persist, x);
    }
  }

  lemma ExpireCounts(s: State, n: QName, id: Id, now: Time, persist: bool, x: QName)
    requires Inv(s) && n in s.queues && id in s.queues[n].inflight && x in Expire(s, n, id, now, persist).queues
    ensures Holds(s, n, id)
    ensures
      var m := s.queues[n].messages[id];
      Expire(s, n, id, now, persist).queues[x].stats ==
      Plus(StatsAt(s, x), FailureCounts(s.queues, n, m.attempts + 1 >= m.maxAttempts, x))
  {
    hide PartsOk, HeapsOk, TablesAgree, RetryOrDead, IsDlq;
    InflightStored(s, n, id);
    SpecIndex(s, n);
    var s1 := SetQueue(s, n, TakeBack(s.queues[n], id));
    RetryOrDeadCounts(s1, n, s.queues[n].messages[id], now, persist, x);
  }

  lemma InflightStored(s: State, n: QName, id: Id)
    requires Inv(s) && n in s.queues && id in s.queues[n].inflight
    ensures Holds(s, n, id)
    ensures PlaceOf(s, id) == InflightIn(n, s.queues[n].messages[id], s.queues[n].inflight[id])
  {
    hide Inv, PlaceOf;
    PlaceMeaning(s, n, id);
  }

  /** The counts of a failure are those of the message that moved. */
  lemma FailureMoved(s: State, s': State, n: QName, id: Id, dies: bool, x: QName)
    requires Inv(s) && Inv(s') && SameElsewhere(s, s', id) && n in s.queues && id in s.queues[n].inflight
    requires
      var p' := PlaceOf(s', id);
      if !dies then p'.DelayedIn? && p'.queue == n
      else if s.queues[n].spec.deadLetter then p'.ReadyIn? && p'.queue == DlqName(n) else p' == Gone
    ensures Losses(s, s', x) == FailureCounts(s.queues, n, dies, x)
  {
    InflightStored(s, n, id);
    SpecIndex(s, n);
    OneMoved(s, s', id, x);
    hide Inv, PlaceOf, Arrived, Retried, Departed, IsDlq, SameElsewhere;
  }

  lemma ExpireLosing(s: State, n: QName, id: Id, now: Time, persist: bool)
    requires Inv(s) && n in s.queues && id in s.queues[n].inflight && now > 0 && s.cfg.baseDelay >= 0
    ensures Losing(s, Expire(s, n, id, now, persist))
  {
    hide Inv, PlaceOf, Expire, Losses, SameElsewhere, RetryDelay, DlqName, StatsAt, Plus, FailureCounts;
    var s' := Expire(s, n, id, now, persist);
    ExpireInv(s, n, id, now, persist);
    ExpirePlace(s, n, id, now, persist);
    var m := s.queues[n].messages[id];
    forall x | x in s'.queues
      ensures s'.queues[x].stats == Plus(StatsAt(s, x), Losses(s, s', x))
    {
      ExpireCounts(s, n, id, now, persist, x);
      FailureMoved(s, s', n, id, m.attempts + 1 >= m.maxAttempts, x);
    }
  }

  // ----- several deliveries that fail -----

  /** Messages that are not in flight stay where they are. */
  ghost predicate Resting(s: State, s': State) {
    forall x :: !PlaceOf(s, x).InflightIn? ==> PlaceOf(s', x) == PlaceOf(s, x)
  }

  lemma SizeAdd(a: set<Id>, b: set<Id>, c: set<Id>)
    requires forall x :: x in a <==> x in b || x in c
    requires forall x :: !(x in b && x in c)
    ensures |a| == |b| + |c|
  {
    assert a == b + c;
  }

  /** First the delivery of a message fails, then others do: each message is counted once. */
  lemma CountedOnce(a: State, b: State, c: State, id: Id, n: QName, x: Id)
    requires Inv(a) && Inv(b) && Inv(c) && SameElsewhere(a, b, id) && Resting(b, c)
    requires PlaceOf(a, id).InflightIn? && !PlaceOf(b, id).InflightIn?
    ensures x in Arrived(a, c, n) <==> x in Arrived(a, b, n) || x in Arrived(b, c, n)
    ensures x in Retried(a, c, n) <==> x in Retried(a, b, n) || x in Retried(b, c, n)
    ensures x in Departed(a, c, n) <==> x in Departed(a, b, n) || x in Departed(b, c, n)
    ensures !(x in Arrived(a, b, n) && x in Arrived(b, c, n)) && !(x in Retried(a, b, n) && x in Retried(b, c, n))
    ensures !(x in Departed(a, b, n) && x in Departed(b, c, n))
  {
    hide Inv, PlaceOf, StoredAt, InflightAt, DelayedAt;
    PlaceSets(a, n, x);
    PlaceSets(b, n, x);
    PlaceSets(c, n, x);
  }

  lemma ArrivedAdd(a: State, b: State, c: State, id: Id, n: QName)
    requires Inv(a) && Inv(b) && Inv(c) && SameElsewhere(a, b, id) && Resting(b, c)
    requires PlaceOf(a, id).InflightIn? && !PlaceOf(b, id).InflightIn?
    ensures |Arrived(a, c, n)| == |Arrived(a, b, n)| + |Arrived(b, c, n)|
  {
    hide Inv, PlaceOf, Arrived, Retried, Departed, SameElsewhere, Resting;
    forall x: Id
      ensures x in Arrived(a, c, n) <==> x in Arrived(a, b, n) || x in Arrived(b, c, n)
      ensures !(x in Arrived(a, b, n) && x in Arrived(b, c, n))
    {
      CountedOnce(a, b, c, id, n, x);
    }
    SizeAdd(Arrived(a, c, n), Arrived(a, b, n), Arrived(b, c, n));
  }

  lemma RetriedAdd(a: State, b: State, c: State, id: Id, n: QName)
    requires Inv(a) && Inv(b) && Inv(c) && SameElsewhere(a, b, id) && Resting(b, c)
    requires PlaceOf(a, id).InflightIn? && !PlaceOf(b, id).InflightIn?
    ensures |Retried(a, c, n)| == |Retried(a, b, n)| + |Retried(b, c, n)|
  {
    hide Inv, PlaceOf, Arrived, Retried, Departed, SameElsewhere, Resting;
    forall x: Id
      ensures x in Retried(a, c, n) <==> x in Retried(a, b, n) || x in Retried(b, c, n)
      ensures !(x in Retried(a, b, n) && x in Retried(b, c, n))
    {
      CountedOnce(a, b, c, id, n, x);
    }
    SizeAdd(Retried(a, c, n), Retried(a, b, n), Retried(b, c, n));
  }

  lemma DepartedAdd(a: State, b: State, c: State, id: Id, n: QName)
    requires Inv(a) && Inv(b) && Inv(c) && SameElsewhere(a, b, id) && Resting(b, c)
    requires PlaceOf(a, id).InflightIn? && !PlaceOf(b, id).InflightIn?
    ensures |Departed(a, c, n)| == |Departed(a, b, n)| + |Departed(b, c, n)|
  {
    hide Inv, PlaceOf, Arrived, Retried, Departed, SameElsewhere, Resting;
    forall x: Id
      ensures x in Departed(a, c, n) <==> x in Departed(a, b, n) || x in Departed(b, c, n)
      ensures !(x in Departed(a, b, n) && x in Departed(b, c, n))
    {
      CountedOnce(a, b, c, id, n, x);
    }
    SizeAdd(Departed(a, c, n), Departed(a, b, n), Departed(b, c, n));
  }

  lemma LossesAdd(a: State, b: State, c: State, id: Id, n: QName)
    requires Inv(a) && Inv(b) && Inv(c) && SameElsewhere(a, b, id) && Resting(b, c)
    requires PlaceOf(a, id).InflightIn? && !PlaceOf(b, id).InflightIn?
    ensures Losses(a, c, n) == Plus(Losses(a, b, n), Losses(b, c, n))
  {
    hide Inv, PlaceOf, Arrived, Retried, Departed, SameElsewhere, Resting;
    ArrivedAdd(a, b, c, id, n);
    RetriedAdd(a, b, c, id, n);
    DepartedAdd(a, b, c, id, n);
  }

  lemma PlusAssoc(a: Stats, b: Stats, c: Stats)
    ensures Plus(Plus(a, b), c) == Plus(a, Plus(b, c)) && Plus(a, NOTHING) == a
  {
  }

  lemma LosingThen(a: State, b: State, c: State, id: Id)
    requires Inv(a) && Inv(b) && Inv(c) && SameElsewhere(a, b, id) && Resting(b, c)
    requires PlaceOf(a, id).InflightIn? && !PlaceOf(b, id).InflightIn?
    requires Losing(a, b) && Losing(b, c) && a.queues.Keys <= b.queues.Keys
    ensures Losing(a, c)
  {
    hide Inv, PlaceOf, SameElsewhere, Resting, Losses, Plus;
    forall n | n in c.queues
      ensures c.queues[n].stats == Plus(StatsAt(a, n), Losses(a, c, n))
    {
      LossesAdd(a, b, c, id, n);
      StatsBetween(a, b, n);
      PlusAssoc(StatsAt(a, n), Losses(a, b, n), Losses(b, c, n));
    }
  }

  lemma StatsBetween(a: State, b: State, n: QName)
    requires Losing(a, b) && a.queues.Keys <= b.queues.Keys
    ensures StatsAt(b, n) == Plus(StatsAt(a, n), Losses(a, b, n))
  {
    hide Losses, Plus, StatsAt, Losing;
    if n in b.queues {
      LosingAt(a, b, n);
    } else {
      assert n !in a.queues.Keys;
      NothingBetween(a, b, n);
    }
  }

  lemma NothingBetween(a: State, b: State, n: QName)
    requires n !in a.queues && n !in b.queues
    ensures StatsAt(b, n) == Plus(StatsAt(a, n), Losses(a, b, n))
  {
    hide Losses, Plus, StatsAt;
    NoLosses(a, b, n);
    NoStats(a, n);
    NoStats(b, n);
    PlusAssoc(NOTHING, NOTHING, NOTHING);
  }

  lemma NoStats(s: State, n: QName)
    requires n !in s.queues
    ensures StatsAt(s, n) == NOTHING
  {
  }

  lemma LosingAt(a: State, b: State, n: QName)
    requires Losing(a, b) && n in b.queues
    ensures StatsAt(b, n) == Plus(StatsAt(a, n), Losses(a, b, n))
  {
    hide Losses, Plus;
  }

  lemma NoLosses(s: State, s': State, n: QName)
    requires n !in s.queues && n !in s'.queues
    ensures Losses(s, s', n) == NOTHING
  {
  }

  lemma LosingItself(s: State)
    requires Inv(s)
    ensures Losing(s, s)
  {
    hide Inv, Arrived, Retried, Departed;
    forall n | n in s.queues
      ensures Losses(s, s, n) == NOTHING
    {
      NothingMoved(s, s, n);
    }
  }

  lemma {:induction false} RecoverLosing(s: State, todo: seq<Addr>, now: Time, persist: bool)
    requires Inv(s) && AllInflight(s, todo) && now > 0 && s.cfg.baseDelay >= 0
    ensures Losing(s, Recover(s, todo, now, persist))
    decreases |todo|
  {
    hide Inv, Expire, PlaceOf, Losing, Resting, SameElsewhere, AfterFailure, Holds;
    if todo == [] {
      LosingItself(s);
    } else {
      var a := todo[0];
      var s1 := Expire(s, a.queue, a.id, now, persist);
      ExpireKeepsQueues(s, a.queue, a.id, now, persist);
      ExpireInv(s, a.queue, a.id, now, persist);
      ExpireCfg(s, a.queue, a.id, now, persist);
      RestInflight(s, todo, now, persist);
      ExpireLosing(s, a.queue, a.id, now, persist);
      RecoverLosing(s1, todo[1..], now, persist);
      RecoverInv(s1, todo[1..], now, persist);
      RecoverRests(s1, todo[1..], now, persist);
      InflightStored(s, a.queue, a.id);
      ExpirePlace(s, a.queue, a.id, now, persist);
      FailedNotInflight(s, PlaceOf(s, a.id), now);
      LosingThen(s, s1, Recover(s1, todo[1..], now, persist), a.id);
    }
  }

  lemma RecoverRests(s: State, todo: seq<Addr>, now: Time, persist: bool)
    requires Inv(s) && AllInflight(s, todo) && now > 0 && s.cfg.baseDelay >= 0
    ensures Resting(s, Recover(s, todo, now, persist))
  {
    hide Inv, PlaceOf, Recover, AfterFailure;
    forall x | !PlaceOf(s, x).InflightIn?
      ensures PlaceOf(Recover(s, todo, now, persist), x) == PlaceOf(s, x)
    {
      RecoverPlace(s, todo, now, persist, x);
    }
  }

  lemma TimeoutRests(s: State, ts: Time, now: Time)
    requires Inv(s) && now > 0 && s.cfg.baseDelay >= 0
    ensures Resting(s, TimeoutInflight(s, ts, now))
  {
    hide Inv, PlaceOf, TimeoutInflight, AfterFailure;
    forall x | !PlaceOf(s, x).InflightIn?
      ensures PlaceOf(TimeoutInflight(s, ts, now), x) == PlaceOf(s, x)
    {
      TimeoutPlace(s, ts, now, x);
    }
  }

  lemma HeapAside(s: State, s1: State, s': State)
    requires Losing(s1, s') && s1.queues == s.queues
    ensures Losing(s, s')
  {
  }

  lemma {:induction false} TimeoutLosing(s: State, ts: Time, now: Time)
    requires Inv(s) && now > 0 && s.cfg.baseDelay >= 0
    ensures Losing(s, TimeoutInflight(s, ts, now))
    decreases |s.visibility|
  {
    hide Inv, Expire, PlaceOf, Losing, Resting, SameElsewhere, AfterFailure;
    if s.visibility == [] || s.visibility[0].key > ts {
      LosingItself(s);
    } else {
      var e := s.visibility[0];
      var h := s.visibility[1..];
      var s1 := TimeoutOne(s.(visibility := h), e, now);
      TimeoutKeepsHeap(s.(visibility := h), e, now);
      TimeoutStep(s, now);
      TimeoutLosing(s1, ts, now);
      if Current(s, e) {
        TimeoutFirst(s, ts, now);
      } else {
        HeapAside(s, s1, TimeoutInflight(s1, ts, now));
      }
    }
  }

  lemma TimeoutFirst(s: State, ts: Time, now: Time)
    requires Inv(s) && now > 0 && s.cfg.baseDelay >= 0 && s.visibility != [] && s.visibility[0].key <= ts
    requires Current(s, s.visibility[0])
    requires
      var s1 := TimeoutOne(s.(visibility := s.visibility[1..]), s.visibility[0], now);
      Losing(s1, TimeoutInflight(s1, ts, now))
    ensures
      var s1 := TimeoutOne(s.(visibility := s.visibility[1..]), s.visibility[0], now);
      Losing(s, TimeoutInflight(s1, ts, now))
  {
    hide Inv, Expire, PlaceOf, Losing, Resting, AfterFailure, TimeoutInflight;
    var e := s.visibility[0];
    var h := s.visibility[1..];
    var s1 := TimeoutOne(s.(visibility := h), e, now);
    var id := e.item.id;
    TimeoutStep(s, now);
    ExpireLosing(s, e.item.queue, id, now, true);
    ExpireHeap(s, h, e.item.queue, id, now, true);
    ExpireKeepsQueues(s, e.item.queue, id, now, true);
    SameCounts(s, Expire(s, e.item.queue, id, now, true), s1);
    InflightStored(s, e.item.queue, id);
    FailedNotInflight(s, PlaceOf(s, id), now);
    TimeoutRests(s1, ts, now);
    TimeoutPlace(s1, ts, now, id);
    LosingThen(s, s1, TimeoutInflight(s1, ts, now), id);
  }

  lemma SameCounts(s: State, s1: State, s2: State)
    requires Losing(s, s1) && s2.queues == s1.queues
    ensures Losing(s, s2)
  {
  }

  // ----- a tick -----

  /** The same queues with the same deliveries, messages and counters. */
  ghost predicate SameBooks(s: State, s': State) {
    && s'.queues.Keys == s.queues.Keys
    && forall n :: n in s.queues && n in s'.queues ==>
         && s'.queues[n].messages.Keys == s.queues[n].messages.Keys
         && s'.queues[n].inflight == s.queues[n].inflight && s'.queues[n].stats == s.queues[n].stats
  }

  lemma ReleaseOneBooks(s: State, a: Addr)
    ensures IndexOk(s) ==> SameBooks(s, ReleaseOne(s, a))
  {
    hide Push, TablesAgree;
    if IndexOk(s) && Waiting(s, a) && a.id in s.queues[a.queue].messages {
      IndexAt(s, a.queue, a.id);
      var m := s.queues[a.queue].messages[a.id].(availableAt := None);
      assert s.queues[a.queue].messages[m.id := m].Keys == s.queues[a.queue].messages.Keys;
    }
    assert ReleaseOne(s, a).queues.Keys == s.queues.Keys;
  }

  lemma BooksTrans(a: State, b: State, c: State)
    requires SameBooks(a, b) && SameBooks(b, c)
    ensures SameBooks(a, c)
  {
  }

  lemma {:induction false} ReleaseBooks(s: State, due: seq<Addr>)
    requires IndexOk(s)
    ensures SameBooks(s, ReleaseAll(s, due))
    decreases |due|
  {
    hide ReleaseOne, SameBooks, IndexOk;
    if due == [] {
      BooksItself(s);
    } else {
      ReleaseOneBooks(s, due[0]);
      ReleaseOneIndex(s, due[0]);
      ReleaseBooks(ReleaseOne(s, due[0]), due[1..]);
      BooksTrans(s, ReleaseOne(s, due[0]), ReleaseAll(s, due));
    }
  }

  lemma BooksItself(s: State)
    ensures SameBooks(s, s)
  {
  }

  lemma BooksLosing(s: State, s1: State, s': State)
    requires SameBooks(s, s1) && Losing(s1, s')
    ensures Losing(s, s')
  {
    forall n
      ensures StatsAt(s1, n) == StatsAt(s, n) && StoredAt(s1, n) == StoredAt(s, n) && InflightAt(s1, n) == InflightAt(s, n)
    {
      assert n in s1.queues.Keys <==> n in s.queues.Keys;
    }
  }

  lemma TickLosing(s: State, ts: Time, now: Time)
    requires Inv(s) && now > 0 && s.cfg.baseDelay >= 0
    ensures Losing(s, Tick(s, ts, now))
  {
    hide Inv, Losing, TimeoutInflight, ReleaseAll, PopDue, PlaceOf, SameBooks;
    var (due, rest) := PopDue(s.delayed, ts);
    InvIndex(s);
    ReleaseBooks(s.(delayed := rest), due);
    ReleaseDelayedPlace(s, ts, "");
    TimeoutLosing(ReleaseDelayed(s, ts), ts, now);
    BooksLosing(s.(delayed := rest), ReleaseDelayed(s, ts), Tick(s, ts, now));
    HeapAside(s, s.(delayed := rest), Tick(s, ts, now));
  }

  // ----- every event -----

  /** The counters of a queue after an event. */
  ghost predicate Counts(s: State, ev: Event, n: QName)
    requires Callable(s, ev.op)
  {
    n in Step(s, ev).queues ==> Step(s, ev).queues[n].stats == Plus(StatsAt(s, n), Tally(s, ev, n))
  }

  lemma DeclareCounts(s: State, n: QName, a: DeclareArgs, x: QName)
    ensures
      var s' := Declare(s, n, a, true);
      x in s'.queues ==> if x in s.queues then s'.queues[x] == s.queues[x]
                         else s'.queues[x].messages == map[] && s'.queues[x].stats == NOTHING
    decreases if IsDlq(n) then 0 else 1
  {
    hide IsDlq;
    if n !in s.queues {
      var spec := MakeSpec(s.cfg, n, a);
      if spec.deadLetter {
        DeclareCounts(SetQueue(s, n, NewQueue(spec)), DlqName(n), DlqArgs(spec), x);
      }
    }
  }

  lemma EnqueueCounts(s: State, m: Message, now: Time, persist: bool, x: QName)
    ensures
      var (s', r) := Enqueue(s, m, now, persist);
      && (r != EnqueueOk ==> s' == s)
      && (x in s'.queues <==> x in s.queues)
      && (x in s.queues ==>
            s'.queues[x].stats ==
            Plus(s.queues[x].stats, NOTHING.(published := if r == EnqueueOk && x == m.queue then 1 else 0)))
  {
    hide Push, Later, Stored, Full;
  }

  /** The sets of an event that moved one message, or none. */
  lemma NoneMoved(s: State, n: QName)
    requires Inv(s)
    ensures Arrived(s, s, n) == {} && Retried(s, s, n) == {} && Departed(s, s, n) == {}
  {
    hide Inv;
    if n in s.queues {
      NothingMoved(s, s, n);
    }
  }

  lemma PublishTally(s: State, m: Message, now: Time, n: QName)
    requires Inv(s) && Fresh(s, m.id) && now > 0
    ensures
      var ok := Enqueue(s, m, now, true).1 == EnqueueOk;
      Tally(s, Event(DoPublish(m), now), n) == NOTHING.(published := if ok && n == m.queue then 1 else 0)
  {
    hide Inv, Fresh, PlaceOf, Enqueue, SameElsewhere, Later, Arrived, Retried, Departed;
    var (s', r) := Enqueue(s, m, now, true);
    EnqueueCounts(s, m, now, true, n);
    if r == EnqueueOk {
      EnqueueInv(s, m, now, true);
      EnqueuePlace(s, m, now, true);
      OneMoved(s, s', m.id, n);
    } else {
      NoneMoved(s, n);
    }
  }

  lemma PublishCounts(s: State, m: Message, now: Time, n: QName)
    requires Inv(s) && Fresh(s, m.id) && now > 0
    ensures Counts(s, Event(DoPublish(m), now), n)
  {
    hide Inv, Fresh, Enqueue, Tally, Plus;
    PublishTally(s, m, now, n);
    EnqueueCounts(s, m, now, true, n);
  }

  lemma ReserveStats(s: State, n: QName, c: ConsumerId, now: Time, x: QName)
    ensures
      var (s', r) := Reserve(s, n, c, now);
      && (x in s'.queues <==> x in s.queues)
      && (x in s.queues ==>
            s'.queues[x].stats == Plus(s.queues[x].stats, NOTHING.(delivered := if r.Some? && x == n then 1 else 0)))
    decreases if n in s.queues then |s.queues[n].ready| else 0
  {
    hide Push;
    if n in s.queues && s.queues[n].ready != [] {
      var q := PopReady(s.queues[n]);
      if Stale(q, s.queues[n].ready[0].item) {
        ReserveStats(SetQueue(s, n, q), n, c, now, x);
      }
    }
  }

  lemma ReserveTally(s: State, n: QName, c: ConsumerId, now: Time, x: QName)
    requires Inv(s)
    ensures Tally(s, Event(DoReserve(n, c), now), x) ==
            NOTHING.(delivered := if Reserve(s, n, c, now).1.Some? && x == n then 1 else 0)
  {
    hide Inv, PlaceOf, Reserve, SameElsewhere, Arrived, Retried, Departed, Items;
    var (s', r) := Reserve(s, n, c, now);
    ReservePlace(s, n, c, now);
    if r.Some? {
      ReserveInv(s, n, c, now);
      OneMoved(s, s', r.value.id, x);
    } else {
      NoneMoved(s, x);
    }
  }

  lemma ReserveCounts(s: State, n: QName, c: ConsumerId, now: Time, x: QName)
    requires Inv(s)
    ensures Counts(s, Event(DoReserve(n, c), now), x)
  {
    hide Inv, Reserve, Tally, Plus;
    ReserveTally(s, n, c, now, x);
    ReserveStats(s, n, c, now, x);
  }

  lemma AckStats(s: State, id: Id, x: QName)
    requires IndexOk(s)
    ensures
      var (s', r) := Ack(s, id, true);
      && (x in s'.queues <==> x in s.queues)
      && (x in s.queues ==>
            s'.queues[x].stats == Plus(s.queues[x].stats, NOTHING.(acked := if r == AckOk && id in StoredAt(s, x) then 1 else 0)))
  {
    hide Trim, IsDlq;
    if id in StoredAt(s, x) {
      IndexAt(s, x, id);
    }
    if InFlight(s, id) {
      assert QueueIndexOk(s.byId, s.byId[id], s.queues[s.byId[id]]);
    }
  }

  lemma AckTally(s: State, id: Id, now: Time, x: QName)
    requires Inv(s)
    ensures Tally(s, Event(DoAck(id), now), x) ==
            NOTHING.(acked := if Ack(s, id, true).1 == AckOk && id in StoredAt(s, x) then 1 else 0)
  {
    hide Inv, PlaceOf, Ack, SameElsewhere, Arrived, Retried, Departed, StoredAt;
    var (s', r) := Ack(s, id, true);
    AckPlace(s, id, true);
    if r == AckOk {
      AckInv(s, id, true);
      OneMoved(s, s', id, x);
    } else {
      NoneMoved(s, x);
    }
  }

  lemma AckCounts(s: State, id: Id, now: Time, x: QName)
    requires Inv(s)
    ensures Counts(s, Event(DoAck(id), now), x)
  {
    hide PartsOk, HeapsOk, TablesAgree, Ack, Tally, Plus;
    AckTally(s, id, now, x);
    AckStats(s, id, x);
  }

  /** A refusal counts at the queue of the message, beside the failure or the death. */
  lemma NackStats(s: State, id: Id, requeue: bool, now: Time, x: QName)
    requires Inv(s)
    ensures
      var (s', r) := Nack(s, id, requeue, now, true);
      x in s'.queues ==>
        s'.queues[x].stats ==
        Plus(Plus(StatsAt(s, x), NOTHING.(nacked := if r == NackOk && id in StoredAt(s, x) then 1 else 0)),
             if r == NackOk && Holds(s, s.byId[id], id) then
               FailureCounts(s.queues, s.byId[id],
                             !requeue || s.queues[s.byId[id]].messages[id].attempts + 1 >= s.queues[s.byId[id]].messages[id].maxAttempts, x)
             else NOTHING)
  {
    hide PartsOk, HeapsOk, TablesAgree, RetryOrDead, MoveToDlq, IsDlq, FailureCounts;
    NackPlace(s, id, requeue, now, true);
    var (s', r) := Nack(s, id, requeue, now, true);
    if r == NackOk {
      var n := s.byId[id];
      InflightStored(s, n, id);
      SpecIndex(s, n);
      var m := s.queues[n].messages[id];
      var q := CountNack(TakeBack(s.queues[n], id));
      var s1 := Log(SetQueue(s, n, q), Journal.MessageNack(id, n, requeue), [], true);
      NackedFirst(s, s1, n, q, id, x);
      if x in s'.queues {
        if requeue {
          RetryOrDeadCounts(s1, n, m, now, true, x);
        } else {
          MoveCounts(s1, n, m, true, x);
        }
        SameFailure(s, s1, n, !requeue || m.attempts + 1 >= m.maxAttempts, x);
      }
    }
  }

  lemma NackedFirst(s: State, s1: State, n: QName, q: Queue, id: Id, x: QName)
    requires IndexOk(s) && Holds(s, n, id) && q == CountNack(TakeBack(s.queues[n], id)) && s1.queues == s.queues[n := q]
    ensures StatsAt(s1, x) == Plus(StatsAt(s, x), NOTHING.(nacked := if id in StoredAt(s, x) then 1 else 0))
  {
    hide IndexOk, Plus, StoredAt, StatsAt, CountNack, TakeBack;
    StoredOnce(s, n, id, x);
    SetStats(s, s1, n, q, x);
    CountedNack(s.queues[n], id);
    PlusAssoc(StatsAt(s, x), NOTHING, NOTHING);
    assert NOTHING.(nacked := 0) == NOTHING;
  }

  lemma SetStats(s: State, s1: State, n: QName, q: Queue, x: QName)
    requires n in s.queues && s1.queues == s.queues[n := q]
    ensures StatsAt(s1, x) == (if x == n then q.stats else StatsAt(s, x)) && StatsAt(s, n) == s.queues[n].stats
  {
  }

  lemma CountedNack(q: Queue, id: Id)
    ensures CountNack(TakeBack(q, id)).stats == Plus(q.stats, NOTHING.(nacked := 1))
  {
  }

  lemma StoredOnce(s: State, n: QName, id: Id, x: QName)
    requires IndexOk(s) && Holds(s, n, id)
    ensures id in StoredAt(s, x) <==> x == n
  {
    hide TablesAgree;
    IndexAt(s, n, id);
    if id in StoredAt(s, x) {
      IndexAt(s, x, id);
    }
  }

  lemma SameFailure(s: State, s1: State, n: QName, dies: bool, x: QName)
    requires n in s.queues && n in s1.queues && s1.queues[n].spec == s.queues[n].spec
    ensures FailureCounts(s1.queues, n, dies, x) == FailureCounts(s.queues, n, dies, x)
  {
  }

  lemma NackTally(s: State, id: Id, requeue: bool, now: Time, x: QName)
    requires Inv(s) && now > 0 && s.cfg.baseDelay >= 0
    ensures
      var (s', r) := Nack(s, id, requeue, now, true);
      Tally(s, Event(DoNack(id, requeue), now), x) ==
      Plus(NOTHING.(nacked := if r == NackOk && id in StoredAt(s, x) then 1 else 0), Losses(s, s', x))
  {
    hide Inv, Nack, Arrived, Retried, Departed, StoredAt;
  }

  lemma NackLosses(s: State, id: Id, requeue: bool, now: Time, x: QName)
    requires Inv(s) && now > 0 && s.cfg.baseDelay >= 0
    ensures
      var (s', r) := Nack(s, id, requeue, now, true);
      Losses(s, s', x) ==
      if r == NackOk && Holds(s, s.byId[id], id) then
        FailureCounts(s.queues, s.byId[id],
                      !requeue || s.queues[s.byId[id]].messages[id].attempts + 1 >= s.queues[s.byId[id]].messages[id].maxAttempts, x)
      else NOTHING
  {
    hide PartsOk, HeapsOk, TablesAgree, Nack, SameElsewhere, FailureCounts, Arrived, Retried, Departed, RetryDelay, IsDlq,
      DlqName, QueueOk;
    var (s', r) := Nack(s, id, requeue, now, true);
    NackPlace(s, id, requeue, now, true);
    NackInv(s, id, requeue, now, true);
    if r == NackOk {
      var n := s.byId[id];
      PlaceMeaning(s, n, id);
      var m := s.queues[n].messages[id];
      FailureMoved(s, s', n, id, !requeue || m.attempts + 1 >= m.maxAttempts, x);
    } else {
      NoneMoved(s, x);
    }
  }

  lemma NackCounts(s: State, id: Id, requeue: bool, now: Time, x: QName)
    requires Inv(s) && now > 0 && s.cfg.baseDelay >= 0
    ensures Counts(s, Event(DoNack(id, requeue), now), x)
  {
    hide PartsOk, HeapsOk, TablesAgree, Nack, Tally, Plus, StatsAt, StoredAt, FailureCounts, Losses;
    NackStats(s, id, requeue, now, x);
    NackTally(s, id, requeue, now, x);
    NackLosses(s, id, requeue, now, x);
    var (s', r) := Nack(s, id, requeue, now, true);
    PlusAssoc(StatsAt(s, x), NOTHING.(nacked := if r == NackOk && id in StoredAt(s, x) then 1 else 0), Losses(s, s', x));
  }

  lemma LosingCounts(s: State, ev: Event, x: QName)
    requires Callable(s, ev.op) && Losing(s, Step(s, ev)) && (ev.op.DoRecover? || ev.op.DoTick?)
    ensures Counts(s, ev, x)
  {
    hide Step, Arrived, Retried, Departed, StatsAt, Plus;
    assert x in Step(s, ev).queues ==> Tally(s, ev, x) == Losses(s, Step(s, ev), x);
  }

  /** A queue that an event leaves as it is, or creates. */
  lemma UntouchedCounts(s: State, ev: Event, x: QName)
    requires Inv(s) && (ev.op.DoDeclare? || ev.op.DoDelete?)
    requires
      var s' := Step(s, ev);
      x in s'.queues ==> if x in s.queues then s'.queues[x] == s.queues[x]
                         else s'.queues[x].messages == map[] && s'.queues[x].stats == NOTHING
    ensures Counts(s, ev, x)
  {
    hide Inv, Step, Tally, Plus, StatsAt;
    if x in Step(s, ev).queues {
      UntouchedTally(s, ev, x);
      PlusAssoc(StatsAt(s, x), NOTHING, NOTHING);
      StatsHere(s, x);
    }
  }

  lemma StatsHere(s: State, n: QName)
    ensures StatsAt(s, n) == if n in s.queues then s.queues[n].stats else NOTHING
  {
  }

  lemma UntouchedTally(s: State, ev: Event, x: QName)
    requires Inv(s) && (ev.op.DoDeclare? || ev.op.DoDelete?) && x in Step(s, ev).queues
    requires
      var s' := Step(s, ev);
      if x in s.queues then s'.queues[x] == s.queues[x] else s'.queues[x].messages == map[]
    ensures Tally(s, ev, x) == NOTHING
  {
    hide Inv, Step, Arrived, Retried, Departed;
    NothingMoved(s, Step(s, ev), x);
  }

  lemma DeleteCounts(s: State, n: QName, x: QName)
    requires IndexOk(s) && x in Delete(s, n, true).0.queues
    ensures x in s.queues && Delete(s, n, true).0.queues[x] == s.queues[x]
  {
    hide TablesAgree, Delete, Deleted, PlaceOf;
    DeletePlace(s, n, true);
  }

  lemma RequeueStats(s: State, n: QName, id: Id, now: Time, x: QName)
    requires IndexOk(s)
    ensures
      var (s', ok) := DlqRequeue(s, n, id, now, true);
      && (x in s'.queues <==> x in s.queues)
      && (x in s.queues ==>
            s'.queues[x].stats ==
            Plus(s.queues[x].stats, NOTHING.(published := if OriginQueue(n) == x && ok then 1 else 0)))
  {
    hide TablesAgree, DlqRequeue, Enqueue, Plus, Drop, Without, Push, IsDlq;
    RequeueForm(s, n, id, now, true);
    PlusNone(s, x);
    if Found(s, n, id) {
      var dn := DlqName(OriginQueue(n));
      var s1 := Withdrawn(s, dn, id);
      assert x in s1.queues <==> x in s.queues;
      assert x in s.queues ==> s1.queues[x].stats == s.queues[x].stats;
      EnqueueCounts(s1, BackMessage(s, n, id), now, false, x);
    }
  }

  lemma PlusNone(s: State, x: QName)
    ensures x in s.queues ==> Plus(s.queues[x].stats, NOTHING.(published := 0)) == s.queues[x].stats
  {
  }

  lemma RequeueTally(s: State, n: QName, id: Id, now: Time, x: QName)
    requires Inv(s) && now > 0 && Allowed(s, Event(DoRequeue(n, id), now))
    ensures Tally(s, Event(DoRequeue(n, id), now), x) ==
            NOTHING.(published := if OriginQueue(n) == x && DlqRequeue(s, n, id, now, true).1 then 1 else 0)
  {
    hide PartsOk, HeapsOk, TablesAgree, DlqRequeue, PlaceOf, SameElsewhere, Arrived, Retried, Departed, Items, IsDlq, DlqName,
      Found;
    var s' := DlqRequeue(s, n, id, now, true).0;
    if Found(s, n, id) {
      RequeuePlace(s, n, id, now, true);
      RequeueInv(s, n, id, now, true);
      OneMoved(s, s', id, x);
    } else {
      RequeueForm(s, n, id, now, true);
      NoneMoved(s, x);
    }
  }

  lemma RequeueCounts(s: State, n: QName, id: Id, now: Time, x: QName)
    requires Inv(s) && now > 0 && Allowed(s, Event(DoRequeue(n, id), now))
    ensures Counts(s, Event(DoRequeue(n, id), now), x)
  {
    hide PartsOk, HeapsOk, TablesAgree, DlqRequeue, Tally, Plus, Items, Found;
    RequeueTally(s, n, id, now, x);
    RequeueStats(s, n, id, now, x);
  }

  /** Every event adds to every counter of every queue exactly what it is named after. */
  lemma StepCounters(s: State, ev: Event, n: QName)
    requires Inv(s) && Allowed(s, ev) && s.cfg.baseDelay >= 0
    ensures n in Step(s, ev).queues ==> Step(s, ev).queues[n].stats == Plus(StatsAt(s, n), Tally(s, ev, n))
  {
    hide Inv, Fresh, Items, Found, DeliveriesIn, AllInflight, Tally, Plus, Losing, Declare, Delete, Enqueue, Reserve, Ack, Nack,
      Recover, Tick, DlqRequeue;
    match ev.op
    case DoPublish(m) => PublishCounts(s, m, ev.now, n);
    case DoReserve(q, c) => ReserveCounts(s, q, c, ev.now, n);
    case DoAck(id) => AckCounts(s, id, ev.now, n);
    case DoNack(id, requeue) => NackCounts(s, id, requeue, ev.now, n);
    case DoRecover(c, todo) =>
      AllowedTodo(s, c, todo);
      RecoverLosing(s, todo, ev.now, true);
      LosingCounts(s, ev, n);
    case DoTick(ts) =>
      TickLosing(s, ts, ev.now);
      LosingCounts(s, ev, n);
    case DoRequeue(q, id) => RequeueCounts(s, q, id, ev.now, n);
    case DoDeclare(q, a) =>
      DeclareCounts(s, q, a, n);
      UntouchedCounts(s, ev, n);
    case DoDelete(q) =>
      InvIndex(s);
      if n in Delete(s, q, true).0.queues {
        DeleteCounts(s, q, n);
      }
      UntouchedCounts(s, ev, n);
  }

  // ----- runs -----

  /** What a queue's counters have counted over a run, since the queue was last created. */
  ghost function Counted(s: State, run: seq<Event>, n: QName, t: Stats): Stats
    requires AllowedRun(s, run)
    decreases |run|
  {
    if run == [] then t
    else
      var s1 := Step(s, run[0]);
      Counted(s1, run[1..], n, if n in s1.queues then Plus(t, Tally(s, run[0], n)) else NOTHING)
  }

  /** The counters over whole runs. "published" counts publishes, requeues and arriving dead letters, "delivered"
      the reservations that gave a message, "acked" and "nacked" the acknowledgements and refusals that were accepted,
      "retried" the deliveries that failed with attempts left, and "dead" those that failed for good. */
  lemma {:induction false} RunCounters(s: State, run: seq<Event>, n: QName)
    requires Inv(s) && s.cfg.baseDelay >= 0 && AllowedRun(s, run)
    ensures StatsAt(Run(s, run), n) == Counted(s, run, n, StatsAt(s, n))
    decreases |run|
  {
    hide Inv, Step, Allowed, Tally, Plus;
    if run != [] {
      AllowedCallable(s, run[0]);
      StepInv(s, run[0]);
      StepSpecs(s, run[0]);
      StepCounters(s, run[0], n);
      RunCounters(Step(s, run[0]), run[1..], n);
    }
  }
}
