/** Short runs of a new broker that reach the inputs on which requeueing and recovery fail. */
module ClosedRuns {
  import opened Types
  import opened DlqNames
  import opened Heaps
  import opened Backoffs
  import opened Journal
  import opened Engine
  import opened Index
  import opened Invariant
  import opened InvariantOps
  import opened Places
  import opened Ticks
  import opened Requeue
  import opened Runs
  import opened Snapshot
  import opened Replay
  import opened Recovery
  import opened Restarts
  import opened Crashes
  import opened Worlds
  import opened Limits
  import opened RestartInv

  // ----- runs of a few events -----

  lemma RunOne(s: State, a: Event)
    requires Allowed(s, a)
    ensures AllowedRun(s, [a]) && Run(s, [a]) == Step(s, a)
  {
    hide Allowed, Step;
  }

  lemma RunMore(s: State, a: Event, rest: seq<Event>)
    requires Allowed(s, a) && AllowedRun(Step(s, a), rest)
    ensures AllowedRun(s, [a] + rest) && Run(s, [a] + rest) == Run(Step(s, a), rest)
  {
    hide Allowed, Step;
    assert ([a] + rest)[1..] == rest;
  }

  // ----- a new broker with one queue -----

  /** What a run has to know about the queue that it uses. */
  predicate Blank(s: State, n: QName) {
    Vacant(s, n) && s.byId == map[] && s.delayed == [] && s.recentAcks == []
    && (s.queues[n].spec.maxLength.Some? ==> s.queues[n].spec.maxLength.value > 0)
  }

  lemma DeclaredBlank(cfg: Config, n: QName)
    requires !IsDlq(n) && (cfg.maxLength.Some? ==> cfg.maxLength.value > 0)
    ensures
      var s := Declare(Init(cfg), n, DEFAULT_ARGS, true);
      Blank(s, DlqName(n)) && n in s.queues && s.cfg == cfg && s.queues[n].spec.maxLength == cfg.maxLength
  {
    hide IsDlq, DeclareMeta;
  }

  lemma BlankFresh(s: State, n: QName, id: Id)
    requires Blank(s, n)
    ensures Fresh(s, id)
  {
  }

  lemma OnlyDeclare(cfg: Config, n: QName, a: DeclareArgs, now: Time)
    requires now > 0
    ensures Inv(Init(cfg)) && Allowed(Init(cfg), Event(DoDeclare(n, a), now)) && Inv(Declare(Init(cfg), n, a, true))
  {
    hide Inv, Declare;
    InitInv(cfg);
    DeclareInv(Init(cfg), n, a, true);
  }

  // ----- a requeue of a dead letter that is in flight -----

  /** Publishing into a vacant queue and reserving from it. */
  lemma PublishAndReserve(s: State, m: Message, c: ConsumerId, now: Time)
    requires Inv(s) && Blank(s, m.queue) && m.availableAt == None && now > 0
    ensures
      var run := [Event(DoPublish(m), now), Event(DoReserve(m.queue, c), now)];
      && AllowedRun(s, run)
      && Inv(Run(s, run)) && Run(s, run).queues.Keys == s.queues.Keys && Run(s, run).cfg == s.cfg
      && PlaceOf(Run(s, run), m.id).InflightIn? && PlaceOf(Run(s, run), m.id).queue == m.queue
      && PlaceOf(Run(s, run), m.id).message == m && Run(s, run).byId.Keys == {m.id}
      && forall n :: n in s.queues ==> Run(s, run).queues[n].spec == s.queues[n].spec
  {
    hide Inv, Fresh, PlaceOf, Enqueue, Reserve, ReadyEntry, Items;
    var publish, reserve := Event(DoPublish(m), now), Event(DoReserve(m.queue, c), now);
    var s1 := Step(s, publish);
    var s2 := Step(s1, reserve);
    BlankFresh(s, m.queue, m.id);
    FirstSlot(s, m, now, true);
    EnqueueElsewhereKeys(s, m, now);
    EntryItem(m, s.lastOrd + 1);
    EnqueueInv(s, m, now, true);
    TakeSlot(s1, m.queue, c, now, ReadyEntry(m, s.lastOrd + 1));
    TakeKeys(s1, m.queue, c, now);
    ReserveInv(s1, m.queue, c, now);
    PlaceMeaning(s2, m.queue, m.id);
    ReservedSame(s1, m.queue, c, now);
    EnqueueSpecs(s, m, now, true);
    RunOne(s1, reserve);
    RunMore(s, publish, [reserve]);
    assert [publish] + [reserve] == [publish, reserve];
  }

  lemma EnqueueElsewhereKeys(s: State, m: Message, now: Time)
    requires m.queue in s.queues
    ensures Enqueue(s, m, now, true).0.queues.Keys == s.queues.Keys && Enqueue(s, m, now, true).0.cfg == s.cfg
  {
    hide Push, Full, Later, Stored;
  }

  lemma TakeKeys(s: State, n: QName, c: ConsumerId, now: Time)
    ensures Reserve(s, n, c, now).0.queues.Keys == s.queues.Keys && Reserve(s, n, c, now).0.cfg == s.cfg
  {
    hide Reserve;
    ReserveTables(s, n, c, now);
  }

  lemma ReservedSame(s: State, n: QName, c: ConsumerId, now: Time)
    requires n in s.queues
    ensures n in Reserve(s, n, c, now).0.queues && Reserve(s, n, c, now).0.queues[n].messages == s.queues[n].messages
    ensures forall x :: x in s.queues ==> x in Reserve(s, n, c, now).0.queues && Reserve(s, n, c, now).0.queues[x].spec == s.queues[x].spec
  {
    hide Reserve;
    ReserveTables(s, n, c, now);
  }

  /** A new broker, one declaration, one publish to the dead-letter queue and one delivery: requeueing the
      message now breaks the invariant. */
  lemma RequeueBreaksReached(cfg: Config, n: QName, m: Message, c: ConsumerId, now: Time)
    requires !IsDlq(n) && m.queue == DlqName(n) && m.availableAt == None && now > 0
    requires cfg.maxLength.Some? ==> cfg.maxLength.value > 0
    ensures
      var run := [Event(DoDeclare(n, DEFAULT_ARGS), now), Event(DoPublish(m), now), Event(DoReserve(m.queue, c), now)];
      && AllowedRun(Init(cfg), run)
      && Inv(Run(Init(cfg), run)) && !Inv(DlqRequeue(Run(Init(cfg), run), n, m.id, now, true).0)
  {
    hide Inv, PlaceOf, Declare, AllowedRun, Run, DlqRequeue, Items, IsDlq, Vacant, DlqName;
    var declare := Event(DoDeclare(n, DEFAULT_ARGS), now);
    var rest := [Event(DoPublish(m), now), Event(DoReserve(m.queue, c), now)];
    var s1 := Declare(Init(cfg), n, DEFAULT_ARGS, true);
    OnlyDeclare(cfg, n, DEFAULT_ARGS, now);
    DeclaredBlank(cfg, n);
    PublishAndReserve(s1, m, c, now);
    RunMore(Init(cfg), declare, rest);
    assert [declare] + rest == [declare, rest[0], rest[1]];
    InflightRequeue(Run(s1, rest), n, m.id, now);
  }

  lemma InflightRequeue(s: State, n: QName, id: Id, now: Time)
    requires Inv(s) && !IsDlq(n) && n in s.queues && now > 0
    requires PlaceOf(s, id).InflightIn? && PlaceOf(s, id).queue == DlqName(n)
    ensures !Inv(DlqRequeue(s, n, id, now, true).0)
  {
    hide Inv, PlaceOf, DlqRequeue, Items, IsDlq;
    PlaceQueue(s, id);
    PlaceMeaning(s, DlqName(n), id);
    RequeueKeepsIff(s, n, id, now, true);
  }

  // ----- a snapshot of a delayed dead letter -----

  lemma NackDelays(s: State, id: Id, now: Time)
    requires Inv(s) && now > 0 && s.cfg.baseDelay >= 0 && PlaceOf(s, id).InflightIn? && s.byId.Keys == {id}
    requires PlaceOf(s, id).message.attempts + 1 < PlaceOf(s, id).message.maxAttempts
    ensures
      var s' := Nack(s, id, true, now, true).0;
      var m := PlaceOf(s, id).message;
      && Inv(s') && SameSpecs(s, s') && Idle(s'.queues)
      && PlaceOf(s', id).DelayedIn? && PlaceOf(s', id).queue == PlaceOf(s, id).queue
      && PlaceOf(s', id).message.availableAt == Some(now + RetryDelay(m.attempts + 1, s.cfg.backoff, s.cfg.baseDelay))
  {
    hide Inv, PlaceOf, Nack, RetryDelay, IsDlq;
    var s' := Nack(s, id, true, now, true).0;
    NackPlace(s, id, true, now, true);
    NackInv(s, id, true, now, true);
    NackSpecs(s, id, true, now, true);
    forall n, x | n in s'.queues
      ensures x !in s'.queues[n].inflight
    {
      PlaceMeaning(s', n, x);
      PlaceMeaning(s, n, x);
    }
    NoneIdle(s'.queues);
  }

  lemma NoneIdle(queues: map<QName, Queue>)
    requires forall n, x :: n in queues ==> x !in queues[n].inflight
    ensures Idle(queues)
  {
    forall n | n in queues
      ensures queues[n].inflight == map[]
    {
      assert forall x :: x !in queues[n].inflight;
    }
  }

  lemma TickReleases(s: State, id: Id, ts: Time, now: Time)
    requires Inv(s) && now > 0 && s.cfg.baseDelay >= 0 && PlaceOf(s, id).DelayedIn? && Idle(s.queues)
    requires PlaceOf(s, id).message.availableAt.Some? && PlaceOf(s, id).message.availableAt.value <= ts
    ensures
      var s' := Tick(s, ts, now);
      && Inv(s') && SameSpecs(s, s') && s'.journal == s.journal
      && PlaceOf(s', id).ReadyIn? && PlaceOf(s', id).queue == PlaceOf(s, id).queue
  {
    hide Inv, PlaceOf, Tick, Idle;
    TickIsScan(s, ts, now);
    InvIndex(s);
    SilentTick(s, ts, now);
  }

  /** With nothing in flight a tick writes no record. */
  lemma SilentTick(s: State, ts: Time, now: Time)
    requires IndexOk(s) && Idle(s.queues)
    ensures Tick(s, ts, now).journal == s.journal
  {
    hide TablesAgree, Idle, TimeoutInflight, ReleaseAll, PopDue;
    var (due, rest) := PopDue(s.delayed, ts);
    ReleaseAllTwins(s.(delayed := rest), due);
    SilentRelease(s.(delayed := rest), due);
    SilentTimeout(ReleaseDelayed(s, ts), ts, now);
  }

  lemma SilentRelease(s: State, due: seq<Addr>)
    ensures ReleaseAll(s, due).journal == s.journal
    decreases |due|
  {
    hide Push;
    if due != [] {
      SilentRelease(ReleaseOne(s, due[0]), due[1..]);
    }
  }

  lemma SilentTimeout(s: State, ts: Time, now: Time)
    requires Idle(s.queues)
    ensures TimeoutInflight(s, ts, now).journal == s.journal
    decreases |s.visibility|
  {
    hide Expire;
    if s.visibility != [] && s.visibility[0].key <= ts {
      var s1 := s.(visibility := s.visibility[1..]);
      assert !Current(s1, s.visibility[0]);
      SilentTimeout(s1, ts, now);
    }
  }

  lemma ReadyRequeued(s: State, n: QName, id: Id, now: Time)
    requires Inv(s) && !IsDlq(n) && n in s.queues && now > 0 && s.queues[n].spec.maxLength == None
    requires PlaceOf(s, id).ReadyIn? && PlaceOf(s, id).queue == DlqName(n)
    ensures Allowed(s, Event(DoRequeue(n, id), now)) && Inv(DlqRequeue(s, n, id, now, true).0)
    ensures DlqRequeue(s, n, id, now, true).0.journal == s.journal + [Rec(MessageRequeue(id, DlqName(n), n), [])]
  {
    hide PartsOk, HeapsOk, TablesAgree, PlaceOf, Items, IsDlq, DlqRequeue, SameHouses, SameLetters, Letter;
    PlaceQueue(s, id);
    PlaceMeaning(s, DlqName(n), id);
    RequeueStep(s, n, id, now);
    RequeueLetters(s, n, id, now, true);
  }

  /** A dead letter is refused and waits for its delay; a snapshot is taken; a tick releases the dead letter
      and it is requeued. The live engine stays sound all the way; the replay of the one record that is
      written after the snapshot does not. */
  lemma DelayedLetterReached(cfg: Config, n: QName, m: Message, c: ConsumerId, now: Time, ts: Time, saved: Saved, t: Time,
                             clock: seq<Time>)
    requires !IsDlq(n) && m.queue == DlqName(n) && m.availableAt == None && m.attempts + 1 < m.maxAttempts
    requires now > 0 && cfg.baseDelay >= 0 && cfg.maxLength == None
    requires ts >= now + RetryDelay(m.attempts + 1, cfg.backoff, cfg.baseDelay) && |clock| == 1 && clock[0] > 0
    ensures
      var s1 := Declare(Init(cfg), n, DEFAULT_ARGS, true);
      var first := [Event(DoPublish(m), now), Event(DoReserve(m.queue, c), now)];
      && AllowedRun(s1, first)
      && var s2 := Run(s1, first);
      var s3 := Nack(s2, m.id, true, now, true).0;
      var s4 := Tick(s3, ts, now);
      var s5 := DlqRequeue(s4, n, m.id, now, true).0;
      var rec := Rec(MessageRequeue(m.id, DlqName(n), n), []);
      && Inv(s3) && Inv(s4) && Inv(s5) && s5.journal == s3.journal + [rec]
      && (IsSnapshot(s3, saved) ==> !Inv(Replayed(cfg, Disk(Some(saved), [rec]), t, clock)))
  {
    hide Inv, PlaceOf, Declare, AllowedRun, Run, DlqRequeue, IsDlq, Blank, Nack, Tick, IsSnapshot, RetryDelay, Replayed, DlqName,
      Found, Items, Idle, Allowed;
    var s1 := Declare(Init(cfg), n, DEFAULT_ARGS, true);
    OnlyDeclare(cfg, n, DEFAULT_ARGS, now);
    DeclaredBlank(cfg, n);
    PublishAndReserve(s1, m, c, now);
    var s2 := Run(s1, [Event(DoPublish(m), now), Event(DoReserve(m.queue, c), now)]);
    assert n in s2.queues.Keys;
    NackDelays(s2, m.id, now);
    var s3 := Nack(s2, m.id, true, now, true).0;
    TickReleases(s3, m.id, ts, now);
    ReadyRequeued(Tick(s3, ts, now), n, m.id, now);
    if IsSnapshot(s3, saved) {
      DelayedLetterBreaks(s3, n, m.id, saved, t, clock);
    }
  }

  // ----- a bounded queue loses a message -----

  const ONE_SLOT := DeclareArgs(true, Some(1), None, None, false)

  lemma DeclaredOneSlot(cfg: Config, n: QName, persist: bool)
    ensures
      var s := Declare(Init(cfg), n, ONE_SLOT, persist);
      && OneSlot(s, n) && Blank(s, n) && s.cfg == cfg && IndexOk(s) && Idle(s.queues)
      && s.journal == if persist then [Rec(DeclareMeta(MakeSpec(cfg, n, ONE_SLOT)), [])] else []
  {
    hide IsDlq;
  }

  lemma OneSlotRecord(cfg: Config, n: QName, now: Time)
    ensures
      var s := Apply(Init(cfg), Rec(DeclareMeta(MakeSpec(cfg, n, ONE_SLOT)), []), now);
      OneSlot(s, n) && s.byId == map[] && IndexOk(s) && Idle(s.queues)
  {
    hide IsDlq, Declare;
    var spec := MakeSpec(cfg, n, ONE_SLOT);
    DeclareApply(Init(cfg), spec, now);
    DeclaredAgain(cfg, n);
  }

  lemma DeclaredAgain(cfg: Config, n: QName)
    ensures
      var spec := MakeSpec(cfg, n, ONE_SLOT);
      var s := Declare(Init(cfg), n, SpecArgs(spec, spec.durable), false);
      OneSlot(s, n) && s.byId == map[] && IndexOk(s) && Idle(s.queues)
  {
    hide IsDlq;
  }

  lemma ReplayFirst(s: State, recs: seq<Rec>, clock: seq<Time>)
    requires |clock| == |recs| && recs != []
    ensures ReplayAll(s, recs, clock) == ReplayAll(Apply(s, recs[0], clock[0]), recs[1..], clock[1..])
  {
    hide Apply;
  }

  /** A new broker, a queue of length one, and two messages of which the first is acknowledged before the second
      is published: the live engine has the second message, the replay of the whole journal has not. */
  lemma BoundedLosesReached(cfg: Config, a: Message, b: Message, c: ConsumerId, now: Time, clock: seq<Time>)
    requires b.queue == a.queue && a.id != b.id && a.availableAt == None && b.availableAt == None && |clock| == 4
    ensures
      var s1 := Declare(Init(cfg), a.queue, ONE_SLOT, true);
      var s2 := Enqueue(s1, a, now, true).0;
      var s3 := Reserve(s2, a.queue, c, now).0;
      var s4 := Ack(s3, a.id, true).0;
      var s5 := Enqueue(s4, b, now, true).0;
      && Letter(s5, b.id) == Some(b) && |s5.journal| == 4
      && Letter(ReplayAll(Init(cfg), s5.journal, clock), b.id) == None
  {
    hide TablesAgree, Idle, Enqueue, Reserve, Ack, ReplayAll, Apply, Declare, Letter, DeclareMeta, MakeSpec;
    var s1 := Declare(Init(cfg), a.queue, ONE_SLOT, true);
    var recs := [PublishRec(a), Rec(MessageAck(a.id, a.queue), []), PublishRec(b)];
    var first := Rec(DeclareMeta(MakeSpec(cfg, a.queue, ONE_SLOT)), []);
    DeclaredOneSlot(cfg, a.queue, true);
    BoundedReplayLoses(s1, a, b, c, now, clock[1..]);
    OneSlotRecord(cfg, a.queue, clock[0]);
    BoundedReplay(Apply(Init(cfg), first, clock[0]), a, b, clock[1..]);
    assert ([first] + recs)[1..] == recs;
    ReplayFirst(Init(cfg), [first] + recs, clock);
  }

  // ----- a requeue under a doubly suffixed name loses a message -----

  const NO_LETTERS := DeclareArgs(true, None, None, None, false)

  lemma StrayTables(cfg: Config, n: QName, m: Message, now: Time)
    requires !IsDlq(n) && m.queue == DlqName(n) && m.availableAt == None && cfg.maxLength == None
    ensures
      var s1 := Declare(Init(cfg), n, NO_LETTERS, true);
      var s2 := Declare(s1, DlqName(n), DEFAULT_ARGS, true);
      var s3 := Enqueue(s2, m, now, true).0;
      && IndexOk(s3) && Idle(s3.queues) && Roomy(s3) && n in s3.queues && !s3.queues[n].spec.deadLetter
      && Holds(s3, DlqName(n), m.id)
      && s3.journal == [Rec(DeclareMeta(MakeSpec(cfg, n, NO_LETTERS)), []),
                        Rec(DeclareMeta(MakeSpec(cfg, DlqName(n), DEFAULT_ARGS)), []), PublishRec(m)]
  {
    hide IsDlq, Push, DeclareMeta;
  }

  lemma StrayBack(cfg: Config, n: QName, m: Message, later: Time)
    requires !IsDlq(n) && m.queue == DlqName(n) && m.availableAt == None && cfg.maxLength == None
    ensures
      var spec, dspec := MakeSpec(cfg, n, NO_LETTERS), MakeSpec(cfg, DlqName(n), DEFAULT_ARGS);
      var s1 := Declare(Init(cfg), n, SpecArgs(spec, spec.durable), false);
      var s2 := Declare(s1, DlqName(n), SpecArgs(dspec, dspec.durable), false);
      var s3 := Enqueue(s2, m, later, false).0;
      && DlqName(n) in s2.queues && m.id !in s2.byId
      && IndexOk(s3) && Roomy(s3) && n in s3.queues && !s3.queues[n].spec.deadLetter && Holds(s3, DlqName(n), m.id)
  {
    hide IsDlq, Push;
  }

  lemma StrayRecords(cfg: Config, n: QName, m: Message, clock: seq<Time>)
    requires !IsDlq(n) && m.queue == DlqName(n) && m.availableAt == None && cfg.maxLength == None && |clock| == 3
    ensures
      var spec, dspec := MakeSpec(cfg, n, NO_LETTERS), MakeSpec(cfg, DlqName(n), DEFAULT_ARGS);
      var s := ReplayAll(Init(cfg), [Rec(DeclareMeta(spec), []), Rec(DeclareMeta(dspec), []), PublishRec(m)], clock);
      && IndexOk(s) && Roomy(s) && n in s.queues && !s.queues[n].spec.deadLetter && Holds(s, DlqName(n), m.id)
  {
    hide IsDlq, Push, DeclareMeta, MakeSpec, Declare, Enqueue, Apply, ReplayAll, Roomy, TablesAgree;
    var spec, dspec := MakeSpec(cfg, n, NO_LETTERS), MakeSpec(cfg, DlqName(n), DEFAULT_ARGS);
    var s1 := Declare(Init(cfg), n, SpecArgs(spec, spec.durable), false);
    var s2 := Declare(s1, DlqName(n), SpecArgs(dspec, dspec.durable), false);
    StrayBack(cfg, n, m, clock[2]);
    SpecNames(cfg, n);
    DeclareApply(Init(cfg), spec, clock[0]);
    DeclareApply(s1, dspec, clock[1]);
    PublishApply(s2, m, clock[2]);
    DeclareThere(s2, DlqName(n), DEFAULT_ARGS, false);
    ReplayThree(Init(cfg), Rec(DeclareMeta(spec), []), Rec(DeclareMeta(dspec), []), PublishRec(m), clock);
  }

  lemma SpecNames(cfg: Config, n: QName)
    ensures MakeSpec(cfg, n, NO_LETTERS).name == n && MakeSpec(cfg, DlqName(n), DEFAULT_ARGS).name == DlqName(n)
  {
  }

  lemma TwiceSuffixed(s: State, n: QName, id: Id)
    requires !IsDlq(n) && n in s.queues && !s.queues[n].spec.deadLetter && Holds(s, DlqName(n), id)
    ensures OriginQueue(DlqName(n) + SUFFIX) == DlqName(n) && OriginQueue(DlqName(n)) == n
    ensures !Straight(s, DlqName(n) + SUFFIX) && Found(s, DlqName(n) + SUFFIX, id)
  {
    var twice := DlqName(n) + SUFFIX;
    assert twice[|twice| - |SUFFIX|..] == SUFFIX && twice[..|twice| - |SUFFIX|] == DlqName(n);
  }

  /** A new broker, a queue without dead letters, an ordinary queue with the name of its dead-letter queue, a
      message in it, a requeue under the doubly suffixed name and the deletion of the first queue: the live
      engine has the message, the replay of the whole journal has not. */
  lemma StrayedLosesReached(cfg: Config, n: QName, m: Message, now: Time, clock: seq<Time>)
    requires !IsDlq(n) && m.queue == DlqName(n) && m.availableAt == None && cfg.maxLength == None && |clock| == 5
    ensures
      var s1 := Declare(Init(cfg), n, NO_LETTERS, true);
      var s2 := Declare(s1, DlqName(n), DEFAULT_ARGS, true);
      var s3 := Enqueue(s2, m, now, true).0;
      var s4 := DlqRequeue(s3, DlqName(n) + SUFFIX, m.id, now, true).0;
      var s5 := Delete(s4, n, true).0;
      && Letter(s5, m.id).Some? && |s5.journal| == 5
      && Letter(ReplayAll(Init(cfg), s5.journal, clock), m.id) == None
  {
    hide IsDlq, DeclareMeta, MakeSpec, Declare, Enqueue, DlqRequeue, Delete, ReplayAll, Roomy, TablesAgree, Letter, Straight, Found,
      DlqName, OriginQueue, Idle;
    var dn := DlqName(n);
    var s3 := Enqueue(Declare(Declare(Init(cfg), n, NO_LETTERS, true), dn, DEFAULT_ARGS, true), m, now, true).0;
    var recs := [Rec(MessageRequeue(m.id, dn, dn), []), Rec(QueueDelete(n), [])];
    StrayTables(cfg, n, m, now);
    TwiceSuffixed(s3, n, m.id);
    StrayedRequeueLoses(s3, dn + SUFFIX, m.id, now, clock[3..]);
    StrayRecords(cfg, n, m, clock[..3]);
    var back := ReplayAll(Init(cfg), s3.journal, clock[..3]);
    StrayReplay(back, dn, n, m.id, clock[3..]);
    ReplayConcat(Init(cfg), s3.journal, recs, clock);
  }
}
