/** When the engine's full invariant holds after a restart. */
module RestartInv {
  import opened Types
  import opened DlqNames
  import opened Heaps
  import opened Journal
  import opened Engine
  import opened Index
  import opened Invariant
  import opened InvariantOps
  import opened Places
  import opened Ticks
  import opened Requeue
  import opened Runs
  import opened Snapshot
  import opened Replay
  import opened Recovery
  import opened Restoring
  import opened Restarts
  import opened Worlds

  /** A record that publishes a message is about one that is stored already or that the engine has no trace of. */
  ghost predicate Traceless(s: State, rec: Rec) {
    rec.meta.MessagePublish? ==> rec.meta.id in s.byId || NoEntry(s.delayed, rec.meta.id)
  }

  /** A record that requeues a message finds it ready in the dead-letter queue, or does not find it. */
  ghost predicate FindsReady(s: State, rec: Rec) {
    rec.meta.MessageRequeue? ==> LetterReady(s, rec.meta.target, rec.meta.id)
  }

  ghost predicate LetterReady(s: State, n: QName, id: Id) {
    Found(s, n, id) ==> id in Items(s.queues[DlqName(OriginQueue(n))].ready)
  }

  lemma PublishInv(s: State, m: Message, now: Time)
    requires Inv(s) && now > 0 && (m.id in s.byId || NoEntry(s.delayed, m.id))
    ensures Inv(Apply(s, PublishRec(m), now))
  {
    hide Inv, Apply, Declare, Enqueue, NoEntry;
    DeclareInv(s, m.queue, DEFAULT_ARGS, false);
    DeclareIds(s, m.queue, DEFAULT_ARGS, false);
    DeclareDelayed(s, m.queue, DEFAULT_ARGS, false);
    if m.id in s.byId {
      PublishKnown(s, m, now);
    } else {
      PublishApply(s, m, now);
      EnqueueInv(Declare(s, m.queue, DEFAULT_ARGS, false), m, now, false);
    }
  }

  lemma DeclareDelayed(s: State, n: QName, a: DeclareArgs, persist: bool)
    ensures Declare(s, n, a, persist).delayed == s.delayed
    decreases if IsDlq(n) then 0 else 1
  {
  }

  lemma RequeueInvIff(s: State, n: QName, id: Id, now: Time, persist: bool)
    requires Inv(s) && now > 0
    ensures Inv(DlqRequeue(s, n, id, now, persist).0) <==> LetterReady(s, n, id)
  {
    hide PartsOk, HeapsOk, TablesAgree, DlqRequeue, Found, Items, IsDlq;
    RequeueForm(s, n, id, now, persist);
    if Found(s, n, id) {
      RequeueKeepsIff(s, n, id, now, persist);
    }
  }

  lemma IdleQuiet(s: State, rec: Rec, now: Time)
    requires Inv(s) && Idle(s.queues) && Quiet(rec.meta)
    ensures Inv(Apply(s, rec, now))
  {
    hide Inv, Idle, Apply;
    QuietApply(s, rec, now);
  }

  /** Replaying one record keeps the full invariant if and only if it does not requeue a dead letter that is
      waiting for its delay. */
  lemma ApplyInv(s: State, rec: Rec, now: Time)
    requires Inv(s) && Idle(s.queues) && now > 0 && Traceless(s, rec)
    ensures Inv(Apply(s, rec, now)) <==> FindsReady(s, rec)
  {
    hide Inv, Idle, Declare, Delete, Enqueue, DlqRequeue, Ack, Nack, NoEntry, Found, Items;
    match rec.meta
    case QueueDeclare(n, durable, maxLength, visibilityTimeout, maxAttempts, deadLetter) =>
      DeclareInv(s, n, DeclareArgs(durable, maxLength, Some(visibilityTimeout), Some(maxAttempts), deadLetter), false);
    case QueueDelete(n) => DeleteInv(s, n, false);
    case Bind(_, q, _) => DeclareInv(s, q, DEFAULT_ARGS, false);
    case MessagePublish(id, q, attempts, maxAttempts, priority, availableAt, info) =>
      var m := Message(id, q, rec.payload, attempts, maxAttempts, priority, availableAt, info);
      assert rec == PublishRec(m);
      PublishInv(s, m, now);
    case MessageAck(_, _) => IdleQuiet(s, rec, now);
    case MessageNack(_, _, _) => IdleQuiet(s, rec, now);
    case MessageRequeue(id, _, target) => RequeueInvIff(s, target, id, now, false);
    case _ =>
  }

  /** Every record finds what it needs in the state that the records before it leave. */
  ghost predicate Clean(s: State, recs: seq<Rec>, clock: seq<Time>)
    requires |clock| == |recs|
    decreases |recs|
  {
    recs == [] || (Traceless(s, recs[0]) && FindsReady(s, recs[0]) && Clean(Apply(s, recs[0], clock[0]), recs[1..], clock[1..]))
  }

  lemma {:induction false} ReplayInv(s: State, recs: seq<Rec>, clock: seq<Time>)
    requires Inv(s) && Idle(s.queues) && |clock| == |recs| && (forall t :: t in clock ==> t > 0)
    requires Clean(s, recs, clock)
    ensures Inv(ReplayAll(s, recs, clock)) && Idle(ReplayAll(s, recs, clock).queues) && ReplayAll(s, recs, clock).cfg == s.cfg
    decreases |recs|
  {
    hide Inv, Idle, Apply, Traceless, FindsReady, Roomy;
    if recs != [] {
      assert clock[0] in clock && forall t :: t in clock[1..] ==> t in clock;
      ApplyInv(s, recs[0], clock[0]);
      InvIndex(s);
      ApplyContinues(s, recs[0], clock[0]);
      ReplayInv(Apply(s, recs[0], clock[0]), recs[1..], clock[1..]);
    }
  }

  /** A snapshot of a sound engine, or none. */
  ghost predicate SoundBase(base: Option<Saved>) {
    base.Some? ==> exists src :: Inv(src) && IsSnapshot(src, base.value)
  }

  lemma BaseInv(cfg: Config, base: Option<Saved>, now: Time)
    requires SoundBase(base)
    ensures Inv(Base(cfg, base, now)) && Idle(Base(cfg, base, now).queues) && Base(cfg, base, now).cfg == cfg
  {
    hide Inv, Idle, IsSnapshot, Restore, PlaceOf, Partial, Letter;
    if base.Some? {
      var src :| Inv(src) && IsSnapshot(src, base.value);
      RoundTrip(src, base.value, Init(cfg), now);
      InvIndex(src);
      RestoreTables(src, base.value, Init(cfg), now);
    } else {
      InitInv(cfg);
      NothingIdle(cfg);
    }
  }

  lemma NothingIdle(cfg: Config)
    ensures Idle(Init(cfg).queues)
  {
  }

  /** A restart gives an engine with the full invariant, so that everything proved of runs from such a state
      holds of what it does next. */
  lemma RecoveredInv(cfg: Config, disk: Disk, c: Clocks)
    requires SoundBase(disk.base) && cfg.baseDelay >= 0 && |c.replay| == |disk.log|
    requires (forall t :: t in c.replay ==> t > 0) && c.now > 0
    requires Clean(Base(cfg, disk.base, c.restore), disk.log, c.replay)
    ensures Inv(Recovered(cfg, disk, c)) && Recovered(cfg, disk, c).cfg == cfg
  {
    hide Inv, Idle, Base, ReplayAll, Clean, SoundBase, Tick, PlaceOf;
    BaseInv(cfg, disk.base, c.restore);
    ReplayInv(Base(cfg, disk.base, c.restore), disk.log, c.replay);
    TickIsScan(Replayed(cfg, disk, c.restore, c.replay), c.tick, c.now);
  }

  lemma RestoredDelayed(s: State, n: QName, id: Id, saved: Saved, t: Time)
    requires Inv(s) && IsSnapshot(s, saved) && n in s.queues && !IsDlq(n)
    requires PlaceOf(s, id).DelayedIn? && PlaceOf(s, id).queue == DlqName(n)
    ensures
      var r := Restore(Init(s.cfg), saved, t);
      && Inv(r) && Idle(r.queues) && Found(r, n, id) && id !in Items(r.queues[DlqName(n)].ready)
  {
    hide Inv, IsSnapshot, Restore, PlaceOf, Idle, IsDlq, Items, Partial, Letter, DlqName;
    var r := Restore(Init(s.cfg), saved, t);
    RoundTrip(s, saved, Init(s.cfg), t);
    InvIndex(s);
    RestoreTables(s, saved, Init(s.cfg), t);
    PlaceQueue(s, id);
    assert DlqName(n) in r.queues.Keys && n in r.queues.Keys;
    PlaceMeaning(r, DlqName(n), id);
  }

  /** It can fail: a snapshot taken while a dead letter waits for its delay, and a requeue of that dead letter
      after its release, which itself leaves no record. The replay requeues it while it is still delayed. */
  lemma DelayedLetterBreaks(s: State, n: QName, id: Id, saved: Saved, t: Time, clock: seq<Time>)
    requires Inv(s) && IsSnapshot(s, saved) && |clock| == 1 && clock[0] > 0
    requires n in s.queues && !IsDlq(n)
    requires PlaceOf(s, id).DelayedIn? && PlaceOf(s, id).queue == DlqName(n)
    ensures !Inv(Replayed(s.cfg, Disk(Some(saved), [Rec(MessageRequeue(id, DlqName(n), n), [])]), t, clock))
  {
    hide Inv, IsSnapshot, Restore, PlaceOf, Idle, Apply, ReplayAll, IsDlq, Items, DlqName, Found;
    var rec := Rec(MessageRequeue(id, DlqName(n), n), []);
    var r := Restore(Init(s.cfg), saved, t);
    RestoredDelayed(s, n, id, saved, t);
    ApplyInv(r, rec, clock[0]);
    ReplayOne(r, rec, clock);
  }

  lemma DeclareFresh(s: State, n: QName, a: DeclareArgs, id: Id)
    requires Fresh(s, id)
    ensures Fresh(Declare(s, n, a, false), id)
  {
    hide Declare, NoEntry;
    DeclareIds(s, n, a, false);
    DeclareDelayed(s, n, a, false);
  }

  lemma PublishRecord(live: State, m: Message, now: Time)
    requires Inv(live) && Fresh(live, m.id) && Enqueue(live, m, now, true).1 == EnqueueOk
    ensures
      var live' := Enqueue(live, m, now, true).0;
      && PlaceOf(live', m.id) != Gone && PlaceOf(live', m.id).message.queue == m.queue
      && PlaceOf(live', m.id).message.id == m.id
      && live'.journal == live.journal + [PublishRec(PlaceOf(live', m.id).message)]
  {
    hide Inv, Fresh, PlaceOf, Full, Admit, Heaps.Push;
    EnqueuePlace(live, m, now, true);
  }

  /** Where a published message is after its record was replayed at "later", into a queue as it is now. */
  function ReplayedAs(m: Message, q: Queue, later: Time): Place {
    if q.spec.maxLength.Some? && |q.messages| >= q.spec.maxLength.value then Gone
    else if m.availableAt.Some? && m.availableAt.value > later then DelayedIn(m.queue, m)
    else ReadyIn(m.queue, m.(availableAt := None))
  }

  /** The record of a publish carries the whole message. Replaying it on an engine that has no trace of the id stores
      the message as the live engine stored it, attempts and due time included, unless the queue is full there; it is
      delayed if its due time is still to come, and ready without one otherwise. Nothing else moves. */
  lemma PublishComesBack(live: State, live': State, stored: Place, rec: Rec, m: Message, now: Time,
                         back: State, back1: State, later: Time)
    requires Inv(live) && Fresh(live, m.id) && (live', EnqueueOk) == Enqueue(live, m, now, true)
    requires stored == PlaceOf(live', m.id) && live'.journal == live.journal + [rec]
    requires Inv(back) && Fresh(back, m.id) && back1 == Declare(back, m.queue, DEFAULT_ARGS, false)
    ensures stored != Gone && m.queue in back1.queues
    ensures SameElsewhere(back, Apply(back, rec, later), m.id)
    ensures PlaceOf(Apply(back, rec, later), m.id) == ReplayedAs(stored.message, back1.queues[m.queue], later)
  {
    hide Inv, Fresh, PlaceOf, Declare, Apply, Full, Enqueue, SameElsewhere;
    PublishRecord(live, m, now);
    assert rec == live'.journal[|live.journal|] == PublishRec(stored.message);
    DeclareInv(back, m.queue, DEFAULT_ARGS, false);
    DeclareKeepsQueues(back, m.queue, DEFAULT_ARGS, false);
    DeclareFresh(back, m.queue, DEFAULT_ARGS, m.id);
    ReplayedPlace(back, stored.message, later);
    InvIndex(back);
    DeclarePlaces(back, m.queue, DEFAULT_ARGS, false);
    EnqueuedPlace(back1, stored.message, later);
    PlacesTrans(back, back1, Apply(back, rec, later), m.id);
  }

  lemma ReplayedPlace(back: State, m: Message, later: Time)
    requires Fresh(back, m.id)
    ensures Apply(back, PublishRec(m), later) == Enqueue(Declare(back, m.queue, DEFAULT_ARGS, false), m, later, false).0
  {
    hide Declare, Enqueue, Apply, NoEntry;
    PublishApply(back, m, later);
  }

  lemma EnqueuedPlace(s: State, m: Message, now: Time)
    requires Inv(s) && Fresh(s, m.id) && m.queue in s.queues
    ensures SameElsewhere(s, Enqueue(s, m, now, false).0, m.id)
    ensures PlaceOf(Enqueue(s, m, now, false).0, m.id) == ReplayedAs(m, s.queues[m.queue], now)
  {
    hide Inv, PlaceOf, SameElsewhere, NoEntry, Enqueue;
    EnqueueAnswer(s, m, now, false);
    if Enqueue(s, m, now, false).1 == EnqueueOk {
      EnqueuePlace(s, m, now, false);
    } else {
      PlaceMeaning(s, m.queue, m.id);
      SameItself(s, m.id);
    }
  }

  lemma SameItself(s: State, id: Id)
    ensures SameElsewhere(s, s, id)
  {
    hide PlaceOf;
  }

  lemma PlacesTrans(s: State, s1: State, s2: State, id: Id)
    requires SameElsewhere(s1, s2, id) && forall x :: PlaceOf(s1, x) == PlaceOf(s, x)
    ensures SameElsewhere(s, s2, id)
  {
    hide PlaceOf;
  }

  /** After a restart no message is in flight, and none is delayed whose due time the recovery's clock has passed. */
  lemma RecoveredIdle(cfg: Config, disk: Disk, c: Clocks, id: Id)
    requires SoundBase(disk.base) && cfg.baseDelay >= 0 && |c.replay| == |disk.log|
    requires (forall t :: t in c.replay ==> t > 0) && c.now > 0
    requires Clean(Base(cfg, disk.base, c.restore), disk.log, c.replay)
    ensures
      var p := PlaceOf(Recovered(cfg, disk, c), id);
      && !p.InflightIn?
      && (p.DelayedIn? ==> p.message.availableAt.Some? && p.message.availableAt.value > c.tick)
  {
    hide Inv, Idle, Base, ReplayAll, Clean, SoundBase, Tick, PlaceOf, Due, Expired, Failed, Released;
    var s := Replayed(cfg, disk, c.restore, c.replay);
    BaseInv(cfg, disk.base, c.restore);
    ReplayInv(Base(cfg, disk.base, c.restore), disk.log, c.replay);
    TickIsScan(s, c.tick, c.now);
    IdlePlace(s, id);
    if PlaceOf(s, id).DelayedIn? {
      DelayedDue(s, id);
    }
    TickedIdle(s, PlaceOf(s, id), c.tick, c.now);
  }

  lemma IdlePlace(s: State, id: Id)
    requires Idle(s.queues)
    ensures !PlaceOf(s, id).InflightIn?
  {
  }

  lemma DelayedDue(s: State, id: Id)
    requires Inv(s) && PlaceOf(s, id).DelayedIn?
    ensures PlaceOf(s, id).message.availableAt.Some?
  {
    hide HeapsOk, TablesAgree, Items, IsDlq;
    PartOf(s, s.byId[id]);
  }

  lemma TickedIdle(s: State, p: Place, ts: Time, now: Time)
    requires !p.InflightIn? && (p.DelayedIn? ==> p.message.availableAt.Some?)
    ensures
      var p' := Ticked(s, p, ts, now);
      !p'.InflightIn? && (p'.DelayedIn? ==> p'.message.availableAt.Some? && p'.message.availableAt.value > ts)
  {
    hide Failed;
  }
}
