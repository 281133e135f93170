/** The engine's full invariant over any number of lifetimes: exactly when it holds in every state that the
    engine is in, at work and while it recovers. */
module SoundHistories {
  import opened Types
  import opened Heaps
  import opened Journal
  import opened Engine
  import opened Index
  import opened Invariant
  import opened InvariantOps
  import opened Places
  import Ticks
  import opened Requeue
  import opened Runs
  import opened Snapshot
  import opened Replay
  import opened Recovery
  import opened Restarts
  import opened Crashes
  import opened Worlds
  import opened RestartInv
  import opened Traces
  import opened Order

  // ----- no id is published twice on the disk -----

  predicate OnceFrom(recs: seq<Rec>, ids: set<Id>)
    decreases |recs|
  {
    recs == [] || (RecIds(recs[0]) !! ids && OnceFrom(recs[1..], ids + RecIds(recs[0])))
  }

  lemma {:induction false} OnceConcat(a: seq<Rec>, b: seq<Rec>, ids: set<Id>)
    ensures OnceFrom(a + b, ids) <==> OnceFrom(a, ids) && OnceFrom(b, ids + LogIds(a))
    decreases |a|
  {
    hide RecIds;
    if a == [] {
      assert a + b == b && ids + LogIds(a) == ids;
    } else {
      assert (a + b)[1..] == a[1..] + b && (a + b)[0] == a[0];
      OnceConcat(a[1..], b, ids + RecIds(a[0]));
      assert (ids + RecIds(a[0])) + LogIds(a[1..]) == ids + LogIds(a);
    }
  }

  lemma OnceOne(recs: seq<Rec>, ids: set<Id>, own: set<Id>)
    requires |recs| <= 1 && (forall rec :: rec in recs ==> RecIds(rec) <= own) && own !! ids
    ensures OnceFrom(recs, ids)
  {
    hide RecIds;
    assert recs != [] ==> recs[0] in recs;
  }

  lemma OnceNone(recs: seq<Rec>, ids: set<Id>)
    requires forall rec :: rec in recs ==> RecIds(rec) == {}
    ensures OnceFrom(recs, ids)
    decreases |recs|
  {
    hide RecIds;
    if recs != [] {
      assert recs[0] in recs && forall rec :: rec in recs[1..] ==> rec in recs;
      OnceNone(recs[1..], ids + RecIds(recs[0]));
    }
  }

  ghost predicate Once(disk: Disk) {
    OnceFrom(disk.log, SavedIds(disk.base))
  }

  lemma OnceCut(disk: Disk, kept: nat)
    requires Once(disk) && kept <= |disk.log|
    ensures Once(Cut(disk, kept))
  {
    hide OnceFrom, LogIds, SavedIds;
    OnceConcat(disk.log[..kept], disk.log[kept..], SavedIds(disk.base));
    assert disk.log[..kept] + disk.log[kept..] == disk.log;
  }

  lemma OnceWork(w: World, ev: Event)
    requires WorldOk(w) && Once(w.disk) && Journalled(w.live, ev, w.used)
    ensures Once(Disk(w.disk.base, w.disk.log + Emitted(w.live, ev)))
  {
    hide TablesAgree, Roomy, BaseOk, Unlimited, SavedIds, LogIds, Exact, Torn, OnceFrom, Emitted, RecIds, Step, Straight;
    var more := Emitted(w.live, ev);
    var ids := SavedIds(w.disk.base) + LogIds(w.disk.log);
    WorkExact(w, ev);
    OnceConcat(w.disk.log, more, SavedIds(w.disk.base));
    if ev.op.DoPublish? {
      LiveUsed(w.live, w.disk, w.used);
      ShortPublish(w.live, ev.op.message, ev.now);
      OnceOne(more, ids, Published(ev));
    } else {
      OnceNone(more, ids);
    }
  }

  // ----- recovery -----

  /** Every requeue among the records finds its dead letter ready, or does not find it. */
  ghost predicate AllReady(s: State, recs: seq<Rec>, clock: seq<Time>)
    requires |clock| == |recs|
    decreases |recs|
  {
    recs == [] || (FindsReady(s, recs[0]) && AllReady(Apply(s, recs[0], clock[0]), recs[1..], clock[1..]))
  }

  /** The invariant, and the order of delivery. */
  ghost predicate Sound(s: State) {
    Inv(s) && AllRanked(s)
  }

  /** Every state of a replay is sound. */
  ghost predicate SoundAlong(s: State, recs: seq<Rec>, clock: seq<Time>)
    requires |clock| == |recs|
    decreases |recs|
  {
    Sound(s) && (recs == [] || SoundAlong(Apply(s, recs[0], clock[0]), recs[1..], clock[1..]))
  }

  lemma KnownTraceless(s: State, rec: Rec, ids: set<Id>)
    requires Known(s, ids) && RecIds(rec) !! ids
    ensures Traceless(s, rec)
  {
  }

  lemma PublishRanked(s: State, m: Message, now: Time)
    requires Inv(s) && AllRanked(s) && (m.id in s.byId || NoEntry(s.delayed, m.id))
    ensures AllRanked(Apply(s, PublishRec(m), now))
  {
    hide Inv, AllRanked, Apply, Declare, Enqueue, NoEntry, Advance;
    var s1 := Declare(s, m.queue, DEFAULT_ARGS, false);
    DeclareInv(s, m.queue, DEFAULT_ARGS, false);
    DeclareIds(s, m.queue, DEFAULT_ARGS, false);
    DeclareDelayed(s, m.queue, DEFAULT_ARGS, false);
    DeclareOrder(s, m.queue, DEFAULT_ARGS, false);
    AdvanceRanked(s, s1);
    if m.id in s.byId {
      PublishKnown(s, m, now);
    } else {
      PublishApply(s, m, now);
      if m.queue in s1.queues {
        FreshNotReady(s1, m.queue, m.id);
      }
      EnqueueOrder(s1, m, now, false);
      AdvanceRanked(s1, Enqueue(s1, m, now, false).0);
    }
  }

  lemma ApplyRanked(s: State, rec: Rec, now: Time)
    requires Inv(s) && AllRanked(s) && Idle(s.queues) && Traceless(s, rec) && FindsReady(s, rec)
    ensures AllRanked(Apply(s, rec, now))
  {
    hide Inv, AllRanked, Advance, Idle, Declare, Delete, Enqueue, DlqRequeue, Ack, Nack, NoEntry, Found, Items;
    match rec.meta
    case QueueDeclare(n, durable, maxLength, visibilityTimeout, maxAttempts, deadLetter) =>
      var a := DeclareArgs(durable, maxLength, Some(visibilityTimeout), Some(maxAttempts), deadLetter);
      DeclareOrder(s, n, a, false);
      AdvanceRanked(s, Declare(s, n, a, false));
    case QueueDelete(n) =>
      DeleteOrder(s, n, false);
      AdvanceRanked(s, Delete(s, n, false).0);
    case Bind(_, q, _) =>
      DeclareOrder(s, q, DEFAULT_ARGS, false);
      AdvanceRanked(s, Declare(s, q, DEFAULT_ARGS, false));
    case MessagePublish(id, q, attempts, maxAttempts, priority, availableAt, info) =>
      var m := Message(id, q, rec.payload, attempts, maxAttempts, priority, availableAt, info);
      assert rec == PublishRec(m);
      PublishRanked(s, m, now);
    case MessageAck(_, _) => QuietRanked(s, rec, now);
    case MessageNack(_, _, _) => QuietRanked(s, rec, now);
    case MessageRequeue(id, _, target) =>
      RequeueOrder(s, target, id, now, false);
      AdvanceRanked(s, DlqRequeue(s, target, id, now, false).0);
    case _ =>
  }

  lemma QuietRanked(s: State, rec: Rec, now: Time)
    requires Inv(s) && AllRanked(s) && Idle(s.queues) && Quiet(rec.meta)
    ensures AllRanked(Apply(s, rec, now))
  {
    hide Inv, Idle, Apply, AllRanked;
    QuietApply(s, rec, now);
  }

  /** Every state of a replay is sound if and only if every requeue in it finds its dead letter ready. */
  lemma {:induction false} ReplaySoundIff(s: State, recs: seq<Rec>, clock: seq<Time>, ids: set<Id>)
    requires Sound(s) && Idle(s.queues) && Known(s, ids) && OnceFrom(recs, ids)
    requires |clock| == |recs| && (forall t :: t in clock ==> t > 0)
    ensures SoundAlong(s, recs, clock) <==> AllReady(s, recs, clock)
    ensures AllReady(s, recs, clock) ==>
      var s' := ReplayAll(s, recs, clock);
      Sound(s') && Idle(s'.queues) && s'.cfg == s.cfg && Known(s', ids + LogIds(recs))
    decreases |recs|
  {
    hide Inv, AllRanked, Idle, Apply, Traceless, FindsReady, Roomy, Known, RecIds;
    if recs == [] {
      assert ids + LogIds(recs) == ids;
    } else {
      var s1 := Apply(s, recs[0], clock[0]);
      assert clock[0] in clock && forall t :: t in clock[1..] ==> t in clock;
      KnownTraceless(s, recs[0], ids);
      ApplyInv(s, recs[0], clock[0]);
      if FindsReady(s, recs[0]) {
        InvIndex(s);
        ApplyContinues(s, recs[0], clock[0]);
        ApplyRanked(s, recs[0], clock[0]);
        ApplyKnown(s, recs[0], clock[0], ids);
        ReplaySoundIff(s1, recs[1..], clock[1..], ids + RecIds(recs[0]));
        assert (ids + RecIds(recs[0])) + LogIds(recs[1..]) == ids + LogIds(recs);
      }
    }
  }

  // ----- the snapshot -----

  lemma RestoredRanked(q: Queue, sm: SavedMessage, last: nat)
    requires Ranked(q, last) && sm.message.id !in Items(q.ready)
    ensures Ranked(RestoredQueue(q, sm, last + 1), last + 1)
  {
    hide Push;
    var m := sm.message;
    if sm.state == DELAYED {
      assert forall e :: e in q.ready ==> e.item in Items(q.ready);
    } else {
      PushRanked(q, RestoredQueue(q, sm, last + 1), m, last);
    }
  }

  lemma SetRanked(s: State, s': State, n: QName)
    requires AllRanked(s) && s'.queues.Keys == s.queues.Keys + {n} && s.lastOrd <= s'.lastOrd
    requires Ranked(s'.queues[n], s'.lastOrd) && forall x :: x in s.queues && x != n ==> s'.queues[x] == s.queues[x]
    ensures AllRanked(s')
  {
    assert forall x :: x in s'.queues && x != n ==> x in s.queues;
  }

  lemma {:induction false} MessagesRanked(s: State, n: QName, list: seq<SavedMessage>, now: Time)
    requires AllRanked(s) && n in s.queues && DistinctIds(list)
    requires forall sm :: sm in list ==> sm.message.id !in Items(s.queues[n].ready)
    ensures AllRanked(RestoreMessages(s, n, list, now))
    decreases |list|
  {
    hide AllRanked, Ranked, Push, DistinctIds, InList, Items;
    if list != [] {
      var s1 := RestoreMessage(s, n, list[0], now);
      assert list[0] in list && forall sm :: sm in list[1..] ==> sm in list;
      TailIds(list);
      RankAt(s, n);
      RestoredRanked(s.queues[n], list[0], s.lastOrd);
      SetRanked(s, s1, n);
      forall sm | sm in list[1..]
        ensures sm.message.id !in Items(s1.queues[n].ready)
      {
        MemberListed(list[1..], sm);
        PushedItems(s.queues[n], list[0], s.lastOrd + 1);
      }
      MessagesRanked(s1, n, list[1..], now);
    }
  }

  lemma PushedItems(q: Queue, sm: SavedMessage, ord: nat)
    ensures Items(RestoredQueue(q, sm, ord).ready) <= Items(q.ready) + {sm.message.id}
  {
    hide Push;
  }

  lemma {:induction false} QueuesRanked(s: State, queues: seq<SavedQueue>, now: Time)
    requires AllRanked(s) && forall sq :: sq in queues ==> DistinctIds(sq.messages)
    ensures AllRanked(RestoreQueues(s, queues, now))
    decreases |queues|
  {
    hide AllRanked, Ranked, DistinctIds, RestoreMessages, Items;
    if queues != [] {
      var sq := queues[0];
      var s1 := SetQueue(s, sq.spec.name, NewQueue(sq.spec).(stats := sq.stats));
      assert sq in queues && forall sq' :: sq' in queues[1..] ==> sq' in queues;
      EmptyRanked(s1.queues[sq.spec.name], s.lastOrd);
      SetRanked(s, s1, sq.spec.name);
      MessagesRanked(s1, sq.spec.name, sq.messages, now);
      QueuesRanked(RestoreQueue(s, sq, now), queues[1..], now);
    }
  }

  lemma EmptyRanked(q: Queue, last: nat)
    requires q.ready == []
    ensures Ranked(q, last) && Items(q.ready) == {}
  {
  }

  lemma DescribedDistinct(src: State, saved: Saved)
    requires IsSnapshot(src, saved)
    ensures forall sq :: sq in saved.queues ==> DistinctIds(sq.messages)
  {
    hide DistinctIds, DistinctNames, InList, NameOf;
    forall sq | sq in saved.queues
      ensures DistinctIds(sq.messages)
    {
      assert Named(saved.queues, sq.spec.name);
    }
  }

  lemma NothingRanked(s: State)
    requires s.queues == map[]
    ensures AllRanked(s)
  {
  }

  lemma BaseSound(cfg: Config, base: Option<Saved>, now: Time)
    requires SoundBase(base)
    ensures Sound(Base(cfg, base, now)) && Idle(Base(cfg, base, now).queues) && Base(cfg, base, now).cfg == cfg
  {
    hide Inv, AllRanked, Idle, IsSnapshot, RestoreQueues;
    BaseInv(cfg, base, now);
    NothingRanked(Init(cfg));
    if base.Some? {
      var src :| Inv(src) && IsSnapshot(src, base.value);
      DescribedDistinct(src, base.value);
      var s := Init(cfg).(queues := map[], byId := map[], visibility := [], delayed := [], lastOrd := base.value.lastOrd);
      NothingRanked(s);
      QueuesRanked(s, base.value.queues, now);
    }
  }

  // ----- histories -----

  ghost predicate SoundWorld(w: World) {
    WorldOk(w) && Sound(w.live) && SoundBase(w.disk.base) && Once(w.disk) && Known(w.live, w.used)
  }

  /** The clock shows positive times, and what is taken back are deliveries of the consumer. */
  ghost predicate Timely(w: World, h: Happening) {
    match h
    case Work(ev) => ev.now > 0 && (ev.op.DoRecover? ==> DeliveriesIn(w.live, ev.op.consumer, ev.op.todo))
    case Crash(_, c) => (forall t :: t in c.replay ==> t > 0) && c.now > 0
    case _ => true
  }

  /** A requeue finds its dead letter ready, or does not find it: at work, and in the replay after a crash. */
  ghost predicate Settled(w: World, h: Happening)
    requires Possible(w, h)
  {
    match h
    case Work(ev) => ev.op.DoRequeue? ==> LetterReady(w.live, ev.op.name, ev.op.id)
    case Crash(kept, c) => AllReady(Base(w.live.cfg, w.disk.base, c.restore), Cut(w.disk, kept).log, c.replay)
    case _ => true
  }

  /** Every state that the engine goes through is sound. */
  ghost predicate SoundDuring(w: World, h: Happening)
    requires Possible(w, h)
  {
    && Sound(After(w, h).live)
    && (h.Crash? ==> SoundAlong(Base(w.live.cfg, w.disk.base, h.clocks.restore), Cut(w.disk, h.kept).log, h.clocks.replay))
  }

  lemma FreshId(s: State, used: set<Id>, id: Id)
    requires Known(s, used) && id !in used
    ensures Fresh(s, id)
  {
  }

  lemma WorkSoundIff(w: World, ev: Event)
    requires SoundWorld(w) && w.live.cfg.baseDelay >= 0 && Possible(w, Work(ev)) && Timely(w, Work(ev))
    ensures Sound(Step(w.live, ev)) <==> Settled(w, Work(ev))
  {
    hide WorldOk, Inv, AllRanked, Advance, SoundBase, Once, Known, Step, Fresh, LetterReady, DeliveriesIn, Straight;
    if ev.op.DoPublish? {
      FreshId(w.live, w.used, ev.op.message.id);
    }
    if ev.op.DoRequeue? {
      RequeueStepIff(w.live, ev.op.name, ev.op.id, ev.now);
    }
    if Settled(w, Work(ev)) {
      AllowedNow(w.live, ev);
      StepInv(w.live, ev);
      StepOrder(w.live, ev);
      AdvanceRanked(w.live, Step(w.live, ev));
    }
  }

  lemma RequeueStepIff(s: State, n: QName, id: Id, now: Time)
    requires Inv(s) && now > 0
    ensures Inv(Step(s, Event(DoRequeue(n, id), now))) <==> LetterReady(s, n, id)
  {
    hide Inv, DlqRequeue, LetterReady;
    RequeueInvIff(s, n, id, now, true);
  }

  lemma AllowedNow(s: State, ev: Event)
    requires ev.now > 0 && Callable(s, ev.op) && (ev.op.DoPublish? ==> Fresh(s, ev.op.message.id))
    requires ev.op.DoRecover? ==> DeliveriesIn(s, ev.op.consumer, ev.op.todo)
    requires ev.op.DoRequeue? ==> LetterReady(s, ev.op.name, ev.op.id)
    ensures Allowed(s, ev)
  {
    hide Fresh, Found, Items, DeliveriesIn;
  }

  lemma CrashSoundIff(w: World, kept: nat, c: Clocks)
    requires SoundWorld(w) && w.live.cfg.baseDelay >= 0 && Possible(w, Crash(kept, c)) && Timely(w, Crash(kept, c))
    ensures SoundDuring(w, Crash(kept, c)) <==> Settled(w, Crash(kept, c))
    ensures Settled(w, Crash(kept, c)) ==> Known(After(w, Crash(kept, c)).live, w.used)
  {
    hide WorldOk, Inv, AllRanked, Advance, SoundBase, Once, Known, Idle, Base, ReplayAll, AllReady, SoundAlong, Tick,
      Written, OnceFrom, PlaceOf;
    var cfg, disk := w.live.cfg, Cut(w.disk, kept);
    var s := Base(cfg, disk.base, c.restore);
    OnceCut(w.disk, kept);
    OnceDisk(disk);
    BaseSound(cfg, disk.base, c.restore);
    BaseKnown(cfg, disk.base, c.restore);
    ReplaySoundIff(s, disk.log, c.replay, SavedIds(disk.base));
    if AllReady(s, disk.log, c.replay) {
      var r := Replayed(cfg, disk, c.restore, c.replay);
      Ticks.TickIsScan(r, c.tick, c.now);
      TickOrder(r, c.tick, c.now);
      AdvanceRanked(r, Tick(r, c.tick, c.now));
      InvIndex(r);
      TickKnown(r, c.tick, c.now, Written(disk));
      CutUsed(w, kept);
      KnownMore(Tick(r, c.tick, c.now), Written(disk), w.used);
    }
  }

  lemma OnceDisk(disk: Disk)
    requires Once(disk)
    ensures OnceFrom(disk.log, SavedIds(disk.base)) && SavedIds(disk.base) + LogIds(disk.log) == Written(disk)
  {
    hide OnceFrom, SavedIds, LogIds;
  }

  lemma CutUsed(w: World, kept: nat)
    requires WorldOk(w) && kept <= |w.disk.log|
    ensures Written(Cut(w.disk, kept)) <= w.used
  {
    hide IndexOk, Roomy, BaseOk, Unlimited, Exact, Torn, Written;
    CutWritten(w.disk, kept);
  }

  lemma WorkSound(w: World, ev: Event)
    requires SoundWorld(w) && w.live.cfg.baseDelay >= 0 && Possible(w, Work(ev)) && Timely(w, Work(ev)) && Settled(w, Work(ev))
    ensures SoundWorld(After(w, Work(ev))) && After(w, Work(ev)).live.cfg == w.live.cfg
  {
    hide Sound, SoundBase, Known, Step, Straight, LetterReady, WorldOk, Once, IndexOk, DeliveriesIn, Emitted;
    WorkOk(w, ev);
    WorkSoundIff(w, ev);
    OnceWork(w, ev);
    WorkExact(w, ev);
    SoundIndex(w.live);
    StepKnown(w.live, ev, w.used);
  }

  lemma SoundIndex(s: State)
    requires Sound(s)
    ensures IndexOk(s)
  {
    hide PartsOk, HeapsOk, IndexOk, AllRanked;
  }

  lemma LogSound(s: State, meta: Meta, ids: set<Id>)
    requires Sound(s) && Known(s, ids)
    ensures Sound(Log(s, meta, [], true)) && Known(Log(s, meta, [], true), ids)
  {
  }

  lemma RouteSound(w: World, meta: Meta)
    requires SoundWorld(w) && Possible(w, Route(meta))
    ensures SoundWorld(After(w, Route(meta))) && After(w, Route(meta)).live.cfg == w.live.cfg
  {
    hide Sound, SoundBase, Known, WorldOk, OnceFrom, SavedIds, LogIds;
    RouteOk(w, meta);
    LogSound(w.live, meta, w.used);
    OnceConcat(w.disk.log, [Rec(meta, [])], SavedIds(w.disk.base));
    OnceNone([Rec(meta, [])], SavedIds(w.disk.base) + LogIds(w.disk.log));
  }

  lemma SaveSound(w: World, saved: Saved)
    requires SoundWorld(w) && Possible(w, Save(saved))
    ensures SoundWorld(After(w, Save(saved)))
  {
    hide AllRanked, IsSnapshot, Known, WorldOk, IndexOk, PartsOk, HeapsOk, SavedIds;
    SaveOk(w, saved);
  }

  lemma CrashSound(w: World, kept: nat, c: Clocks)
    requires SoundWorld(w) && w.live.cfg.baseDelay >= 0 && Possible(w, Crash(kept, c)) && Timely(w, Crash(kept, c))
    requires Settled(w, Crash(kept, c))
    ensures SoundWorld(After(w, Crash(kept, c))) && After(w, Crash(kept, c)).live.cfg == w.live.cfg
  {
    hide Sound, SoundBase, Known, WorldOk, Once, SoundAlong, AllReady, Base, Recovered;
    CrashOk(w, kept, c);
    CrashSoundIff(w, kept, c);
    OnceCut(w.disk, kept);
    CrashBase(w, kept, c);
  }

  lemma CrashBase(w: World, kept: nat, c: Clocks)
    requires WorldOk(w) && Possible(w, Crash(kept, c))
    ensures After(w, Crash(kept, c)).live.cfg == w.live.cfg
  {
    hide IndexOk, Roomy, BaseOk, Unlimited, Exact, Torn, Written, Sim, Twins, Replayed, Recovered, Cut;
    CutFacts(w.disk, kept);
    RoomyCfg(w.live);
    CutUnlimited(w.disk, kept);
    RecoveredTwins(w.live.cfg, Cut(w.disk, kept), c, c.restore, c.replay);
  }

  /** One step of a history: every state that it leads through is sound if and only if a requeue in it finds its
      dead letter ready. */
  lemma HappeningSoundIff(w: World, h: Happening)
    requires SoundWorld(w) && w.live.cfg.baseDelay >= 0 && Possible(w, h) && Timely(w, h)
    ensures SoundDuring(w, h) <==> Settled(w, h)
    ensures Settled(w, h) ==> SoundWorld(After(w, h)) && After(w, h).live.cfg == w.live.cfg
  {
    hide WorldOk, Sound, SoundBase, Once, Known, LetterReady, AllReady, SoundAlong, DeliveriesIn, Step, Emitted, Base,
      Recovered, IsSnapshot, Routed, Straight;
    match h
    case Work(ev) =>
      WorkSoundIff(w, ev);
      if Settled(w, h) {
        WorkSound(w, ev);
      }
    case Route(meta) => RouteSound(w, meta);
    case Sync(upTo) => SyncOk(w, upTo);
    case Save(saved) => SaveSound(w, saved);
    case Crash(kept, c) =>
      CrashSoundIff(w, kept, c);
      if Settled(w, h) {
        CrashSound(w, kept, c);
      }
  }

  ghost predicate TimelyRun(w: World, run: seq<Happening>)
    requires PossibleRun(w, run)
    decreases |run|
  {
    run == [] || (Timely(w, run[0]) && TimelyRun(After(w, run[0]), run[1..]))
  }

  ghost predicate SettledRun(w: World, run: seq<Happening>)
    requires PossibleRun(w, run)
    decreases |run|
  {
    run == [] || (Settled(w, run[0]) && SettledRun(After(w, run[0]), run[1..]))
  }

  ghost predicate SoundThroughout(w: World, run: seq<Happening>)
    requires PossibleRun(w, run)
    decreases |run|
  {
    run == [] || (SoundDuring(w, run[0]) && SoundThroughout(After(w, run[0]), run[1..]))
  }

  lemma {:induction false} RunSoundIff(w: World, run: seq<Happening>)
    requires SoundWorld(w) && w.live.cfg.baseDelay >= 0 && PossibleRun(w, run) && TimelyRun(w, run)
    ensures SoundThroughout(w, run) <==> SettledRun(w, run)
    ensures SettledRun(w, run) ==> SoundWorld(AfterAll(w, run)) && AfterAll(w, run).live.cfg == w.live.cfg
    decreases |run|
  {
    hide SoundWorld, Possible, After, Timely, Settled, SoundDuring;
    if run != [] {
      HappeningSoundIff(w, run[0]);
      if Settled(w, run[0]) {
        RunSoundIff(After(w, run[0]), run[1..]);
      }
    }
  }

  lemma StartSound(cfg: Config)
    requires cfg.maxLength == None
    ensures SoundWorld(World(Init(cfg), Disk(None, []), 0, {}))
  {
    hide WorldOk, Inv, AllRanked;
    StartOk(cfg);
    InitInv(cfg);
    NothingRanked(Init(cfg));
  }

  /** Over any number of lifetimes. In a history of work on unbounded queues, flushes, snapshots, crashes that tear
      the log, and restarts, with positive clock readings: every state that the engine is in, at work and record by
      record while it recovers, has the full invariant and the order of delivery, if and only if every requeue, made
      or replayed, finds its dead letter ready. No condition is left on the disk. */
  lemma HistorySoundIff(cfg: Config, run: seq<Happening>)
    requires cfg.maxLength == None && cfg.baseDelay >= 0
    requires
      var start := World(Init(cfg), Disk(None, []), 0, {});
      PossibleRun(start, run) && TimelyRun(start, run)
    ensures
      var start := World(Init(cfg), Disk(None, []), 0, {});
      && (SoundThroughout(start, run) <==> SettledRun(start, run))
      && (SettledRun(start, run) ==> Inv(AfterAll(start, run).live) && AllRanked(AfterAll(start, run).live))
  {
    hide WorldOk, Inv, AllRanked, PossibleRun, TimelyRun, SoundThroughout, SettledRun, AfterAll;
    StartSound(cfg);
    RunSoundIff(World(Init(cfg), Disk(None, []), 0, {}), run);
  }
}
