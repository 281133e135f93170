/** Whole runs of the broker: registering, limiting, cancelling, delivering, settling and the engine's own steps. */
module BrokerRuns {
  import opened Types
  import opened Engine
  import opened Index
  import opened InvariantOps
  import opened Runs
  import opened Consumers
  import opened Deliveries
  import opened Prefetch

  datatype BrokerOp =
    | DoRegister(id: ConsumerId, conn: ConnId, names: seq<QName>, prefetch: int)
    | DoQos(id: ConsumerId, prefetch: int)
    | DoQosOf(conn: ConnId, prefetch: int)
    | DoCancel(id: ConsumerId, todo: seq<Addr>, left: set<QName>)
    | DoGet(name: QName)
    | DoPump(name: QName, send: (ConsumerId, Id) -> bool)
    | DoAckCmd(message: Id, send: (ConsumerId, Id) -> bool)
    | DoNackCmd(message: Id, requeue: bool, send: (ConsumerId, Id) -> bool)
    | DoEngine(op: Op)

  datatype BrokerEvent = BrokerEvent(op: BrokerOp, now: Time)

  /** Consumer ids are registered once, published ids are new, and a cancellation takes back what recover_consumer
      takes back: all the consumer's deliveries, or those in the queues visited before the error. */
  ghost predicate BrokerAllowed(b: Broker, ev: BrokerEvent) {
    match ev.op
    case DoRegister(id, _, _, _) => id !in b.consumers
    case DoCancel(id, todo, left) => id in b.consumers ==> TakenBack(Dismiss(b, id).engine, id, todo, left, ev.now, true)
    case DoEngine(op) => Background(op) && (op.DoPublish? ==> op.message.id !in b.engine.byId)
    case _ => true
  }

  /** Sets the limit of every consumer of a connection. */
  function QosOf(b: Broker, conn: ConnId, count: int): Broker {
    b.(consumers := map id | id in b.consumers ::
         if b.consumers[id].connection == conn then SetPrefetch(b.consumers[id], count) else b.consumers[id])
  }

  ghost function BrokerStep(b: Broker, ev: BrokerEvent): Broker
    requires BrokerAllowed(b, ev)
  {
    match ev.op
    case DoRegister(id, conn, names, prefetch) => Register(b, id, conn, names, prefetch)
    case DoQos(id, prefetch) => Qos(b, id, prefetch).0
    case DoQosOf(conn, prefetch) => QosOf(b, conn, prefetch)
    case DoCancel(id, todo, left) =>
      if id in b.consumers then
        TakenFacts(Dismiss(b, id).engine, id, todo, left, ev.now, true);
        Cancel(b, id, todo, ev.now).0
      else b
    case DoGet(name) => TryReserve(b, name, ev.now).0
    case DoPump(name, send) => Pump(b, name, ev.now, send)
    case DoAckCmd(id, send) => CmdAck(b, id, ev.now, send).0
    case DoNackCmd(id, requeue, send) => CmdNack(b, id, requeue, ev.now, send).0
    case DoEngine(op) => b.(engine := Step(b.engine, Event(op, ev.now)))
  }

  // ----- the accounts stay covered -----

  lemma CoreHeld(s: State, s': State)
    requires SameCore(s, s')
    ensures NoNew(s.queues, s'.queues)
  {
    forall n | n in s'.queues
      ensures n in s.queues && s'.queues[n].inflight == s.queues[n].inflight
    {
      assert n in s'.queues.Keys;
      assert Plain(s'.queues[n]) == Plain(s.queues[n]);
    }
  }

  lemma CoreCovered(b: Broker, engine: State, owed: map<ConsumerId, nat>)
    requires Covered(b, owed) && SameCore(b.engine, engine)
    ensures Covered(b.(engine := engine), owed)
  {
    hide SameCore, TablesAgree, HeldSet;
    CoreHeld(b.engine, engine);
    CoreIndex(b.engine, engine);
    NoNewCovered(b, engine, owed);
  }

  lemma ServeCovered(b: Broker, n: QName, id: ConsumerId, now: Time, owed: map<ConsumerId, nat>)
    requires Covered(b, owed) && Eligible(b, id)
    ensures Covered(Serve(b, n, id, now).0, owed)
    ensures Serve(b, n, id, now).1.Some? ==>
      var m := Serve(b, n, id, now).1.value.message.id;
      var engine := Serve(b, n, id, now).0.engine;
      Serve(b, n, id, now).1.value.consumer == id && HeldBy(engine, n, m, id) && m in engine.byId && engine.byId[m] == n
      && Holds(engine, n, m)
  {
    hide TablesAgree, HeldSet, NoNew, Reserve;
    ReserveGives(b.engine, n, id, now);
    var (engine, r) := Reserve(b.engine, n, id, now);
    if r.Some? {
      GiveCovered(b, engine, Addr(n, r.value.id), id, owed);
    } else {
      NoNewCovered(b, engine, owed);
    }
  }

  /** An attempt to deliver keeps the accounts covered; what it delivers, its consumer holds. */
  lemma TryCovered(b: Broker, n: QName, now: Time, owed: map<ConsumerId, nat>)
    requires Covered(b, owed)
    ensures Covered(TryReserve(b, n, now).0, owed)
    ensures TryReserve(b, n, now).1.Some? ==>
      var item := TryReserve(b, n, now).1.value;
      var engine := TryReserve(b, n, now).0.engine;
      HeldBy(engine, n, item.message.id, item.consumer) && item.message.id in engine.byId
      && engine.byId[item.message.id] == n && Holds(engine, n, item.message.id)
  {
    hide Covered, Serve, Skips, TryRounds, Eligible, SameCore, HeldBy, Holds;
    if n in b.engine.queues && b.engine.queues[n].consumerIds != [] {
      var len := |b.engine.queues[n].consumerIds|;
      var k := Skips(b, n, 0, len);
      RoundsServe(b, n, now, 0, len);
      RotatedNext(b, n, 0);
      if k < len {
        var b1 := Rotated(b, n, k + 1);
        EligibleKnown(b, Asked(b, n, k));
        RotatedCore(b, n, k + 1);
        CoreCovered(b, b1.engine, owed);
        RotatedAsks(b, n, k + 1);
        ServeCovered(b1, n, Asked(b, n, k), now, owed);
      } else {
        RotatedCore(b, n, len);
        CoreCovered(b, Rotated(b, n, len).engine, owed);
      }
    }
  }

  lemma HeldNack(s: State, n: QName, id: Id, c: ConsumerId, now: Time)
    requires HeldBy(s, n, id, c) && id in s.byId && s.byId[id] == n && Holds(s, n, id)
    ensures Nack(s, id, true, now, true).1 == NackOk && InflightConsumer(s, id) == Some(c)
  {
    hide RetryOrDead;
  }

  lemma NackCovered(b: Broker, id: Id, requeue: bool, now: Time, owed: map<ConsumerId, nat>)
    requires Covered(b, owed) && Nack(b.engine, id, requeue, now, true).1 == NackOk
    ensures InflightConsumer(b.engine, id).Some?
    ensures Covered(OnAck(b.(engine := Nack(b.engine, id, requeue, now, true).0), InflightConsumer(b.engine, id).value), owed)
  {
    hide Nack, TablesAgree, HeldSet, TakesOne, InflightConsumer;
    NackTakes(b.engine, id, requeue, now);
    NackIndex(b.engine, id, requeue, now, true);
    TakeCovered(b, Nack(b.engine, id, requeue, now, true).0, Addr(b.engine.byId[id], id), InflightConsumer(b.engine, id).value, owed);
  }

  lemma {:induction false} PumpCovered(b: Broker, n: QName, now: Time, send: (ConsumerId, Id) -> bool, owed: map<ConsumerId, nat>)
    requires Covered(b, owed)
    ensures Covered(Pump(b, n, now, send), owed)
    decreases ReadyCount(b, n)
  {
    hide Covered, TryReserve, Nack, OnAck, HeldBy, Holds;
    var (b1, r) := TryReserve(b, n, now);
    TryCovered(b, n, now, owed);
    if r.Some? {
      TryReserveShortens(b, n, now);
      if send(r.value.consumer, r.value.message.id) {
        PumpCovered(b1, n, now, send, owed);
      } else {
        HeldNack(b1.engine, n, r.value.message.id, r.value.consumer, now);
        NackCovered(b1, r.value.message.id, true, now, owed);
      }
    }
  }

  lemma {:induction false} PumpAllCovered(b: Broker, names: seq<QName>, now: Time, send: (ConsumerId, Id) -> bool, owed: map<ConsumerId, nat>)
    requires Covered(b, owed)
    ensures Covered(PumpAll(b, names, now, send), owed)
    decreases |names|
  {
    hide Covered, Pump;
    if names != [] {
      PumpCovered(b, names[0], now, send, owed);
      PumpAllCovered(Pump(b, names[0], now, send), names[1..], now, send, owed);
    }
  }

  lemma AckCovered(b: Broker, id: Id, owed: map<ConsumerId, nat>)
    requires Covered(b, owed) && Ack(b.engine, id, true).1 == AckOk
    ensures InflightConsumer(b.engine, id).Some?
    ensures Covered(OnAck(b.(engine := Ack(b.engine, id, true).0), InflightConsumer(b.engine, id).value), owed)
  {
    hide Ack, TablesAgree, HeldSet, TakesOne, InflightConsumer;
    AckTakes(b.engine, id);
    AckIndex(b.engine, id, true);
    TakeCovered(b, Ack(b.engine, id, true).0, Addr(b.engine.byId[id], id), InflightConsumer(b.engine, id).value, owed);
  }

  lemma CmdAckCovered(b: Broker, id: Id, now: Time, send: (ConsumerId, Id) -> bool, owed: map<ConsumerId, nat>)
    requires Covered(b, owed)
    ensures Covered(CmdAck(b, id, now, send).0, owed)
  {
    hide TablesAgree, HeldSet, Ack, OnAck, PumpAll, InflightConsumer;
    if Ack(b.engine, id, true).1 == AckOk {
      AckCovered(b, id, owed);
      var c := InflightConsumer(b.engine, id).value;
      var b2 := OnAck(b.(engine := Ack(b.engine, id, true).0), c);
      if c in b2.consumers {
        PumpAllCovered(b2, b2.consumers[c].queues, now, send, owed);
      }
    } else {
      RefusedSame(b.engine, id, true, now);
    }
  }

  lemma CmdNackCovered(b: Broker, id: Id, requeue: bool, now: Time, send: (ConsumerId, Id) -> bool, owed: map<ConsumerId, nat>)
    requires Covered(b, owed)
    ensures Covered(CmdNack(b, id, requeue, now, send).0, owed)
  {
    hide TablesAgree, HeldSet, Nack, OnAck, PumpAll, NoNew, InflightConsumer;
    if Nack(b.engine, id, requeue, now, true).1 == NackOk {
      NackCovered(b, id, requeue, now, owed);
      var c := InflightConsumer(b.engine, id).value;
      var b2 := OnAck(b.(engine := Nack(b.engine, id, requeue, now, true).0), c);
      if c in b2.consumers {
        PumpAllCovered(b2, b2.consumers[c].queues, now, send, owed);
      }
    } else {
      RefusedSame(b.engine, id, requeue, now);
      NackIndex(b.engine, id, requeue, now, true);
      NoNewCovered(b, Nack(b.engine, id, requeue, now, true).0, owed);
    }
  }

  lemma JoinHeld(s: State, n: QName, id: ConsumerId)
    requires IndexOk(s)
    ensures NoNew(s.queues, Join(s, n, id).queues) && IndexOk(Join(s, n, id))
  {
    hide TablesAgree, Declare, NoNew, SameFrame;
    DeclaredNow(s, n, DEFAULT_ARGS);
    var s1 := Declare(s, n, DEFAULT_ARGS, true);
    DeclareFrame(s, n, DEFAULT_ARGS, true);
    FrameCalm(s.queues, s1.queues);
    DeclareIndex(s, n, DEFAULT_ARGS, true);
    if id !in s1.queues[n].consumerIds {
      var s2 := SetList(s1, n, s1.queues[n].consumerIds + [id]);
      ListCore(s1, n, s1.queues[n].consumerIds + [id]);
      CoreHeld(s1, s2);
      CoreIndex(s1, s2);
      NoNewTrans(s.queues, s1.queues, s2.queues);
    }
  }

  lemma ListCore(s: State, n: QName, ids: seq<ConsumerId>)
    requires n in s.queues
    ensures SameCore(s, SetList(s, n, ids))
  {
    assert SetList(s, n, ids).queues.Keys == s.queues.Keys;
  }

  lemma JoinAllHeld(s: State, names: seq<QName>, id: ConsumerId)
    requires IndexOk(s)
    ensures NoNew(s.queues, JoinAll(s, names, id).queues) && IndexOk(JoinAll(s, names, id))
    decreases |names|
  {
    hide TablesAgree, Join, NoNew;
    if names == [] {
      CalmItself(s.queues);
    } else {
      JoinHeld(s, names[0], id);
      JoinAllHeld(Join(s, names[0], id), names[1..], id);
      NoNewTrans(s.queues, Join(s, names[0], id).queues, JoinAll(s, names, id).queues);
    }
  }

  lemma LeaveAllCore(s: State, names: seq<QName>, id: ConsumerId)
    ensures SameCore(s, LeaveAll(s, names, id))
    decreases |names|
  {
    hide SameCore, Leave;
    if names == [] {
      CoreItself(s);
    } else {
      LeaveCore(s, names[0], id);
      LeaveAllCore(Leave(s, names[0], id), names[1..], id);
      CoreTrans(s, Leave(s, names[0], id), LeaveAll(s, names, id));
    }
  }

  lemma LeaveCore(s: State, n: QName, id: ConsumerId)
    ensures SameCore(s, Leave(s, n, id))
  {
    hide SameCore, RemoveFirst;
    CoreItself(s);
    if n in s.queues {
      ListCore(s, n, RemoveFirst(s.queues[n].consumerIds, id));
    }
  }

  lemma CoreItself(s: State)
    ensures SameCore(s, s)
  {
  }

  lemma RegisterCovered(b: Broker, id: ConsumerId, conn: ConnId, names: seq<QName>, prefetch: int, owed: map<ConsumerId, nat>)
    requires Covered(b, owed) && id !in b.consumers
    ensures Covered(Register(b, id, conn, names, prefetch), owed)
  {
    hide TablesAgree, HeldSet, JoinAll, NoNew;
    JoinAllHeld(b.engine, names, id);
    NoNewCovered(b, JoinAll(b.engine, names, id), owed);
  }

  lemma CancelCovered(b: Broker, id: ConsumerId, todo: seq<Addr>, now: Time, owed: map<ConsumerId, nat>)
    requires Covered(b, owed) && id in b.consumers
    requires forall a :: a in todo ==> a.queue in Dismiss(b, id).engine.queues
    ensures
      var b' := Cancel(b, id, todo, now).0;
      Covered(b', owed[id := Debt(owed, id) + |HeldSet(b'.engine, id)|])
  {
    hide TablesAgree, HeldSet, LeaveAll, NoNew, Recover, SameCore;
    var s1 := Dismiss(b, id).engine;
    var s2 := Recover(s1, todo, now, true);
    LeaveAllCore(b.engine, b.consumers[id].queues, id);
    CoreHeld(b.engine, s1);
    CoreIndex(b.engine, s1);
    RecoverIndex(s1, todo, now, true);
    RecoverCalm(s1, todo, now, true);
    NoNewTrans(b.engine.queues, s1.queues, s2.queues);
    NoNewCovered(b, s2, owed);
  }

  /** What a cancelled consumer still holds: exactly its deliveries in the queues that were not visited, and so
      nothing unless the queue map grew. */
  lemma CancelLeaves(b: Broker, id: ConsumerId, todo: seq<Addr>, left: set<QName>, now: Time)
    requires id in b.consumers && TakenBack(Dismiss(b, id).engine, id, todo, left, now, true)
    requires forall a :: a in todo ==> a.queue in Dismiss(b, id).engine.queues
    ensures
      var held := HeldSet(Cancel(b, id, todo, now).0.engine, id);
      && held == (set a | a in HeldSet(b.engine, id) && a.queue in left)
      && (!Grows(Dismiss(b, id).engine, todo, now, true) ==> held == {})
  {
    hide HeldSet, LeaveAll, NoNew, Recover, SameCore, TakenBack, DeliveriesBut, DeliveriesIn, Grows, Dismiss;
    var s1 := Dismiss(b, id).engine;
    TakenFacts(s1, id, todo, left, now, true);
    DismissHeld(b, id);
    RecoverLeaves(s1, id, todo, left, now);
  }

  lemma DismissHeld(b: Broker, id: ConsumerId)
    requires id in b.consumers
    ensures HeldSet(Dismiss(b, id).engine, id) == HeldSet(b.engine, id)
  {
    hide HeldSet, LeaveAll, SameCore, NoNew;
    var s1 := Dismiss(b, id).engine;
    LeaveAllCore(b.engine, b.consumers[id].queues, id);
    CoreHeld(b.engine, s1);
    CoreBack(b.engine, s1);
    CoreHeld(s1, b.engine);
    NoNewHeld(b.engine, s1, id);
    NoNewHeld(s1, b.engine, id);
  }

  lemma CoreBack(s: State, s': State)
    requires SameCore(s, s')
    ensures SameCore(s', s)
  {
  }

  lemma RecoverLeaves(s: State, c: ConsumerId, todo: seq<Addr>, left: set<QName>, now: Time)
    requires (forall a :: a in todo ==> a.queue in s.queues) && DeliveriesBut(s, c, todo, left)
    ensures HeldSet(Recover(s, todo, now, true), c) == (set a | a in HeldSet(s, c) && a.queue in left)
  {
    hide Recover;
    var s' := Recover(s, todo, now, true);
    RecoverCalm(s, todo, now, true);
    forall a: Addr
      ensures a in HeldSet(s', c) <==> a in HeldSet(s, c) && a.queue in left
    {
      HeldMeaning(s, a, c);
      HeldMeaning(s', a, c);
      if HeldBy(s, a.queue, a.id, c) && a !in todo {
        RecoverSpares(s, todo, now, a);
      }
    }
  }

  lemma HeldMeaning(s: State, a: Addr, c: ConsumerId)
    ensures a in HeldSet(s, c) <==> HeldBy(s, a.queue, a.id, c)
  {
  }

  /** A delivery that is not listed stays. */
  lemma RecoverSpares(s: State, todo: seq<Addr>, now: Time, a: Addr)
    requires forall x :: x in todo ==> x.queue in s.queues
    requires a !in todo && a.queue in s.queues && a.id in s.queues[a.queue].inflight
    ensures
      var s' := Recover(s, todo, now, true);
      a.queue in s'.queues && a.id in s'.queues[a.queue].inflight
      && s'.queues[a.queue].inflight[a.id] == s.queues[a.queue].inflight[a.id]
    decreases |todo|
  {
    hide Expire;
    if todo != [] {
      ExpireKeepsQueues(s, todo[0].queue, todo[0].id, now, true);
      ExpireFrame(s, todo[0].queue, todo[0].id, now, true);
      ExpireSpares(s, todo[0], now, a);
      RecoverSpares(Expire(s, todo[0].queue, todo[0].id, now, true), todo[1..], now, a);
    }
  }

  lemma ExpireSpares(s: State, x: Addr, now: Time, a: Addr)
    requires x.queue in s.queues && x != a && a.queue in s.queues && a.id in s.queues[a.queue].inflight
    ensures
      var s' := Expire(s, x.queue, x.id, now, true);
      a.queue in s'.queues && a.id in s'.queues[a.queue].inflight
      && s'.queues[a.queue].inflight[a.id] == s.queues[a.queue].inflight[a.id]
  {
    hide Expire;
    ExpireFrame(s, x.queue, x.id, now, true);
    var queues := s.queues[x.queue := TakeBack(s.queues[x.queue], x.id)];
    assert a.queue in queues && KeepsFrame(queues[a.queue], Expire(s, x.queue, x.id, now, true).queues[a.queue]);
  }

  /** What a step adds to what cancelled consumers are left with. */
  ghost function OwedAfter(b: Broker, ev: BrokerEvent, owed: map<ConsumerId, nat>): map<ConsumerId, nat>
    requires BrokerAllowed(b, ev)
  {
    if ev.op.DoCancel? && ev.op.id in b.consumers
    then owed[ev.op.id := Debt(owed, ev.op.id) + |HeldSet(BrokerStep(b, ev).engine, ev.op.id)|] else owed
  }

  /** Every step keeps the accounts covered: timeouts and deletions only make a consumer hold less, and
      whatever makes it hold more is counted. */
  lemma BrokerStepCovered(b: Broker, ev: BrokerEvent, owed: map<ConsumerId, nat>)
    requires Covered(b, owed) && BrokerAllowed(b, ev)
    ensures Covered(BrokerStep(b, ev), OwedAfter(b, ev, owed))
  {
    hide TablesAgree, HeldSet, NoNew, Cancel, Register, TryReserve, Pump, CmdAck, CmdNack, Step, TakenBack, Dismiss;
    match ev.op
    case DoRegister(id, conn, names, prefetch) => RegisterCovered(b, id, conn, names, prefetch, owed);
    case DoQos(id, prefetch) =>
    case DoQosOf(conn, prefetch) =>
    case DoCancel(id, todo, left) =>
      if id in b.consumers {
        TakenFacts(Dismiss(b, id).engine, id, todo, left, ev.now, true);
        CancelCovered(b, id, todo, ev.now, owed);
      }
    case DoGet(name) => TryCovered(b, name, ev.now, owed);
    case DoPump(name, send) => PumpCovered(b, name, ev.now, send, owed);
    case DoAckCmd(id, send) => CmdAckCovered(b, id, ev.now, send, owed);
    case DoNackCmd(id, requeue, send) => CmdNackCovered(b, id, requeue, ev.now, send, owed);
    case DoEngine(op) =>
      BackgroundCalm(b.engine, Event(op, ev.now));
      NoNewCovered(b, Step(b.engine, Event(op, ev.now)), owed);
  }

  // ----- limits -----

  /** Whatever the event does to the consumer's limit keeps it between one and the given number. */
  predicate LimitedBy(b: Broker, ev: BrokerEvent, c: ConsumerId, limit: int) {
    match ev.op
    case DoRegister(id, _, _, prefetch) => id == c ==> 0 < prefetch <= limit
    case DoQos(id, prefetch) => id == c ==> 0 < prefetch <= limit
    case DoQosOf(conn, prefetch) => c in b.consumers && b.consumers[c].connection == conn ==> 0 < prefetch <= limit
    case _ => true
  }

  ghost predicate Limited(b: Broker, c: ConsumerId, limit: int) {
    c in b.consumers ==> 0 < b.consumers[c].prefetch <= limit && b.consumers[c].unacked <= limit
  }

  lemma TryLimited(b: Broker, n: QName, now: Time, c: ConsumerId, limit: int)
    requires Limited(b, c, limit)
    ensures Limited(TryReserve(b, n, now).0, c, limit)
  {
    hide Skips, TryRounds, Reserve;
    if n in b.engine.queues && b.engine.queues[n].consumerIds != [] {
      RoundsServe(b, n, now, 0, |b.engine.queues[n].consumerIds|);
      RotatedNext(b, n, 0);
    }
  }

  lemma OnAckLimited(b: Broker, engine: State, id: ConsumerId, c: ConsumerId, limit: int)
    requires Limited(b, c, limit)
    ensures Limited(OnAck(b.(engine := engine), id), c, limit) && Limited(b.(engine := engine), c, limit)
  {
  }

  lemma {:induction false} PumpLimited(b: Broker, n: QName, now: Time, send: (ConsumerId, Id) -> bool, c: ConsumerId, limit: int)
    requires Limited(b, c, limit)
    ensures Limited(Pump(b, n, now, send), c, limit)
    decreases ReadyCount(b, n)
  {
    hide Limited, TryReserve, Nack, OnAck;
    var (b1, r) := TryReserve(b, n, now);
    TryLimited(b, n, now, c, limit);
    if r.Some? {
      TryReserveShortens(b, n, now);
      if send(r.value.consumer, r.value.message.id) {
        PumpLimited(b1, n, now, send, c, limit);
      } else {
        OnAckLimited(b1, Nack(b1.engine, r.value.message.id, true, now, true).0, r.value.consumer, c, limit);
      }
    }
  }

  lemma {:induction false} PumpAllLimited(b: Broker, names: seq<QName>, now: Time, send: (ConsumerId, Id) -> bool,
                                          c: ConsumerId, limit: int)
    requires Limited(b, c, limit)
    ensures Limited(PumpAll(b, names, now, send), c, limit)
    decreases |names|
  {
    hide Limited, Pump;
    if names != [] {
      PumpLimited(b, names[0], now, send, c, limit);
      PumpAllLimited(Pump(b, names[0], now, send), names[1..], now, send, c, limit);
    }
  }

  lemma CmdAckLimited(b: Broker, id: Id, now: Time, send: (ConsumerId, Id) -> bool, c: ConsumerId, limit: int)
    requires Limited(b, c, limit)
    ensures Limited(CmdAck(b, id, now, send).0, c, limit)
  {
    hide Limited, Ack, OnAck, PumpAll;
    var engine := Ack(b.engine, id, true).0;
    var who := InflightConsumer(b.engine, id);
    OnAckLimited(b, engine, who.GetOr(""), c, limit);
    var b2 := OnAck(b.(engine := engine), who.GetOr(""));
    if who.Some? && who.value in b2.consumers {
      PumpAllLimited(b2, b2.consumers[who.value].queues, now, send, c, limit);
    }
  }

  lemma CmdNackLimited(b: Broker, id: Id, requeue: bool, now: Time, send: (ConsumerId, Id) -> bool, c: ConsumerId, limit: int)
    requires Limited(b, c, limit)
    ensures Limited(CmdNack(b, id, requeue, now, send).0, c, limit)
  {
    hide Limited, Nack, OnAck, PumpAll;
    var engine := Nack(b.engine, id, requeue, now, true).0;
    var who := InflightConsumer(b.engine, id);
    OnAckLimited(b, engine, who.GetOr(""), c, limit);
    var b2 := OnAck(b.(engine := engine), who.GetOr(""));
    if who.Some? && who.value in b2.consumers {
      PumpAllLimited(b2, b2.consumers[who.value].queues, now, send, c, limit);
    }
  }

  lemma StepLimited(b: Broker, ev: BrokerEvent, c: ConsumerId, limit: int)
    requires Limited(b, c, limit) && BrokerAllowed(b, ev) && LimitedBy(b, ev, c, limit)
    ensures Limited(BrokerStep(b, ev), c, limit)
  {
    hide TryReserve, Pump, CmdAck, CmdNack, Step, TakenBack, Recover, LeaveAll, JoinAll;
    match ev.op
    case DoGet(name) => TryLimited(b, name, ev.now, c, limit);
    case DoPump(name, send) => PumpLimited(b, name, ev.now, send, c, limit);
    case DoAckCmd(id, send) => CmdAckLimited(b, id, ev.now, send, c, limit);
    case DoNackCmd(id, requeue, send) => CmdNackLimited(b, id, requeue, ev.now, send, c, limit);
    case DoCancel(id, todo, left) =>
      if id in b.consumers {
        TakenFacts(Dismiss(b, id).engine, id, todo, left, ev.now, true);
      }
    case _ =>
  }

  // ----- runs -----

  ghost predicate BrokerRunOk(b: Broker, run: seq<BrokerEvent>)
    decreases |run|
  {
    run == [] || (BrokerAllowed(b, run[0]) && BrokerRunOk(BrokerStep(b, run[0]), run[1..]))
  }

  ghost function BrokerRun(b: Broker, run: seq<BrokerEvent>): Broker
    requires BrokerRunOk(b, run)
    decreases |run|
  {
    if run == [] then b else BrokerRun(BrokerStep(b, run[0]), run[1..])
  }

  ghost predicate RunLimitedBy(b: Broker, run: seq<BrokerEvent>, c: ConsumerId, limit: int)
    requires BrokerRunOk(b, run)
    decreases |run|
  {
    run == [] || (LimitedBy(b, run[0], c, limit) && RunLimitedBy(BrokerStep(b, run[0]), run[1..], c, limit))
  }

  /** What cancelled consumers are left with after a run. */
  ghost function RunOwed(b: Broker, run: seq<BrokerEvent>, owed: map<ConsumerId, nat>): map<ConsumerId, nat>
    requires BrokerRunOk(b, run)
    decreases |run|
  {
    if run == [] then owed else RunOwed(BrokerStep(b, run[0]), run[1..], OwedAfter(b, run[0], owed))
  }

  /** A cancellation of the consumer ends in an error. */
  ghost predicate Stops(b: Broker, ev: BrokerEvent, c: ConsumerId)
    requires BrokerAllowed(b, ev)
  {
    ev.op.DoCancel? && ev.op.id == c && c in b.consumers && Grows(Dismiss(b, c).engine, ev.op.todo, ev.now, true)
  }

  ghost predicate NeverStops(b: Broker, run: seq<BrokerEvent>, c: ConsumerId)
    requires BrokerRunOk(b, run)
    decreases |run|
  {
    run == [] || (!Stops(b, run[0], c) && NeverStops(BrokerStep(b, run[0]), run[1..], c))
  }

  lemma NothingOwed(b: Broker, ev: BrokerEvent, c: ConsumerId, owed: map<ConsumerId, nat>)
    requires BrokerAllowed(b, ev) && !Stops(b, ev, c)
    ensures Debt(OwedAfter(b, ev, owed), c) == Debt(owed, c)
  {
    hide HeldSet, TakenBack, Grows, Dismiss, Register, TryReserve, Pump, CmdAck, CmdNack, Step;
    if ev.op.DoCancel? && ev.op.id == c && c in b.consumers {
      TakenFacts(Dismiss(b, c).engine, c, ev.op.todo, ev.op.left, ev.now, true);
      CancelLeaves(b, c, ev.op.todo, ev.op.left, ev.now);
    }
  }

  lemma {:induction false} RunCovered(b: Broker, run: seq<BrokerEvent>, c: ConsumerId, limit: int, owed: map<ConsumerId, nat>)
    requires Covered(b, owed) && BrokerRunOk(b, run) && RunLimitedBy(b, run, c, limit) && Limited(b, c, limit)
    ensures Covered(BrokerRun(b, run), RunOwed(b, run, owed)) && Limited(BrokerRun(b, run), c, limit)
    ensures NeverStops(b, run, c) ==> Debt(RunOwed(b, run, owed), c) == Debt(owed, c)
    decreases |run|
  {
    hide Covered, Limited, LimitedBy, BrokerStep, BrokerAllowed, OwedAfter, Stops, Debt;
    if run != [] {
      BrokerStepCovered(b, run[0], owed);
      StepLimited(b, run[0], c, limit);
      if !Stops(b, run[0], c) {
        NothingOwed(b, run[0], c, owed);
      }
      RunCovered(BrokerStep(b, run[0]), run[1..], c, limit, OwedAfter(b, run[0], owed));
    }
  }

  ghost function Start(cfg: Config): Broker {
    Broker(Init(cfg), map[], map[])
  }

  /** Prefetch safety. After any run that never lifts a consumer's limit and never sets it above the given
      number: its account is no more than that number, and the deliveries that it holds, across all queues, are
      no more than its account says, apart from what a cancellation of it that ended in an error left behind. If
      none did, a consumer that is not registered holds nothing. */
  lemma PrefetchSafety(cfg: Config, run: seq<BrokerEvent>, c: ConsumerId, limit: int)
    requires BrokerRunOk(Start(cfg), run) && RunLimitedBy(Start(cfg), run, c, limit)
    ensures
      var b := BrokerRun(Start(cfg), run);
      && (c in b.consumers ==> Account(b, c) <= limit)
      && |HeldSet(b.engine, c)| <= Account(b, c) + Debt(RunOwed(Start(cfg), run, map[]), c)
      && (NeverStops(Start(cfg), run, c) ==>
            |HeldSet(b.engine, c)| <= Account(b, c) && (c !in b.consumers ==> HeldSet(b.engine, c) == {}))
  {
    hide HeldSet, BrokerStep, BrokerAllowed, LimitedBy, TablesAgree, Stops, OwedAfter;
    StartCovered(cfg);
    RunCovered(Start(cfg), run, c, limit, map[]);
  }

  lemma StartCovered(cfg: Config)
    ensures Covered(Start(cfg), map[])
  {
    forall c
      ensures HeldSet(Init(cfg), c) == {}
    {
    }
  }
}
