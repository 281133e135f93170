/** The engine's invariant over whole runs of the broker. */
module BrokerInv {
  import opened Types
  import opened Engine
  import opened Invariant
  import opened InvariantOps
  import opened Runs
  import opened Consumers
  import opened Deliveries
  import opened BrokerRuns

  /** What the engine's invariant asks of an event besides. */
  ghost predicate Orderly(b: Broker, ev: BrokerEvent) {
    && ev.now > 0
    && match ev.op
       case DoEngine(op) => Allowed(b.engine, Event(op, ev.now))
       case _ => true
  }

  lemma ServeInv(b: Broker, n: QName, id: ConsumerId, now: Time)
    requires Inv(b.engine) && id in b.consumers
    ensures Inv(Serve(b, n, id, now).0.engine) && Serve(b, n, id, now).0.engine.cfg == b.engine.cfg
  {
    hide Index.TablesAgree, PartsOk, HeapsOk, Reserve;
    ReserveInv(b.engine, n, id, now);
    ReserveSpecs(b.engine, n, id, now);
  }

  lemma TryInv(b: Broker, n: QName, now: Time)
    requires Inv(b.engine)
    ensures Inv(TryReserve(b, n, now).0.engine) && TryReserve(b, n, now).0.engine.cfg == b.engine.cfg
  {
    hide Inv, Serve, Skips, TryRounds, Eligible, SameCore;
    if n in b.engine.queues && b.engine.queues[n].consumerIds != [] {
      var len := |b.engine.queues[n].consumerIds|;
      var k := Skips(b, n, 0, len);
      RoundsServe(b, n, now, 0, len);
      RotatedNext(b, n, 0);
      var j := if k < len then k + 1 else len;
      RotatedCore(b, n, j);
      CoreInv(b.engine, Rotated(b, n, j).engine);
      if k < len {
        EligibleKnown(b, Asked(b, n, k));
        ServeInv(Rotated(b, n, k + 1), n, Asked(b, n, k), now);
      }
    }
  }

  lemma NackCfg(s: State, id: Id, requeue: bool, now: Time)
    ensures Nack(s, id, requeue, now, true).0.cfg == s.cfg
  {
    hide Nack;
    NackSpecs(s, id, requeue, now, true);
  }

  lemma {:induction false} PumpInv(b: Broker, n: QName, now: Time, send: (ConsumerId, Id) -> bool)
    requires Inv(b.engine) && now > 0 && b.engine.cfg.baseDelay >= 0
    ensures Inv(Pump(b, n, now, send).engine) && Pump(b, n, now, send).engine.cfg == b.engine.cfg
    decreases ReadyCount(b, n)
  {
    hide Inv, TryReserve, Nack;
    var (b1, r) := TryReserve(b, n, now);
    TryInv(b, n, now);
    if r.Some? {
      TryReserveShortens(b, n, now);
      if send(r.value.consumer, r.value.message.id) {
        PumpInv(b1, n, now, send);
      } else {
        NackInv(b1.engine, r.value.message.id, true, now, true);
        NackCfg(b1.engine, r.value.message.id, true, now);
      }
    }
  }

  lemma {:induction false} PumpAllInv(b: Broker, names: seq<QName>, now: Time, send: (ConsumerId, Id) -> bool)
    requires Inv(b.engine) && now > 0 && b.engine.cfg.baseDelay >= 0
    ensures Inv(PumpAll(b, names, now, send).engine) && PumpAll(b, names, now, send).engine.cfg == b.engine.cfg
    decreases |names|
  {
    hide Inv, Pump;
    if names != [] {
      PumpInv(b, names[0], now, send);
      PumpAllInv(Pump(b, names[0], now, send), names[1..], now, send);
    }
  }

  lemma SettleInv(b: Broker, id: Id, requeue: bool, now: Time, send: (ConsumerId, Id) -> bool)
    requires Inv(b.engine) && now > 0 && b.engine.cfg.baseDelay >= 0
    ensures Inv(CmdAck(b, id, now, send).0.engine) && CmdAck(b, id, now, send).0.engine.cfg == b.engine.cfg
    ensures Inv(CmdNack(b, id, requeue, now, send).0.engine) && CmdNack(b, id, requeue, now, send).0.engine.cfg == b.engine.cfg
  {
    hide Inv, Ack, Nack, PumpAll, InflightConsumer;
    AckInv(b.engine, id, true);
    AckCfg(b.engine, id);
    NackInv(b.engine, id, requeue, now, true);
    NackCfg(b.engine, id, requeue, now);
    var c := InflightConsumer(b.engine, id);
    if c.Some? {
      var acked := OnAck(b.(engine := Ack(b.engine, id, true).0), c.value);
      var nacked := OnAck(b.(engine := Nack(b.engine, id, requeue, now, true).0), c.value);
      if c.value in b.consumers {
        PumpAllInv(acked, acked.consumers[c.value].queues, now, send);
        PumpAllInv(nacked, nacked.consumers[c.value].queues, now, send);
      }
    }
  }

  lemma AckCfg(s: State, id: Id)
    ensures Ack(s, id, true).0.cfg == s.cfg
  {
    hide Trim;
  }

  lemma JoinInv(s: State, n: QName, id: ConsumerId)
    requires Inv(s)
    ensures Inv(Join(s, n, id)) && Join(s, n, id).cfg == s.cfg
  {
    hide Inv, Declare, SameCore;
    DeclaredNow(s, n, DEFAULT_ARGS);
    DeclareInv(s, n, DEFAULT_ARGS, true);
    DeclareCfg(s, n, DEFAULT_ARGS, true);
    var s1 := Declare(s, n, DEFAULT_ARGS, true);
    ListCore(s1, n, s1.queues[n].consumerIds + [id]);
    CoreInv(s1, SetList(s1, n, s1.queues[n].consumerIds + [id]));
  }

  lemma JoinAllInv(s: State, names: seq<QName>, id: ConsumerId)
    requires Inv(s)
    ensures Inv(JoinAll(s, names, id)) && JoinAll(s, names, id).cfg == s.cfg
    decreases |names|
  {
    hide Inv, Join;
    if names != [] {
      JoinInv(s, names[0], id);
      JoinAllInv(Join(s, names[0], id), names[1..], id);
    }
  }

  lemma CancelInv(b: Broker, id: ConsumerId, todo: seq<Addr>, now: Time)
    requires Inv(b.engine) && now > 0 && b.engine.cfg.baseDelay >= 0 && id in b.consumers
    requires DeliveriesIn(Dismiss(b, id).engine, id, todo)
    requires forall a :: a in todo ==> a.queue in Dismiss(b, id).engine.queues
    ensures Inv(Cancel(b, id, todo, now).0.engine) && Cancel(b, id, todo, now).0.engine.cfg == b.engine.cfg
  {
    hide Inv, LeaveAll, Recover, SameCore, DeliveriesIn, AllInflight;
    var s1 := Dismiss(b, id).engine;
    LeaveAllCore(b.engine, b.consumers[id].queues, id);
    CoreInv(b.engine, s1);
    CoreCfg(b.engine, s1);
    AllowedTodo(s1, id, todo);
    RecoverInv(s1, todo, now, true);
    RecoverSpecs(s1, todo, now, true);
  }

  /** Delivering, settling, registering and cancelling keep the engine's invariant, and so do the engine's
      own steps. */
  lemma BrokerStepInv(b: Broker, ev: BrokerEvent)
    requires Inv(b.engine) && b.engine.cfg.baseDelay >= 0 && BrokerAllowed(b, ev) && Orderly(b, ev)
    ensures Inv(BrokerStep(b, ev).engine) && BrokerStep(b, ev).engine.cfg == b.engine.cfg
  {
    hide Inv, Cancel, JoinAll, TryReserve, Pump, CmdAck, CmdNack, Step, TakenBack, DeliveriesIn, DeliveriesBut, Grows, Dismiss, Allowed;
    match ev.op
    case DoRegister(id, conn, names, prefetch) => JoinAllInv(b.engine, names, id);
    case DoQos(id, prefetch) =>
    case DoQosOf(conn, prefetch) =>
    case DoCancel(id, todo, left) =>
      if id in b.consumers {
        TakenFacts(Dismiss(b, id).engine, id, todo, left, ev.now, true);
        CancelInv(b, id, todo, ev.now);
      }
    case DoGet(name) => TryInv(b, name, ev.now);
    case DoPump(name, send) => PumpInv(b, name, ev.now, send);
    case DoAckCmd(id, send) => SettleInv(b, id, true, ev.now, send);
    case DoNackCmd(id, requeue, send) => SettleInv(b, id, requeue, ev.now, send);
    case DoEngine(op) =>
      StepInv(b.engine, Event(op, ev.now));
      StepSpecs(b.engine, Event(op, ev.now));
  }

  ghost predicate OrderlyRun(b: Broker, run: seq<BrokerEvent>)
    requires BrokerRunOk(b, run)
    decreases |run|
  {
    run == [] || (Orderly(b, run[0]) && OrderlyRun(BrokerStep(b, run[0]), run[1..]))
  }

  /** No run of the broker strands or duplicates a message. */
  lemma {:induction false} BrokerRunInv(b: Broker, run: seq<BrokerEvent>)
    requires Inv(b.engine) && b.engine.cfg.baseDelay >= 0 && BrokerRunOk(b, run) && OrderlyRun(b, run)
    ensures Inv(BrokerRun(b, run).engine)
    decreases |run|
  {
    hide Inv, BrokerStep, BrokerAllowed, Orderly;
    if run != [] {
      BrokerStepInv(b, run[0]);
      BrokerRunInv(BrokerStep(b, run[0]), run[1..]);
    }
  }
}
