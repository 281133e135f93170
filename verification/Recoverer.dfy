/** Recovery as the procedure it is: the snapshot, the records after it one by one, and a tick, on the engine
    and the router together. */
module Recoverer {
  import opened Types
  import opened Journal
  import E = Engine
  import W = Worlds
  import T = Routing
  import P = RouterReplay
  import RW = RouterWorlds
  import Snapshot
  import opened QueueEngines

  /** apply_record. */
  method ApplyRecord(router: T.RoutingEngine, rec: Rec, now: Time)
    modifies router, router.engine, router.engine.delayed
    ensures router.engine.delayed == old(router.engine.delayed)
    ensures router.State() == P.RouterApply(old(router.State()), rec, now)
  {
    hide E.Declare, E.Delete, E.Enqueue, E.Ack, E.Nack, E.DlqRequeue;
    var engine := router.engine;
    match rec.meta {
      case QueueDeclare(n, durable, maxLength, visibilityTimeout, maxAttempts, deadLetter) =>
        engine.DeclareQueue(
          n, E.DeclareArgs(durable, maxLength, Some(visibilityTimeout), Some(maxAttempts), deadLetter), false);
        var bound := router.Bind(T.Binding(T.DEFAULT_EXCHANGE, n, n), false);
      case QueueDelete(n) =>
        var found := engine.DeleteQueue(n, false);
      case ExchangeDeclare(x, kind, durable) =>
        router.Declare(x, P.KindOf(kind), durable, false);
      case ExchangeDelete(x) =>
        var found := router.Delete(x, false);
      case Bind(x, q, key) =>
        if q !in engine.queues {
          engine.DeclareQueue(q, E.DEFAULT_ARGS, false);
        } else {
          DeclaredAlready(engine.State(), q);
        }
        var bound := router.Bind(T.Binding(x, q, key), false);
      case Unbind(x, q, key) =>
        var unbound := router.Unbind(T.Binding(x, q, key), false);
      case MessagePublish(id, q, attempts, maxAttempts, priority, availableAt, info) =>
        PublishRouter(router, rec, now);
      case MessageAck(id, _) =>
        var r := engine.Ack(id, false);
      case MessageNack(id, _, requeue) =>
        var r := engine.Nack(id, requeue, now, false);
      case MessageRequeue(id, _, target) =>
        var ok := engine.DlqRequeue(target, id, now, false);
      case _ =>
    }
  }

  /** The branch of apply_record for a publish: a missing queue is declared and bound first. */
  method PublishRouter(router: T.RoutingEngine, rec: Rec, now: Time)
    requires rec.meta.MessagePublish?
    modifies router, router.engine, router.engine.delayed
    ensures router.engine.delayed == old(router.engine.delayed)
    ensures router.State() == P.RouterApply(old(router.State()), rec, now)
  {
    hide E.Declare, E.Enqueue;
    var engine := router.engine;
    var q := rec.meta.queue;
    ghost var s := engine.State();
    if q !in engine.queues {
      E.DeclareKeepsQueues(s, q, E.DEFAULT_ARGS, false);
      engine.DeclareQueue(q, E.DEFAULT_ARGS, false);
      var bound := router.Bind(T.Binding(T.DEFAULT_EXCHANGE, q, q), false);
    } else {
      DeclaredAlready(s, q);
    }
    if rec.meta.id in engine.byId {
      return;
    }
    var m := Message(rec.meta.id, q, rec.payload, rec.meta.attempts, rec.meta.maxAttempts, rec.meta.priority,
                     rec.meta.availableAt, rec.meta.info);
    EnqueueQueues(engine.State(), m, now);
    var r := engine.Enqueue(m, now, false);
  }

  lemma DeclaredAlready(s: E.State, n: QName)
    requires n in s.queues
    ensures E.Declare(s, n, E.DEFAULT_ARGS, false) == s
  {
  }

  lemma EnqueueQueues(s: E.State, m: Message, now: Time)
    ensures E.Enqueue(s, m, now, false).0.queues.Keys == s.queues.Keys
  {
    hide Heaps.Push, E.Later, E.Stored, E.Full;
  }

  /** recover_into, on a new engine and a new router. */
  method RecoverInto(cfg: E.Config, disk: W.Disk, base: Option<T.SavedRouter>, c: W.Clocks) returns (router: T.RoutingEngine)
    requires |c.replay| == |disk.log|
    ensures fresh(router) && fresh(router.engine) && fresh(router.engine.delayed)
    ensures router.State() == RW.Recovered(cfg, disk, base, c)
  {
    hide P.RouterApply, P.RouterReplayAll, Snapshot.Restore, E.Tick, T.RestoreRouter;
    var engine := new QueueEngine(cfg);
    router := new T.RoutingEngine(engine);
    if disk.base.Some? {
      engine.RestoreState(disk.base.value, c.restore);
    }
    if base.Some? {
      router.RestoreState(base.value);
    }
    ghost var r := router.State();
    var i := 0;
    assert disk.log[i..] == disk.log && c.replay[i..] == c.replay;
    while i < |disk.log|
      invariant 0 <= i <= |disk.log| && fresh(router) && fresh(router.engine) && fresh(router.engine.delayed)
      invariant P.RouterReplayAll(router.State(), disk.log[i..], c.replay[i..]) == P.RouterReplayAll(r, disk.log, c.replay)
    {
      ReplayNext(router.State(), disk.log[i..], c.replay[i..]);
      assert disk.log[i..][1..] == disk.log[i + 1..] && c.replay[i..][1..] == c.replay[i + 1..];
      ApplyRecord(router, disk.log[i], c.replay[i]);
      i := i + 1;
    }
    ReplayNext(router.State(), disk.log[i..], c.replay[i..]);
    var moved := router.engine.Tick(c.tick, c.now);
  }

  lemma ReplayNext(r: T.Router, recs: seq<Rec>, clock: seq<Time>)
    requires |clock| == |recs|
    ensures P.RouterReplayAll(r, recs, clock) ==
            if recs == [] then r else P.RouterReplayAll(P.RouterApply(r, recs[0], clock[0]), recs[1..], clock[1..])
  {
    hide P.RouterApply;
  }
}
