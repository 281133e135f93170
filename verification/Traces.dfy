/** The engine has traces only of messages whose ids were used: in its index and in its delayed heap. */
module Traces {
  import opened Types
  import opened DlqNames
  import opened Heaps
  import opened Backoffs
  import opened Journal
  import opened Engine
  import opened Index
  import opened Requeue
  import opened Runs
  import opened Snapshot
  import opened Replay
  import opened Restarts
  import opened Crashes
  import opened Worlds
  import opened RestartInv

  ghost predicate Traced(h: seq<Entry<Addr>>, ids: set<Id>) {
    forall e :: e in h ==> e.item.id in ids
  }

  /** Whatever the engine knows of a message, in its index or its delayed heap, is about one of the ids. */
  ghost predicate Known(s: State, ids: set<Id>) {
    s.byId.Keys <= ids && Traced(s.delayed, ids)
  }

  lemma PushTraced(h: seq<Entry<Addr>>, e: Entry<Addr>, ids: set<Id>)
    requires Traced(h, ids) && e.item.id in ids
    ensures Traced(Push(h, e), ids)
  {
    hide Push;
  }

  lemma MoreTraced(h: seq<Entry<Addr>>, ids: set<Id>, more: set<Id>)
    requires Traced(h, ids) && ids <= more
    ensures Traced(h, more)
  {
  }

  lemma DeclareKnown(s: State, n: QName, a: DeclareArgs, persist: bool, ids: set<Id>)
    requires Known(s, ids)
    ensures Known(Declare(s, n, a, persist), ids)
  {
    hide Declare, Traced;
    DeclareIds(s, n, a, persist);
    DeclareDelayed(s, n, a, persist);
  }

  lemma DeleteKnown(s: State, n: QName, persist: bool, ids: set<Id>)
    requires Known(s, ids)
    ensures Known(Delete(s, n, persist).0, ids)
    decreases |s.queues|
  {
    hide Traced, IsDlq;
    if n in s.queues && s.queues[n].spec.deadLetter {
      var s1 := Log(DeleteOne(s, n), Journal.QueueDelete(n), [], persist);
      assert s.queues.Keys == s1.queues.Keys + {n};
      DeleteKnown(s1, DlqName(n), persist, ids);
    }
  }

  lemma EnqueueKnown(s: State, m: Message, now: Time, persist: bool, ids: set<Id>)
    requires Known(s, ids)
    ensures Known(Enqueue(s, m, now, persist).0, ids + {m.id})
  {
    hide Traced, Push, Full, Admit, Stored;
    MoreTraced(s.delayed, ids, ids + {m.id});
    if Later(m, now) {
      PushTraced(s.delayed, Entry(m.availableAt.value, s.lastOrd + 1, Addr(m.queue, m.id)), ids + {m.id});
    }
  }

  lemma ReserveKnown(s: State, n: QName, c: ConsumerId, now: Time, ids: set<Id>)
    requires Known(s, ids)
    ensures Known(Reserve(s, n, c, now).0, ids)
    decreases if n in s.queues then |s.queues[n].ready| else 0
  {
    hide Push, Traced;
    if n in s.queues && s.queues[n].ready != [] {
      var q := PopReady(s.queues[n]);
      if Stale(q, s.queues[n].ready[0].item) {
        ReserveKnown(SetQueue(s, n, q), n, c, now, ids);
      }
    }
  }

  lemma AckKnown(s: State, id: Id, persist: bool, ids: set<Id>)
    requires Known(s, ids)
    ensures Known(Ack(s, id, persist).0, ids)
  {
    hide Traced, Trim;
  }

  lemma MoveToDlqKnown(s: State, n: QName, m: Message, persist: bool, ids: set<Id>)
    requires Known(s, ids) && n in s.queues && m.id in ids
    ensures Known(MoveToDlq(s, n, m, persist), ids)
  {
    hide Traced, Declare, Push, DlqName;
    DeclareKnown(Remove(s, n, m, persist), DlqName(n), DEFAULT_ARGS.(deadLetter := false), false, ids);
  }

  lemma RetryOrDeadKnown(s: State, n: QName, m: Message, now: Time, persist: bool, ids: set<Id>)
    requires Known(s, ids) && n in s.queues && m.id in ids
    ensures Known(RetryOrDead(s, n, m, now, persist), ids)
  {
    hide Traced, MoveToDlq, Push, RetryDelay;
    var m1 := m.(attempts := m.attempts + 1);
    MoveToDlqKnown(s, n, m1, persist, ids);
    var at := now + RetryDelay(m1.attempts, s.cfg.backoff, s.cfg.baseDelay);
    PushTraced(s.delayed, Entry(at, s.lastOrd + 1, Addr(n, m.id)), ids);
  }

  lemma NackKnown(s: State, id: Id, requeue: bool, now: Time, persist: bool, ids: set<Id>)
    requires IndexOk(s) && Known(s, ids)
    ensures Known(Nack(s, id, requeue, now, persist).0, ids)
  {
    hide Traced, RetryOrDead, MoveToDlq, TablesAgree;
    if InFlight(s, id) {
      var n := s.byId[id];
      var q := TakeBack(s.queues[n], id);
      if id in q.messages {
        IndexAt(s, n, id);
        var s1 := Log(SetQueue(s, n, CountNack(q)), Journal.MessageNack(id, n, requeue), [], persist);
        RetryOrDeadKnown(s1, n, q.messages[id], now, persist, ids);
        MoveToDlqKnown(s1, n, q.messages[id], persist, ids);
      }
    }
  }

  lemma ExpireKnown(s: State, n: QName, id: Id, now: Time, persist: bool, ids: set<Id>)
    requires IndexOk(s) && Known(s, ids) && n in s.queues
    ensures Known(Expire(s, n, id, now, persist), ids)
  {
    hide Traced, RetryOrDead, TablesAgree;
    var q := TakeBack(s.queues[n], id);
    if id in q.messages {
      IndexAt(s, n, id);
      RetryOrDeadKnown(SetQueue(s, n, q), n, q.messages[id], now, persist, ids);
    }
  }

  lemma {:induction false} RecoverKnown(s: State, todo: seq<Addr>, now: Time, persist: bool, ids: set<Id>)
    requires IndexOk(s) && Known(s, ids) && forall a :: a in todo ==> a.queue in s.queues
    ensures Known(Recover(s, todo, now, persist), ids)
    decreases |todo|
  {
    hide IndexOk, Known, Expire;
    if todo != [] {
      ExpireKeepsQueues(s, todo[0].queue, todo[0].id, now, persist);
      ExpireIndex(s, todo[0].queue, todo[0].id, now, persist);
      ExpireKnown(s, todo[0].queue, todo[0].id, now, persist, ids);
      RecoverKnown(Expire(s, todo[0].queue, todo[0].id, now, persist), todo[1..], now, persist, ids);
    }
  }

  lemma ReleaseKnown(s: State, due: seq<Addr>, ids: set<Id>)
    requires Known(s, ids)
    ensures Known(ReleaseAll(s, due), ids)
    decreases |due|
  {
    hide Traced, Push;
    if due != [] {
      ReleaseKnown(ReleaseOne(s, due[0]), due[1..], ids);
    }
  }

  lemma PopTraced(h: seq<Entry<Addr>>, ts: Time, ids: set<Id>)
    requires Traced(h, ids)
    ensures Traced(PopDue(h, ts).1, ids)
  {
    if h != [] && h[0].key <= ts {
      PopTraced(h[1..], ts, ids);
    }
  }

  lemma {:induction false} TimeoutKnown(s: State, ts: Time, now: Time, ids: set<Id>)
    requires IndexOk(s) && Known(s, ids)
    ensures Known(TimeoutInflight(s, ts, now), ids)
    decreases |s.visibility|
  {
    hide TablesAgree, Traced, Expire;
    if s.visibility != [] && s.visibility[0].key <= ts {
      var e := s.visibility[0];
      var s1 := s.(visibility := s.visibility[1..]);
      TimeoutKeepsHeap(s1, e, now);
      if Current(s1, e) {
        ExpireIndex(s1, e.item.queue, e.item.id, now, true);
        ExpireKnown(s1, e.item.queue, e.item.id, now, true, ids);
      }
      TimeoutKnown(TimeoutOne(s1, e, now), ts, now, ids);
    }
  }

  lemma TickKnown(s: State, ts: Time, now: Time, ids: set<Id>)
    requires IndexOk(s) && Known(s, ids)
    ensures Known(Tick(s, ts, now), ids)
  {
    hide TablesAgree, Traced, ReleaseAll, TimeoutInflight, PopDue;
    var (due, rest) := PopDue(s.delayed, ts);
    PopTraced(s.delayed, ts, ids);
    ReleaseAllIndex(s.(delayed := rest), due);
    ReleaseKnown(s.(delayed := rest), due, ids);
    TimeoutKnown(ReleaseDelayed(s, ts), ts, now, ids);
  }

  lemma RequeueKnown(s: State, n: QName, id: Id, now: Time, persist: bool, ids: set<Id>)
    requires IndexOk(s) && Known(s, ids)
    ensures Known(DlqRequeue(s, n, id, now, persist).0, ids)
  {
    hide TablesAgree, Traced, Enqueue, DlqRequeue, Push, Drop, Without, IsDlq, Mature;
    RequeueForm(s, n, id, now, persist);
    if Found(s, n, id) {
      var dn := DlqName(OriginQueue(n));
      IndexAt(s, dn, id);
      var s1 := Withdrawn(s, dn, id);
      EnqueueKnown(s1, BackMessage(s, n, id), now, false, ids);
      assert ids + {id} == ids;
    }
  }

  lemma StepKnown(s: State, ev: Event, ids: set<Id>)
    requires IndexOk(s) && Known(s, ids) && Callable(s, ev.op)
    ensures Known(Step(s, ev), ids + Published(ev))
  {
    hide IndexOk, Known, Declare, Delete, Enqueue, Reserve, Ack, Nack, Recover, Tick, DlqRequeue;
    assert !ev.op.DoPublish? ==> ids + Published(ev) == ids;
    match ev.op
    case DoDeclare(n, a) => DeclareKnown(s, n, a, true, ids);
    case DoDelete(n) => DeleteKnown(s, n, true, ids);
    case DoPublish(m) => EnqueueKnown(s, m, ev.now, true, ids);
    case DoReserve(n, c) => ReserveKnown(s, n, c, ev.now, ids);
    case DoAck(id) => AckKnown(s, id, true, ids);
    case DoNack(id, requeue) => NackKnown(s, id, requeue, ev.now, true, ids);
    case DoRecover(c, todo) => RecoverKnown(s, todo, ev.now, true, ids);
    case DoTick(ts) => TickKnown(s, ts, ev.now, ids);
    case DoRequeue(n, id) => RequeueKnown(s, n, id, ev.now, true, ids);
  }

  lemma KnownMore(s: State, ids: set<Id>, more: set<Id>)
    requires Known(s, ids) && ids <= more
    ensures Known(s, more)
  {
  }

  lemma ApplyKnown(s: State, rec: Rec, now: Time, ids: set<Id>)
    requires IndexOk(s) && Known(s, ids)
    ensures Known(Apply(s, rec, now), ids + RecIds(rec))
  {
    hide IndexOk, Known, Declare, Delete, Enqueue, Ack, Nack, DlqRequeue;
    KnownMore(s, ids, ids + RecIds(rec));
    match rec.meta
    case QueueDeclare(n, durable, maxLength, visibilityTimeout, maxAttempts, deadLetter) =>
      DeclareKnown(s, n, DeclareArgs(durable, maxLength, Some(visibilityTimeout), Some(maxAttempts), deadLetter), false,
                   ids + RecIds(rec));
    case QueueDelete(n) => DeleteKnown(s, n, false, ids + RecIds(rec));
    case Bind(_, q, _) => DeclareKnown(s, q, DEFAULT_ARGS, false, ids + RecIds(rec));
    case MessagePublish(id, q, attempts, maxAttempts, priority, availableAt, info) =>
      DeclareKnown(s, q, DEFAULT_ARGS, false, ids);
      var s1 := Declare(s, q, DEFAULT_ARGS, false);
      KnownMore(s1, ids, ids + RecIds(rec));
      EnqueueKnown(s1, Message(id, q, rec.payload, attempts, maxAttempts, priority, availableAt, info), now, false, ids);
    case MessageAck(id, _) => AckKnown(s, id, false, ids + RecIds(rec));
    case MessageNack(id, _, requeue) => NackKnown(s, id, requeue, now, false, ids + RecIds(rec));
    case MessageRequeue(id, _, target) => RequeueKnown(s, target, id, now, false, ids + RecIds(rec));
    case _ =>
  }

  lemma RestoreKnown(s: State, n: QName, list: seq<SavedMessage>, now: Time, ids: set<Id>)
    requires Known(s, ids) && n in s.queues && forall sm :: sm in list ==> sm.message.id in ids
    ensures Known(RestoreMessages(s, n, list, now), ids)
    decreases |list|
  {
    hide Traced, Push;
    if list != [] {
      var m := list[0].message;
      PushTraced(s.delayed, Entry(DueOrNow(m.availableAt, now), s.lastOrd + 1, Addr(m.queue, m.id)), ids);
      RestoreKnown(RestoreMessage(s, n, list[0], now), n, list[1..], now, ids);
    }
  }

  lemma {:induction false} QueuesKnown(s: State, queues: seq<SavedQueue>, now: Time, ids: set<Id>)
    requires Known(s, ids) && forall sq, sm :: sq in queues && sm in sq.messages ==> sm.message.id in ids
    ensures Known(RestoreQueues(s, queues, now), ids)
    decreases |queues|
  {
    hide Traced, RestoreMessages;
    if queues != [] {
      var sq := queues[0];
      assert sq in queues && forall sq' :: sq' in queues[1..] ==> sq' in queues;
      RestoreKnown(SetQueue(s, sq.spec.name, NewQueue(sq.spec).(stats := sq.stats)), sq.spec.name, sq.messages, now, ids);
      QueuesKnown(RestoreQueue(s, sq, now), queues[1..], now, ids);
    }
  }

  lemma BaseKnown(cfg: Config, base: Option<Saved>, now: Time)
    ensures Known(Base(cfg, base, now), SavedIds(base))
  {
    hide RestoreQueues;
    if base.Some? {
      var s := Init(cfg);
      QueuesKnown(s.(queues := map[], byId := map[], visibility := [], delayed := [], lastOrd := base.value.lastOrd),
                  base.value.queues, now, SavedIds(base));
    }
  }
}
