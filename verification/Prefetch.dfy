/** Prefetch accounting over whole runs: what a consumer holds never exceeds its account, and its account
    never exceeds the largest limit it has had. */
module Prefetch {
  import opened Types
  import opened Heaps
  import opened Engine
  import opened Index
  import opened InvariantOps
  import opened Runs
  import opened Requeue
  import opened Consumers

  /** The deliveries that a consumer holds, across all queues. */
  ghost function HeldSet(s: State, c: ConsumerId): set<Addr> {
    set n, id | n in s.queues && id in s.queues[n].inflight && s.queues[n].inflight[id].consumer == c :: Addr(n, id)
  }

  function Account(b: Broker, c: ConsumerId): nat {
    if c in b.consumers then b.consumers[c].unacked else 0
  }

  /** What a consumer was left with when its cancellation ended in an error. */
  function Debt(owed: map<ConsumerId, nat>, c: ConsumerId): nat {
    if c in owed then owed[c] else 0
  }

  /** No consumer holds more than its account says, and a consumer that is not registered holds nothing, except
      for what cancellations have left behind. */
  ghost predicate Covered(b: Broker, owed: map<ConsumerId, nat>) {
    IndexOk(b.engine) && forall c :: |HeldSet(b.engine, c)| <= Account(b, c) + Debt(owed, c)
  }

  /** No delivery is new. */
  ghost predicate NoNew(queues: map<QName, Queue>, queues': map<QName, Queue>) {
    forall n, id :: n in queues' && id in queues'[n].inflight ==>
      n in queues && id in queues[n].inflight && queues[n].inflight[id] == queues'[n].inflight[id]
  }

  /** Consumer lists stay; a new queue has none. */
  ghost predicate KeepsLists(queues: map<QName, Queue>, queues': map<QName, Queue>) {
    forall n :: n in queues' ==> queues'[n].consumerIds == if n in queues then queues[n].consumerIds else []
  }

  /** No delivery is new, and no consumer list changes. */
  ghost predicate Calm(queues: map<QName, Queue>, queues': map<QName, Queue>) {
    NoNew(queues, queues') && KeepsLists(queues, queues')
  }

  lemma NoNewHeld(s: State, s': State, c: ConsumerId)
    requires NoNew(s.queues, s'.queues)
    ensures HeldSet(s', c) <= HeldSet(s, c)
  {
  }

  lemma SubsetSize<T>(a: set<T>, b: set<T>)
    requires a <= b
    ensures |a| <= |b|
  {
    assert b == a + (b - a);
  }

  lemma NoNewTrans(a: map<QName, Queue>, b: map<QName, Queue>, c: map<QName, Queue>)
    requires NoNew(a, b) && NoNew(b, c)
    ensures NoNew(a, c)
  {
  }

  lemma CalmTrans(a: map<QName, Queue>, b: map<QName, Queue>, c: map<QName, Queue>)
    requires Calm(a, b) && Calm(b, c) && a.Keys <= b.Keys
    ensures Calm(a, c)
  {
    hide NoNew;
    NoNewTrans(a, b, c);
  }

  lemma CalmItself(a: map<QName, Queue>)
    ensures Calm(a, a)
  {
  }

  lemma FrameCalm(queues: map<QName, Queue>, queues': map<QName, Queue>)
    requires SameFrame(queues, queues')
    ensures Calm(queues, queues')
  {
  }

  /** An engine step without new deliveries keeps the accounts covered. */
  lemma NoNewCovered(b: Broker, engine: State, owed: map<ConsumerId, nat>)
    requires Covered(b, owed) && NoNew(b.engine.queues, engine.queues) && IndexOk(engine)
    ensures Covered(b.(engine := engine), owed)
  {
    hide TablesAgree, NoNew, HeldSet;
    forall c
      ensures |HeldSet(engine, c)| <= Account(b, c) + Debt(owed, c)
    {
      NoNewHeld(b.engine, engine, c);
      SubsetSize(HeldSet(engine, c), HeldSet(b.engine, c));
    }
  }

  // ----- engine steps -----

  lemma ExpireCalm(s: State, n: QName, id: Id, now: Time, persist: bool)
    requires n in s.queues
    ensures
      var s' := Expire(s, n, id, now, persist);
      Calm(s.queues, s'.queues) && n in s'.queues && id !in s'.queues[n].inflight
  {
    hide RetryOrDead, SameFrame;
    var q := TakeBack(s.queues[n], id);
    var s1 := SetQueue(s, n, q);
    assert Calm(s.queues, s1.queues) && id !in s1.queues[n].inflight;
    if id in q.messages {
      RetryOrDeadFrame(s1, n, q.messages[id], now, persist);
      FrameGone(s1.queues, RetryOrDead(s1, n, q.messages[id], now, persist).queues, n, id);
      CalmTrans(s.queues, s1.queues, RetryOrDead(s1, n, q.messages[id], now, persist).queues);
    }
  }

  lemma FrameGone(queues: map<QName, Queue>, queues': map<QName, Queue>, n: QName, id: Id)
    requires SameFrame(queues, queues') && n in queues && id !in queues[n].inflight
    ensures n in queues' && id !in queues'[n].inflight && Calm(queues, queues')
  {
  }

  lemma RecoverCalm(s: State, todo: seq<Addr>, now: Time, persist: bool)
    requires forall a :: a in todo ==> a.queue in s.queues
    ensures
      var s' := Recover(s, todo, now, persist);
      && Calm(s.queues, s'.queues)
      && forall a :: a in todo ==> !(a.queue in s'.queues && a.id in s'.queues[a.queue].inflight)
    decreases |todo|
  {
    hide Expire;
    if todo == [] {
      CalmItself(s.queues);
    } else {
      var s1 := Expire(s, todo[0].queue, todo[0].id, now, persist);
      ExpireKeepsQueues(s, todo[0].queue, todo[0].id, now, persist);
      ExpireCalm(s, todo[0].queue, todo[0].id, now, persist);
      RecoverCalm(s1, todo[1..], now, persist);
      CalmTrans(s.queues, s1.queues, Recover(s1, todo[1..], now, persist).queues);
    }
  }

  lemma ReleaseAllCalm(s: State, due: seq<Addr>)
    ensures Calm(s.queues, ReleaseAll(s, due).queues) && s.queues.Keys <= ReleaseAll(s, due).queues.Keys
    decreases |due|
  {
    hide ReleaseOne, NoNew, Calm, KeepsLists;
    if due == [] {
      CalmItself(s.queues);
    } else {
      ReleaseOneCalm(s, due[0]);
      ReleaseAllCalm(ReleaseOne(s, due[0]), due[1..]);
      CalmTrans(s.queues, ReleaseOne(s, due[0]).queues, ReleaseAll(s, due).queues);
    }
  }

  lemma ReleaseOneCalm(s: State, a: Addr)
    ensures Calm(s.queues, ReleaseOne(s, a).queues) && s.queues.Keys <= ReleaseOne(s, a).queues.Keys
  {
    hide Push;
  }

  lemma TimeoutCalm(s: State, ts: Time, now: Time)
    ensures Calm(s.queues, TimeoutInflight(s, ts, now).queues)
    decreases |s.visibility|
  {
    hide Expire, NoNew, Calm, KeepsLists;
    if s.visibility == [] || s.visibility[0].key > ts {
      CalmItself(s.queues);
    } else {
      var e := s.visibility[0];
      var s1 := s.(visibility := s.visibility[1..]);
      var s2 := TimeoutOne(s1, e, now);
      TimeoutKeepsHeap(s1, e, now);
      CalmItself(s.queues);
      if Current(s1, e) {
        ExpireCalm(s1, e.item.queue, e.item.id, now, true);
        ExpireKeepsQueues(s1, e.item.queue, e.item.id, now, true);
      }
      TimeoutCalm(s2, ts, now);
      CalmTrans(s.queues, s2.queues, TimeoutInflight(s2, ts, now).queues);
    }
  }

  lemma TickCalm(s: State, ts: Time, now: Time)
    ensures Calm(s.queues, Tick(s, ts, now).queues)
  {
    hide ReleaseAll, TimeoutInflight, PopDue, NoNew, Calm, KeepsLists;
    var (due, rest) := PopDue(s.delayed, ts);
    ReleaseAllCalm(s.(delayed := rest), due);
    TimeoutCalm(ReleaseDelayed(s, ts), ts, now);
    CalmTrans(s.queues, ReleaseDelayed(s, ts).queues, Tick(s, ts, now).queues);
  }

  lemma EnqueueCalm(s: State, m: Message, now: Time, persist: bool)
    ensures Calm(s.queues, Enqueue(s, m, now, persist).0.queues)
  {
    hide Push, Later, Stored, Full;
  }

  lemma RequeueCalm(s: State, n: QName, id: Id, now: Time, persist: bool)
    requires IndexOk(s)
    ensures Calm(s.queues, DlqRequeue(s, n, id, now, persist).0.queues)
  {
    hide TablesAgree, Push, Drop, Without, Enqueue, DlqRequeue, Found, BackMessage, NoNew, Calm, KeepsLists,
      DlqNames.IsDlq;
    RequeueForm(s, n, id, now, persist);
    CalmItself(s.queues);
    if Found(s, n, id) {
      var dn := DlqNames.DlqName(DlqNames.OriginQueue(n));
      FoundHolds(s, n, id);
      var s1 := Withdrawn(s, dn, id);
      var m := BackMessage(s, n, id);
      WithdrawnCalm(s, dn, id);
      EnqueueCalm(s1, m, now, false);
      PutBackCalm(s1, m.(queue := dn));
      CalmTrans(s.queues, s1.queues, Enqueue(s1, m, now, false).0.queues);
      CalmTrans(s.queues, s1.queues, PutBack(s1, m.(queue := dn)).queues);
    }
  }

  lemma FoundHolds(s: State, n: QName, id: Id)
    requires Found(s, n, id)
    ensures DlqNames.DlqName(DlqNames.OriginQueue(n)) in s.queues
  {
    hide DlqNames.IsDlq;
  }

  lemma WithdrawnCalm(s: State, dn: QName, id: Id)
    requires dn in s.queues
    ensures Calm(s.queues, Withdrawn(s, dn, id).queues) && dn in Withdrawn(s, dn, id).queues
  {
    hide Drop, Without;
  }

  lemma PutBackCalm(s: State, m: Message)
    requires m.queue in s.queues
    ensures Calm(s.queues, PutBack(s, m).queues)
  {
    hide Push;
  }

  lemma DeleteCalm(s: State, n: QName)
    requires IndexOk(s)
    ensures Calm(s.queues, Delete(s, n, true).0.queues)
  {
    hide TablesAgree, Delete, Deleted, DlqNames.IsDlq;
    DeletePlace(s, n, true);
  }

  /** The broker's own engine steps: declaring, deleting, publishing, ticking and requeueing. */
  predicate Background(op: Op) {
    op.DoDeclare? || op.DoDelete? || op.DoPublish? || op.DoTick? || op.DoRequeue?
  }

  lemma BackgroundCalm(s: State, ev: Event)
    requires IndexOk(s) && Background(ev.op) && (ev.op.DoPublish? ==> ev.op.message.id !in s.byId)
    ensures Calm(s.queues, Step(s, ev).queues) && IndexOk(Step(s, ev))
  {
    hide TablesAgree, NoNew, Calm, KeepsLists, Declare, Delete, Enqueue, Tick, DlqRequeue;
    match ev.op
    case DoDeclare(n, a) =>
      DeclareFrame(s, n, a, true);
      FrameCalm(s.queues, Declare(s, n, a, true).queues);
      DeclareIndex(s, n, a, true);
    case DoDelete(n) =>
      DeleteCalm(s, n);
      DeleteIndex(s, n, true);
    case DoPublish(m) =>
      EnqueueCalm(s, m, ev.now, true);
      EnqueueIndex(s, m, ev.now, true);
    case DoTick(ts) =>
      TickCalm(s, ts, ev.now);
      TickIndex(s, ts, ev.now);
    case DoRequeue(n, id) =>
      RequeueCalm(s, n, id, ev.now, true);
      DlqRequeueIndex(s, n, id, ev.now, true);
  }

  // ----- giving and taking one delivery -----

  /** Exactly one delivery is added, to one consumer. */
  ghost predicate GivesOne(s: State, s': State, a: Addr, c: ConsumerId) {
    && a.queue in s'.queues && a.id in s'.queues[a.queue].inflight && s'.queues[a.queue].inflight[a.id].consumer == c
    && KeepsLists(s.queues, s'.queues)
    && forall n, id :: n in s'.queues && id in s'.queues[n].inflight && Addr(n, id) != a ==>
         n in s.queues && id in s.queues[n].inflight && s.queues[n].inflight[id] == s'.queues[n].inflight[id]
  }

  lemma GivesHeld(s: State, s': State, a: Addr, c: ConsumerId, x: ConsumerId)
    requires GivesOne(s, s', a, c)
    ensures HeldSet(s', x) <= if x == c then HeldSet(s, x) + {a} else HeldSet(s, x)
  {
  }

  lemma GiveCovered(b: Broker, engine: State, a: Addr, c: ConsumerId, owed: map<ConsumerId, nat>)
    requires Covered(b, owed) && IndexOk(engine) && GivesOne(b.engine, engine, a, c) && Eligible(b, c)
    ensures Covered(b.(engine := engine, consumers := b.consumers[c := OnDeliver(b.consumers[c])]), owed)
  {
    hide TablesAgree, GivesOne, HeldSet;
    var b' := b.(engine := engine, consumers := b.consumers[c := OnDeliver(b.consumers[c])]);
    forall x
      ensures |HeldSet(engine, x)| <= Account(b', x) + Debt(owed, x)
    {
      GivesHeld(b.engine, engine, a, c, x);
      if x == c {
        SubsetSize(HeldSet(engine, x), HeldSet(b.engine, x) + {a});
      } else {
        SubsetSize(HeldSet(engine, x), HeldSet(b.engine, x));
      }
    }
  }

  /** No delivery is new, and one is gone. */
  ghost predicate TakesOne(s: State, s': State, a: Addr, c: ConsumerId) {
    && HeldBy(s, a.queue, a.id, c) && Calm(s.queues, s'.queues)
    && !(a.queue in s'.queues && a.id in s'.queues[a.queue].inflight)
  }

  lemma TakeCovered(b: Broker, engine: State, a: Addr, c: ConsumerId, owed: map<ConsumerId, nat>)
    requires Covered(b, owed) && IndexOk(engine) && TakesOne(b.engine, engine, a, c)
    ensures Covered(OnAck(b.(engine := engine), c), owed)
  {
    hide TablesAgree, NoNew;
    var b' := OnAck(b.(engine := engine), c);
    assert a in HeldSet(b.engine, c);
    assert |HeldSet(b.engine, c)| <= Account(b, c) + Debt(owed, c);
    hide HeldSet;
    forall x
      ensures |HeldSet(engine, x)| <= Account(b', x) + Debt(owed, x)
    {
      NoNewHeld(b.engine, engine, x);
      if x == c {
        GoneHeld(engine, a, c);
        SubsetSize(HeldSet(engine, x), HeldSet(b.engine, x) - {a});
      } else {
        SubsetSize(HeldSet(engine, x), HeldSet(b.engine, x));
      }
    }
  }

  lemma GoneHeld(s: State, a: Addr, c: ConsumerId)
    requires !(a.queue in s.queues && a.id in s.queues[a.queue].inflight)
    ensures a !in HeldSet(s, c)
  {
  }

  lemma AckTakes(s: State, id: Id)
    requires Ack(s, id, true).1 == AckOk
    ensures InflightConsumer(s, id).Some? && id in s.byId
    ensures TakesOne(s, Ack(s, id, true).0, Addr(s.byId[id], id), InflightConsumer(s, id).value)
  {
    hide Trim;
  }

  lemma NackTakes(s: State, id: Id, requeue: bool, now: Time)
    requires Nack(s, id, requeue, now, true).1 == NackOk
    ensures InflightConsumer(s, id).Some? && id in s.byId
    ensures TakesOne(s, Nack(s, id, requeue, now, true).0, Addr(s.byId[id], id), InflightConsumer(s, id).value)
  {
    hide RetryOrDead, MoveToDlq, SameFrame, NoNew;
    var n := s.byId[id];
    var q := TakeBack(s.queues[n], id);
    var s1 := Log(SetQueue(s, n, CountNack(q)), Journal.MessageNack(id, n, requeue), [], true);
    var m := q.messages[id];
    TakeBackCalm(s, n, id, s1);
    if requeue {
      RetryOrDeadFrame(s1, n, m, now, true);
      FrameGone(s1.queues, RetryOrDead(s1, n, m, now, true).queues, n, id);
    } else {
      MoveToDlqFrame(s1, n, m, true);
      FrameGone(s1.queues, MoveToDlq(s1, n, m, true).queues, n, id);
    }
    CalmTrans(s.queues, s1.queues, Nack(s, id, requeue, now, true).0.queues);
  }

  lemma TakeBackCalm(s: State, n: QName, id: Id, s1: State)
    requires n in s.queues && s1.queues == s.queues[n := CountNack(TakeBack(s.queues[n], id))]
    ensures Calm(s.queues, s1.queues)
  {
  }

  lemma RefusedSame(s: State, id: Id, requeue: bool, now: Time)
    requires IndexOk(s)
    ensures Ack(s, id, true).1 != AckOk ==> Ack(s, id, true).0 == s
    ensures Nack(s, id, requeue, now, true).1 != NackOk ==> Calm(s.queues, Nack(s, id, requeue, now, true).0.queues)
  {
    hide RetryOrDead, MoveToDlq, Trim, TablesAgree;
  }

  lemma DeliverGives(s: State, s': State, n: QName, d: Delivery, c: ConsumerId)
    requires n in s.queues && s.queues[n].ready != [] && d.consumer == c
    requires s'.queues == s.queues[n := Deliver(PopReady(s.queues[n]), d)]
    ensures GivesOne(s, s', Addr(n, d.id), c)
  {
  }

  lemma SkipCalm(s: State, n: QName)
    requires n in s.queues && s.queues[n].ready != []
    ensures
      var queues := s.queues[n := PopReady(s.queues[n])];
      Calm(s.queues, queues) && forall x :: x in s.queues ==>
        queues[x].inflight == s.queues[x].inflight && queues[x].consumerIds == s.queues[x].consumerIds
  {
  }

  lemma GivesAfter(s: State, s1: State, s': State, a: Addr, c: ConsumerId)
    requires Calm(s.queues, s1.queues) && s.queues.Keys <= s1.queues.Keys && GivesOne(s1, s', a, c)
    ensures GivesOne(s, s', a, c)
  {
  }

  lemma ReserveGives(s: State, n: QName, c: ConsumerId, now: Time)
    requires IndexOk(s)
    ensures
      var (s', r) := Reserve(s, n, c, now);
      && IndexOk(s')
      && (r == None ==> Calm(s.queues, s'.queues))
      && (r.Some? ==> GivesOne(s, s', Addr(n, r.value.id), c) && r.value.id in s'.byId && s'.byId[r.value.id] == n
                      && Holds(s', n, r.value.id))
    decreases if n in s.queues then |s.queues[n].ready| else 0
  {
    hide Push, TablesAgree, GivesOne, Calm;
    ReserveIndex(s, n, c, now);
    CalmItself(s.queues);
    if n in s.queues && s.queues[n].ready != [] {
      var q := PopReady(s.queues[n]);
      var id := s.queues[n].ready[0].item;
      if Stale(q, id) {
        var s1 := SetQueue(s, n, q);
        KeepIndex(s, n, q);
        SkipCalm(s, n);
        ReserveGives(s1, n, c, now);
        var (s', r) := Reserve(s1, n, c, now);
        if r.Some? {
          GivesAfter(s, s1, s', Addr(n, r.value.id), c);
        } else {
          CalmTrans(s.queues, s1.queues, s'.queues);
        }
      } else {
        IndexAt(s, n, id);
        DeliverGives(s, Reserve(s, n, c, now).0, n, Delivery(id, n, c, now, now + q.spec.visibilityTimeout), c);
      }
    }
  }
}
