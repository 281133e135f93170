/** The engine's index from message ids to queue names agrees with the queues' own message maps. */
module Index {
  import opened Types
  import opened DlqNames
  import opened Heaps
  import opened Engine

  predicate Holds(s: State, n: QName, id: Id) {
    n in s.queues && id in s.queues[n].messages
  }

  ghost predicate QueueIndexOk(byId: map<Id, QName>, n: QName, q: Queue) {
    && q.spec.name == n
    && (q.spec.deadLetter ==> !IsDlq(n))
    && forall id :: id in q.messages ==>
         q.messages[id].id == id && q.messages[id].queue == n && id in byId && byId[id] == n
  }

  ghost predicate TablesAgree(queues: map<QName, Queue>, byId: map<Id, QName>) {
    && (forall n :: n in queues ==> QueueIndexOk(byId, n, queues[n]))
    && (forall id :: id in byId ==> byId[id] in queues && id in queues[byId[id]].messages)
  }

  ghost predicate IndexOk(s: State) {
    TablesAgree(s.queues, s.byId)
  }

  lemma IndexAt(s: State, n: QName, id: Id)
    requires IndexOk(s) && Holds(s, n, id)
    ensures s.queues[n].messages[id].id == id && s.queues[n].messages[id].queue == n
    ensures id in s.byId && s.byId[id] == n
    ensures s.queues[n].spec.name == n && (s.queues[n].spec.deadLetter ==> !IsDlq(n))
  {
  }

  lemma SpecIndex(s: State, n: QName)
    requires IndexOk(s) && n in s.queues
    ensures s.queues[n].spec.deadLetter ==> !IsDlq(n)
  {
  }

  // ----- the three ways in which a queue's entry changes -----

  lemma KeepIndex(s: State, n: QName, q: Queue)
    requires IndexOk(s) && n in s.queues
    requires q.spec == s.queues[n].spec && q.messages == s.queues[n].messages
    ensures TablesAgree(s.queues[n := q], s.byId)
  {
  }

  lemma UpdateIndex(s: State, n: QName, m: Message, q: Queue)
    requires IndexOk(s) && Holds(s, n, m.id) && m.queue == n
    requires q.spec == s.queues[n].spec && q.messages == s.queues[n].messages[m.id := m]
    ensures TablesAgree(s.queues[n := q], s.byId)
  {
    var queues := s.queues[n := q];
    forall n' | n' in queues
      ensures QueueIndexOk(s.byId, n', queues[n'])
    {
      assert QueueIndexOk(s.byId, n', s.queues[n']);
    }
  }

  lemma AddIndex(s: State, m: Message, q: Queue)
    requires IndexOk(s) && m.queue in s.queues && m.id !in s.byId
    requires q.spec == s.queues[m.queue].spec && q.messages == s.queues[m.queue].messages[m.id := m]
    ensures TablesAgree(s.queues[m.queue := q], s.byId[m.id := m.queue])
  {
    var queues, byId := s.queues[m.queue := q], s.byId[m.id := m.queue];
    forall n | n in queues
      ensures QueueIndexOk(byId, n, queues[n])
    {
      assert QueueIndexOk(s.byId, n, s.queues[n]);
    }
  }

  lemma RemoveIndex(s: State, n: QName, id: Id, q: Queue)
    requires IndexOk(s) && Holds(s, n, id)
    requires q.spec == s.queues[n].spec && q.messages == s.queues[n].messages - {id}
    ensures TablesAgree(s.queues[n := q], s.byId - {id})
  {
    var queues, byId := s.queues[n := q], s.byId - {id};
    forall n' | n' in queues
      ensures QueueIndexOk(byId, n', queues[n'])
    {
      assert QueueIndexOk(s.byId, n', s.queues[n']);
    }
  }

  // ----- every operation -----

  lemma DeclareIndexOne(s: State, n: QName, a: DeclareArgs)
    requires IndexOk(s) && n !in s.queues
    ensures IndexOk(SetQueue(s, n, NewQueue(MakeSpec(s.cfg, n, a))))
  {
  }

  lemma DeclareIndex(s: State, n: QName, a: DeclareArgs, persist: bool)
    requires IndexOk(s)
    ensures IndexOk(Declare(s, n, a, persist))
    decreases if IsDlq(n) then 0 else 1
  {
    hide TablesAgree;
    if n !in s.queues {
      var spec := MakeSpec(s.cfg, n, a);
      DeclareIndexOne(s, n, a);
      if spec.deadLetter {
        DeclareIndex(SetQueue(s, n, NewQueue(spec)), DlqName(n), DlqArgs(spec), persist);
      }
    }
  }

  lemma DeleteIndexOne(s: State, n: QName)
    requires IndexOk(s) && n in s.queues
    ensures IndexOk(s.(queues := s.queues - {n}, byId := s.byId - s.queues[n].messages.Keys))
  {
    var queues, byId := s.queues - {n}, s.byId - s.queues[n].messages.Keys;
    forall n' | n' in queues
      ensures QueueIndexOk(byId, n', queues[n'])
    {
      assert QueueIndexOk(s.byId, n', s.queues[n']);
    }
  }

  lemma DeleteIndex(s: State, n: QName, persist: bool)
    requires IndexOk(s)
    ensures IndexOk(Delete(s, n, persist).0)
    decreases |s.queues|
  {
    hide TablesAgree;
    if n in s.queues {
      var q := s.queues[n];
      var s1 := s.(queues := s.queues - {n}, byId := s.byId - q.messages.Keys);
      assert s.queues.Keys == s1.queues.Keys + {n};
      DeleteIndexOne(s, n);
      if q.spec.deadLetter {
        DeleteIndex(Log(s1, Journal.QueueDelete(n), [], persist), DlqName(n), persist);
      }
    }
  }

  lemma EnqueueIndex(s: State, m: Message, now: Time, persist: bool)
    requires IndexOk(s) && m.id !in s.byId
    ensures IndexOk(Enqueue(s, m, now, persist).0)
  {
    hide TablesAgree, Push;
    if m.queue in s.queues {
      AddIndex(s, Stored(m, now), Admit(s.queues[m.queue], m, now, s.lastOrd + 1));
    }
  }

  lemma ReserveIndex(s: State, n: QName, c: ConsumerId, now: Time)
    requires IndexOk(s)
    ensures IndexOk(Reserve(s, n, c, now).0)
    decreases if n in s.queues then |s.queues[n].ready| else 0
  {
    if n in s.queues && s.queues[n].ready != [] {
      var q := PopReady(s.queues[n]);
      var id := s.queues[n].ready[0].item;
      if Stale(q, id) {
        KeepIndex(s, n, q);
        ReserveIndex(SetQueue(s, n, q), n, c, now);
      } else {
        KeepIndex(s, n, Deliver(q, Delivery(id, n, c, now, now + q.spec.visibilityTimeout)));
      }
    }
  }

  lemma AckIndex(s: State, id: Id, persist: bool)
    requires IndexOk(s)
    ensures IndexOk(Ack(s, id, persist).0)
  {
    if InFlight(s, id) {
      RemoveIndex(s, s.byId[id], id, Discharge(s.queues[s.byId[id]], id));
    }
  }

  lemma MoveToDlqIndex(s: State, n: QName, m: Message, persist: bool)
    requires IndexOk(s) && Holds(s, n, m.id)
    ensures IndexOk(MoveToDlq(s, n, m, persist))
  {
    hide TablesAgree, Push;
    RemoveIndex(s, n, m.id, Bury(s.queues[n], m.id));
    var s1 := Remove(s, n, m, persist);
    if s.queues[n].spec.deadLetter {
      DeclareIndex(s1, DlqName(n), DEFAULT_ARGS.(deadLetter := false), false);
      DeclareIds(s1, DlqName(n), DEFAULT_ARGS.(deadLetter := false), false);
      var s2 := Declare(s1, DlqName(n), DEFAULT_ARGS.(deadLetter := false), false);
      var m1 := DeadMessage(m, n);
      AddIndex(s2, m1, Inter(s2.queues[m1.queue], m1, s2.lastOrd + 1));
    }
  }

  lemma DeclareIds(s: State, n: QName, a: DeclareArgs, persist: bool)
    ensures Declare(s, n, a, persist).byId == s.byId
    decreases if IsDlq(n) then 0 else 1
  {
  }

  lemma RetryIndex(s: State, n: QName, m: Message, at: Time, persist: bool)
    requires IndexOk(s) && Holds(s, n, m.id) && m.queue == n
    ensures IndexOk(Retry(s, n, m, at, persist))
  {
    hide TablesAgree, Push;
    UpdateIndex(s, n, m.(availableAt := Some(at)), Postpone(s.queues[n], m.(availableAt := Some(at))));
  }

  lemma RetryOrDeadIndex(s: State, n: QName, m: Message, now: Time, persist: bool)
    requires IndexOk(s) && Holds(s, n, m.id) && m.queue == n
    ensures IndexOk(RetryOrDead(s, n, m, now, persist))
  {
    hide TablesAgree, Retry, MoveToDlq, Backoffs.RetryDelay;
    var m1 := m.(attempts := m.attempts + 1);
    if m1.attempts >= m1.maxAttempts {
      MoveToDlqIndex(s, n, m1, persist);
    } else {
      RetryIndex(s, n, m1, now + Backoffs.RetryDelay(m1.attempts, s.cfg.backoff, s.cfg.baseDelay), persist);
    }
  }

  lemma NackIndex(s: State, id: Id, requeue: bool, now: Time, persist: bool)
    requires IndexOk(s)
    ensures IndexOk(Nack(s, id, requeue, now, persist).0)
  {
    if InFlight(s, id) {
      var n := s.byId[id];
      var q := TakeBack(s.queues[n], id);
      KeepIndex(s, n, CountNack(q));
      var s1 := Log(SetQueue(s, n, CountNack(q)), Journal.MessageNack(id, n, requeue), [], persist);
      if requeue {
        RetryOrDeadIndex(s1, n, q.messages[id], now, persist);
      } else {
        MoveToDlqIndex(s1, n, q.messages[id], persist);
      }
    }
  }

  lemma ExpireIndex(s: State, n: QName, id: Id, now: Time, persist: bool)
    requires IndexOk(s) && n in s.queues
    ensures IndexOk(Expire(s, n, id, now, persist))
  {
    var q := TakeBack(s.queues[n], id);
    KeepIndex(s, n, q);
    if id in q.messages {
      RetryOrDeadIndex(SetQueue(s, n, q), n, q.messages[id], now, persist);
    }
  }

  lemma RecoverIndex(s: State, todo: seq<Addr>, now: Time, persist: bool)
    requires IndexOk(s) && forall a :: a in todo ==> a.queue in s.queues
    ensures IndexOk(Recover(s, todo, now, persist))
    decreases |todo|
  {
    if todo != [] {
      ExpireKeepsQueues(s, todo[0].queue, todo[0].id, now, persist);
      ExpireIndex(s, todo[0].queue, todo[0].id, now, persist);
      RecoverIndex(Expire(s, todo[0].queue, todo[0].id, now, persist), todo[1..], now, persist);
    }
  }

  lemma ReleaseOneIndex(s: State, a: Addr)
    requires IndexOk(s)
    ensures IndexOk(ReleaseOne(s, a))
  {
    if a.queue in s.queues && a.id in s.queues[a.queue].delayedIds {
      var q := Undelay(s.queues[a.queue], a.id);
      if a.id !in q.messages || a.id in q.inflight {
        KeepIndex(s, a.queue, q);
      } else {
        var m := q.messages[a.id].(availableAt := None);
        UpdateIndex(s, a.queue, m, Mature(q, m, s.lastOrd + 1));
      }
    }
  }

  lemma ReleaseAllIndex(s: State, due: seq<Addr>)
    requires IndexOk(s)
    ensures IndexOk(ReleaseAll(s, due))
    decreases |due|
  {
    if due != [] {
      ReleaseOneIndex(s, due[0]);
      ReleaseAllIndex(ReleaseOne(s, due[0]), due[1..]);
    }
  }

  lemma TimeoutIndex(s: State, ts: Time, now: Time)
    requires IndexOk(s)
    ensures IndexOk(TimeoutInflight(s, ts, now))
    decreases |s.visibility|
  {
    if s.visibility != [] && s.visibility[0].key <= ts {
      var e := s.visibility[0];
      var s1 := s.(visibility := s.visibility[1..]);
      TimeoutKeepsHeap(s1, e, now);
      if Current(s1, e) {
        ExpireIndex(s1, e.item.queue, e.item.id, now, true);
      }
      TimeoutIndex(TimeoutOne(s1, e, now), ts, now);
    }
  }

  lemma TickIndex(s: State, ts: Time, now: Time)
    requires IndexOk(s)
    ensures IndexOk(Tick(s, ts, now))
  {
    var (due, rest) := PopDue(s.delayed, ts);
    ReleaseAllIndex(s.(delayed := rest), due);
    TimeoutIndex(ReleaseDelayed(s, ts), ts, now);
  }

  lemma EnqueueRefused(s: State, m: Message, now: Time, persist: bool)
    ensures Enqueue(s, m, now, persist).1 != EnqueueOk ==> Enqueue(s, m, now, persist).0 == s
  {
    hide Push, Later, Full;
  }

  lemma DlqRequeueIndex(s: State, n: QName, id: Id, now: Time, persist: bool)
    requires IndexOk(s)
    ensures IndexOk(DlqRequeue(s, n, id, now, persist).0)
  {
    hide TablesAgree, Push, Drop, Without, Enqueue, IsDlq;
    var origin := OriginQueue(n);
    var dn := DlqName(origin);
    if dn in s.queues && origin in s.queues && id in s.queues[dn].messages {
      IndexAt(s, dn, id);
      var m := Revived(s.queues[dn].messages[id], origin);
      RemoveIndex(s, dn, id, Withdraw(s.queues[dn], id));
      var s1 := SetQueue(s, dn, Withdraw(s.queues[dn], id)).(byId := s.byId - {id});
      EnqueueIndex(s1, m, now, false);
      EnqueueRefused(s1, m, now, false);
      AddIndex(s1, m.(queue := dn), Mature(s1.queues[dn], m.(queue := dn), s1.lastOrd + 1));
    }
  }
}
