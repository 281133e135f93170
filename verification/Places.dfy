/** Where a message is. Under the engine's invariant every id has exactly one place, and every
    operation of the engine moves the messages it is about and leaves all others where they are. */
module Places {
  import opened Types
  import opened DlqNames
  import opened Heaps
  import opened Backoffs
  import opened Engine
  import opened Index
  import opened Partition
  import opened Invariant
  import opened InvariantOps

  datatype Place =
    | Gone
    | ReadyIn(queue: QName, message: Message)
    | DelayedIn(queue: QName, message: Message)
    | InflightIn(queue: QName, message: Message, delivery: Delivery)

  function PlaceIn(n: QName, q: Queue, id: Id): Place
    requires id in q.messages
  {
    if id in q.inflight then InflightIn(n, q.messages[id], q.inflight[id])
    else if id in q.delayedIds then DelayedIn(n, q.messages[id])
    else ReadyIn(n, q.messages[id])
  }

  function PlaceOf(s: State, id: Id): Place {
    if id in s.byId && Holds(s, s.byId[id], id) then PlaceIn(s.byId[id], s.queues[s.byId[id]], id) else Gone
  }

  ghost predicate SameElsewhere(s: State, s': State, id: Id) {
    forall x :: x != id ==> PlaceOf(s', x) == PlaceOf(s, x)
  }

  /** Where a message goes when its last delivery attempt counts. */
  function AfterDeath(deadLetter: bool, n: QName, m: Message): Place {
    if deadLetter then ReadyIn(DlqName(n), m.(queue := DlqName(n), availableAt := None)) else Gone
  }

  /** Where a message goes after a delivery that was not acknowledged. */
  function AfterFailure(cfg: Config, deadLetter: bool, n: QName, m: Message, now: Time): Place {
    var m1 := m.(attempts := m.attempts + 1);
    if m1.attempts >= m1.maxAttempts then AfterDeath(deadLetter, n, m1)
    else DelayedIn(n, m1.(availableAt := Some(now + RetryDelay(m1.attempts, cfg.backoff, cfg.baseDelay))))
  }

  /** What is known about a place: the containers agree with it, and none of the others has the id. */
  lemma PlaceMeaning(s: State, n: QName, id: Id)
    requires Inv(s)
    ensures id !in s.byId <==> PlaceOf(s, id) == Gone
    ensures n in s.queues ==>
      && (id in Items(s.queues[n].ready) <==> PlaceOf(s, id).ReadyIn? && PlaceOf(s, id).queue == n)
      && (id in s.queues[n].inflight <==> PlaceOf(s, id).InflightIn? && PlaceOf(s, id).queue == n)
      && (id in s.queues[n].delayedIds <==> PlaceOf(s, id).DelayedIn? && PlaceOf(s, id).queue == n)
      && (id in s.queues[n].messages <==> PlaceOf(s, id) != Gone && PlaceOf(s, id).queue == n)
      && (id in s.queues[n].messages ==> PlaceOf(s, id).message == s.queues[n].messages[id])
      && (id in s.queues[n].inflight ==> PlaceOf(s, id).delivery == s.queues[n].inflight[id])
  {
    hide HeapsOk, Items, HeapOk, IsDlq;
    if n in s.queues {
      assert QueueOk(n, s.queues[n]);
      assert id in s.queues[n].messages.Keys ==> Holds(s, n, id);
    }
  }

  /** Replacing one queue by one that differs in message id only. */
  lemma SetPlace(s: State, s': State, n: QName, id: Id)
    requires IndexOk(s) && n in s.queues && s.queues.Keys <= s'.queues.Keys
    requires forall n' :: n' in s.queues && n' != n ==> s'.queues[n'] == s.queues[n']
    requires SameBut(s.queues[n], s'.queues[n], id) && s'.byId - {id} == s.byId - {id}
    requires s'.queues[n].inflight - {id} == s.queues[n].inflight - {id}
    ensures SameElsewhere(s, s', id)
  {
    hide QueueIndexOk;
    forall x | x != id
      ensures PlaceOf(s', x) == PlaceOf(s, x)
    {
      if x in s.byId {
        assert x in s'.byId - {id} && (s'.byId - {id})[x] == (s.byId - {id})[x];
        if s.byId[x] == n {
          assert x in s.queues[n].messages - {id};
          SameInQueue(n, s.queues[n], s'.queues[n], x, id);
        }
      } else {
        assert x !in s'.byId - {id};
      }
    }
  }

  lemma SameInQueue(n: QName, q: Queue, q': Queue, x: Id, id: Id)
    requires SameBut(q, q', id) && q'.inflight - {id} == q.inflight - {id} && x != id && x in q.messages
    ensures x in q'.messages && PlaceIn(n, q', x) == PlaceIn(n, q, x)
  {
    assert x in q.messages - {id};
    assert x in q'.messages - {id} && (q'.messages - {id})[x] == (q.messages - {id})[x];
    assert x in q.delayedIds - {id} <==> x in q'.delayedIds - {id};
    assert x in q.inflight - {id} <==> x in q'.inflight - {id};
    if x in q.inflight {
      assert (q'.inflight - {id})[x] == (q.inflight - {id})[x];
    }
  }

  lemma DeclarePlace(s: State, n: QName, a: DeclareArgs, persist: bool, x: Id)
    requires IndexOk(s)
    ensures PlaceOf(Declare(s, n, a, persist), x) == PlaceOf(s, x)
    decreases if IsDlq(n) then 0 else 1
  {
    hide QueueIndexOk, IsDlq, TablesAgree;
    if n !in s.queues {
      var spec := MakeSpec(s.cfg, n, a);
      DeclareIndexOne(s, n, a);
      AddQueuePlace(s, n, spec, x);
      if spec.deadLetter {
        DeclarePlace(SetQueue(s, n, NewQueue(spec)), DlqName(n), DlqArgs(spec), persist, x);
      }
    }
  }

  lemma AddQueuePlace(s: State, n: QName, spec: Spec, x: Id)
    requires IndexOk(s) && n !in s.queues
    ensures PlaceOf(SetQueue(s, n, NewQueue(spec)), x) == PlaceOf(s, x)
  {
    hide QueueIndexOk;
  }

  // ----- what each operation does to the message it is about -----

  /** The answer of a publish depends on the number of messages the queue stores. */
  lemma EnqueueAnswer(s: State, m: Message, now: Time, persist: bool)
    requires Inv(s)
    ensures
      var (s', r) := Enqueue(s, m, now, persist);
      && (r == EnqueueNotFound <==> m.queue !in s.queues)
      && (r == QueueFull <==>
            && m.queue in s.queues
            && s.queues[m.queue].spec.maxLength.Some?
            && |s.queues[m.queue].messages| >= s.queues[m.queue].spec.maxLength.value)
      && (r != EnqueueOk ==> s' == s)
  {
    hide HeapsOk, TablesAgree, Push, QueueOk, Stored, Admit;
    if m.queue in s.queues {
      DepthIsSize(m.queue, s.queues[m.queue]);
    }
  }

  lemma EnqueuePlace(s: State, m: Message, now: Time, persist: bool)
    requires Inv(s) && Fresh(s, m.id) && Enqueue(s, m, now, persist).1 == EnqueueOk
    ensures
      var s' := Enqueue(s, m, now, persist).0;
      && SameElsewhere(s, s', m.id)
      && PlaceOf(s, m.id) == Gone
      && PlaceOf(s', m.id) == if m.availableAt.Some? && m.availableAt.value > now then DelayedIn(m.queue, m)
                              else ReadyIn(m.queue, m.(availableAt := None))
  {
    hide HeapsOk, TablesAgree, SameElsewhere, Push, QueueOk, Full, NoEntry;
    FreshNotDelayed(s, m.queue, m.id);
    AdmitBut(s.queues[m.queue], m, now, s.lastOrd + 1);
    SetPlace(s, Enqueue(s, m, now, persist).0, m.queue, m.id);
  }

  lemma AdmitBut(q: Queue, m: Message, now: Time, ord: nat)
    ensures SameBut(q, Admit(q, m, now, ord), m.id) && Admit(q, m, now, ord).inflight == q.inflight
  {
    hide Push, Later;
  }

  /** reserve returns nothing only if nothing is ready; what it returns was ready and is now in flight. */
  lemma ReservePlace(s: State, n: QName, c: ConsumerId, now: Time)
    requires Inv(s)
    ensures
      var (s', r) := Reserve(s, n, c, now);
      && (r == None <==> n !in s.queues || Items(s.queues[n].ready) == {})
      && (r == None ==> s' == s)
      && (r.Some? ==>
            && PlaceOf(s, r.value.id) == ReadyIn(n, r.value)
            && PlaceOf(s', r.value.id) == InflightIn(n, r.value,
                 Delivery(r.value.id, n, c, now, now + s.queues[n].spec.visibilityTimeout))
            && SameElsewhere(s, s', r.value.id))
  {
    hide HeapsOk, TablesAgree, SameElsewhere, Push, QueueOk, Items, IsDlq;
    if n in s.queues && s.queues[n].ready != [] {
      ReserveHead(s, n, c, now);
      HeadIsItem(s.queues[n].ready);
      var id := s.queues[n].ready[0].item;
      PlaceMeaning(s, n, id);
      IndexAt(s, n, id);
      SetPlace(s, Reserve(s, n, c, now).0, n, id);
    } else if n in s.queues {
      NoItems(s.queues[n].ready);
    }
  }

  lemma NoItems(h: seq<Entry<Id>>)
    requires h == []
    ensures Items(h) == {}
  {
  }

  lemma AckPlace(s: State, id: Id, persist: bool)
    requires Inv(s)
    ensures
      var (s', r) := Ack(s, id, persist);
      && (r == AlreadyAcked <==> id in s.recentAcks)
      && (r == AckOk <==> id !in s.recentAcks && PlaceOf(s, id).InflightIn?)
      && (r != AckOk ==> s' == s)
      && (r == AckOk ==> PlaceOf(s', id) == Gone && SameElsewhere(s, s', id))
  {
    hide HeapsOk, TablesAgree, SameElsewhere, QueueOk, IsDlq, Trim;
    if id in s.byId && s.byId[id] in s.queues {
      PlaceMeaning(s, s.byId[id], id);
      if InFlight(s, id) {
        SetPlace(s, Ack(s, id, persist).0, s.byId[id], id);
      }
    }
  }

  lemma RemovePlace(s: State, n: QName, m: Message, persist: bool)
    requires InvBut(s, n, m.id)
    ensures n in s.queues
    ensures PlaceOf(Remove(s, n, m, persist), m.id) == Gone
    ensures SameElsewhere(s, Remove(s, n, m, persist), m.id)
  {
    hide HeapsOk, TablesAgree, SameElsewhere, QueueOk, QueueOkBut;
    SetPlace(s, Remove(s, n, m, persist), n, m.id);
  }

  /** The fate of the message in hand when it dies. */
  lemma MoveToDlqPlace(s: State, n: QName, m: Message, persist: bool)
    requires InvBut(s, n, m.id)
    ensures PlaceOf(MoveToDlq(s, n, m, persist), m.id) == AfterDeath(s.queues[n].spec.deadLetter, n, m)
    ensures SameElsewhere(s, MoveToDlq(s, n, m, persist), m.id)
  {
    RemovePlace(s, n, m, persist);
    hide InvBut, Inv, SameElsewhere, NoEntry, IsDlq, Remove, Declare, Lay, PlaceOf;
    var s1 := Remove(s, n, m, persist);
    RemoveInv(s, n, m, persist);
    if s.queues[n].spec.deadLetter {
      var a := DEFAULT_ARGS.(deadLetter := false);
      var s2 := Declare(s1, DlqName(n), a, false);
      DeclareInv(s1, DlqName(n), a, false);
      DeclareKeepsFresh(s1, DlqName(n), a, false, m.id);
      DeclareKeepsQueues(s1, DlqName(n), a, false);
      DeclarePlaces(s1, DlqName(n), a, false);
      LayPlace(s2, DeadMessage(m, n));
      ElsewhereTrans(s, s1, s2, Lay(s2, DeadMessage(m, n)), m.id);
    }
  }

  lemma DeclarePlaces(s: State, n: QName, a: DeclareArgs, persist: bool)
    requires Inv(s)
    ensures forall x :: PlaceOf(Declare(s, n, a, persist), x) == PlaceOf(s, x)
  {
    forall x
      ensures PlaceOf(Declare(s, n, a, persist), x) == PlaceOf(s, x)
    {
      DeclarePlace(s, n, a, persist, x);
    }
  }

  lemma ElsewhereTrans(s: State, s1: State, s2: State, s3: State, id: Id)
    requires SameElsewhere(s, s1, id) && SameElsewhere(s2, s3, id)
    requires forall x :: PlaceOf(s2, x) == PlaceOf(s1, x)
    ensures SameElsewhere(s, s3, id)
  {
    hide PlaceOf;
  }

  lemma LayPlace(s: State, m: Message)
    requires Inv(s) && Fresh(s, m.id) && m.queue in s.queues
    ensures PlaceOf(Lay(s, m), m.id) == ReadyIn(m.queue, m)
    ensures SameElsewhere(s, Lay(s, m), m.id)
  {
    hide HeapsOk, TablesAgree, SameElsewhere, QueueOk, Push, Items;
    FreshNotDelayed(s, m.queue, m.id);
    SetPlace(s, Lay(s, m), m.queue, m.id);
  }

  lemma RetryPlace(s: State, n: QName, m: Message, at: Time, persist: bool)
    requires InvBut(s, n, m.id) && m.queue == n
    ensures PlaceOf(Retry(s, n, m, at, persist), m.id) == DelayedIn(n, m.(availableAt := Some(at)))
    ensures SameElsewhere(s, Retry(s, n, m, at, persist), m.id)
  {
    hide PartsOkBut, HeapsOk, TablesAgree, SameElsewhere, QueueOk, Push, NoEntry;
    InHandNoEntry(s, n, m.id);
    SetPlace(s, Retry(s, n, m, at, persist), n, m.id);
  }

  lemma RetryOrDeadPlace(s: State, n: QName, m: Message, now: Time, persist: bool)
    requires InvBut(s, n, m.id) && m.queue == n
    ensures PlaceOf(RetryOrDead(s, n, m, now, persist), m.id) == AfterFailure(s.cfg, s.queues[n].spec.deadLetter, n, m, now)
    ensures SameElsewhere(s, RetryOrDead(s, n, m, now, persist), m.id)
  {
    hide TablesAgree, QueueOk, QueueOkBut, PartsOk, HeapsOk, RetryDelay, Retry, MoveToDlq, SameElsewhere, PlaceOf,
      IsDlq;
    var m1 := m.(attempts := m.attempts + 1);
    if m1.attempts >= m1.maxAttempts {
      MoveToDlqPlace(s, n, m1, persist);
    } else {
      RetryPlace(s, n, m1, now + RetryDelay(m1.attempts, s.cfg.backoff, s.cfg.baseDelay), persist);
    }
  }

  /** Taking a delivery back: the common fate of nacked, timed out and abandoned messages. */
  lemma ExpirePlace(s: State, n: QName, id: Id, now: Time, persist: bool)
    requires Inv(s) && n in s.queues && id in s.queues[n].inflight
    ensures Holds(s, n, id)
    ensures PlaceOf(Expire(s, n, id, now, persist), id) ==
            AfterFailure(s.cfg, s.queues[n].spec.deadLetter, n, s.queues[n].messages[id], now)
    ensures SameElsewhere(s, Expire(s, n, id, now, persist), id)
  {
    hide TablesAgree, QueueOk, QueueOkBut, PartsOk, PartsOkBut, HeapsOk, RetryDelay, RetryOrDead, SameElsewhere,
      NoEntry;
    InflightNoEntry(s, n, id);
    IndexAt(s, n, id);
    TakeBackInv(s, n, id);
    var s1 := SetQueue(s, n, TakeBack(s.queues[n], id));
    SetPlace(s, s1, n, id);
    RetryOrDeadPlace(s1, n, s.queues[n].messages[id], now, persist);
    ElsewhereTrans(s, s1, s1, Expire(s, n, id, now, persist), id);
  }

  lemma NackPlace(s: State, id: Id, requeue: bool, now: Time, persist: bool)
    requires Inv(s)
    ensures
      var (s', r) := Nack(s, id, requeue, now, persist);
      && (r == NackOk <==> PlaceOf(s, id).InflightIn?)
      && (r != NackOk ==> s' == s)
      && (r == NackOk ==>
            && PlaceOf(s, id).queue in s.queues
            && SameElsewhere(s, s', id)
            && var p := PlaceOf(s, id);
               var dl := s.queues[p.queue].spec.deadLetter;
               PlaceOf(s', id) == if requeue then AfterFailure(s.cfg, dl, p.queue, p.message, now)
                                  else AfterDeath(dl, p.queue, p.message))
  {
    hide TablesAgree, PartsOk, PartsOkBut, HeapsOk, RetryOrDead, MoveToDlq, SameElsewhere, NoEntry, RetryDelay,
      IsDlq, QueueOk;
    if id in s.byId && s.byId[id] in s.queues {
      PlaceMeaning(s, s.byId[id], id);
      if InFlight(s, id) {
        var n := s.byId[id];
        TakeBackInv(s, n, id);
        var s1 := SetQueue(s, n, TakeBack(s.queues[n], id));
        InflightNoEntry(s, n, id);
        IndexAt(s, n, id);
        CountNackInv(s1, n, id, Journal.MessageNack(id, n, requeue), persist);
        var s2 := Log(SetQueue(s1, n, CountNack(s1.queues[n])), Journal.MessageNack(id, n, requeue), [], persist);
        assert s2 == Log(SetQueue(s, n, CountNack(s1.queues[n])), Journal.MessageNack(id, n, requeue), [], persist);
        SetPlace(s, s2, n, id);
        if requeue {
          RetryOrDeadPlace(s2, n, s.queues[n].messages[id], now, persist);
        } else {
          MoveToDlqPlace(s2, n, s.queues[n].messages[id], persist);
        }
        ElsewhereTrans(s, s2, s2, Nack(s, id, requeue, now, persist).0, id);
      }
    } else {
      assert PlaceOf(s, id) == Gone;
    }
  }
}
