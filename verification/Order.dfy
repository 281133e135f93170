/** Delivery order: highest priority first, and first come first served among equals. */
module Order {
  import opened Types
  import opened DlqNames
  import opened Heaps
  import opened Backoffs
  import opened Engine
  import opened Index
  import opened Partition
  import opened Invariant
  import opened InvariantOps
  import opened Places
  import opened Ticks
  import opened Requeue
  import opened Runs

  /** Ready entries carry their message's priority and a sequence number handed out already. */
  ghost predicate Ranked(q: Queue, last: nat) {
    forall e :: e in q.ready ==>
      e.ord <= last && (e.item in q.messages ==> e.key == -q.messages[e.item].priority)
  }

  ghost predicate AllRanked(s: State) {
    forall n :: n in s.queues ==> Ranked(s.queues[n], s.lastOrd)
  }

  /** Whatever became ready since has a sequence number that was not handed out before. */
  ghost predicate NewerOnly(q: Queue, q': Queue, last: nat) {
    forall e :: e in q'.ready ==> e in q.ready || e.ord > last
  }

  ghost predicate Advance(s: State, s': State) {
    && s.lastOrd <= s'.lastOrd && AllRanked(s')
    && forall n :: n in s'.queues ==>
         if n in s.queues then NewerOnly(s.queues[n], s'.queues[n], s.lastOrd)
         else NewerOnly(NewQueue(s'.queues[n].spec), s'.queues[n], s.lastOrd)
  }

  lemma AdvanceItself(s: State)
    requires AllRanked(s)
    ensures Advance(s, s)
  {
  }

  lemma AdvanceTrans(a: State, b: State, c: State)
    requires Advance(a, b) && Advance(b, c)
    ensures Advance(a, c)
  {
    hide AllRanked;
  }

  lemma SetAdvance(s: State, s': State, n: QName, q: Queue)
    requires AllRanked(s) && s'.queues == s.queues[n := q] && s.lastOrd <= s'.lastOrd
    requires Ranked(q, s'.lastOrd)
    requires NewerOnly(if n in s.queues then s.queues[n] else NewQueue(q.spec), q, s.lastOrd)
    ensures Advance(s, s')
  {
    hide NewerOnly;
    forall n' | n' in s.queues
      ensures NewerOnly(s.queues[n'], s.queues[n'], s.lastOrd)
    {
      NewerItself(s.queues[n'], s.lastOrd);
    }
  }

  lemma NewerItself(q: Queue, last: nat)
    ensures NewerOnly(q, q, last)
  {
  }

  lemma RankAt(s: State, n: QName)
    requires AllRanked(s) && n in s.queues
    ensures Ranked(s.queues[n], s.lastOrd)
  {
  }

  /** A message that was not ready becomes ready. */
  lemma PushRanked(q: Queue, q': Queue, m: Message, last: nat)
    requires Ranked(q, last) && m.id !in Items(q.ready)
    requires q'.ready == Push(q.ready, ReadyEntry(m, last + 1))
    requires m.id in q'.messages && q'.messages[m.id].priority == m.priority
    requires forall x :: x != m.id && x in q'.messages ==> x in q.messages && q'.messages[x] == q.messages[x]
    ensures Ranked(q', last + 1) && NewerOnly(q, q', last)
  {
    hide Push;
    assert forall e :: e in q.ready ==> e.item in Items(q.ready);
  }

  lemma DeclareOrder(s: State, n: QName, a: DeclareArgs, persist: bool)
    requires AllRanked(s)
    ensures Advance(s, Declare(s, n, a, persist))
    decreases if IsDlq(n) then 0 else 1
  {
    hide Advance, AllRanked, IsDlq;
    if n in s.queues {
      AdvanceItself(s);
    } else {
      var spec := MakeSpec(s.cfg, n, a);
      var s1 := SetQueue(s, n, NewQueue(spec));
      SetAdvance(s, s1, n, NewQueue(spec));
      var s2 := s1;
      if spec.deadLetter {
        AdvanceRanked(s, s1);
        s2 := Declare(s1, DlqName(n), DlqArgs(spec), persist);
        DeclareOrder(s1, DlqName(n), DlqArgs(spec), persist);
        AdvanceTrans(s, s1, s2);
      }
      AdvanceSame(s, s2, Declare(s, n, a, persist));
    }
  }

  lemma AdvanceRanked(s: State, s': State)
    requires Advance(s, s')
    ensures AllRanked(s')
  {
  }

  lemma AdvanceSame(s: State, s1: State, s2: State)
    requires Advance(s, s1) && s2.queues == s1.queues && s2.lastOrd == s1.lastOrd
    ensures Advance(s, s2)
  {
    hide NewerOnly, Ranked;
  }

  lemma DeleteOrder(s: State, n: QName, persist: bool)
    requires AllRanked(s)
    ensures Advance(s, Delete(s, n, persist).0)
    decreases |s.queues|
  {
    hide AllRanked, Advance, IsDlq;
    if n !in s.queues {
      AdvanceItself(s);
    } else {
      var s1 := Log(DeleteOne(s, n), Journal.QueueDelete(n), [], persist);
      DeleteOneOrder(s, n);
      AdvanceSame(s, DeleteOne(s, n), s1);
      if s.queues[n].spec.deadLetter {
        assert s.queues.Keys == s1.queues.Keys + {n};
        AdvanceRanked(s, s1);
        DeleteOrder(s1, DlqName(n), persist);
        AdvanceTrans(s, s1, Delete(s1, DlqName(n), persist).0);
      }
    }
  }

  lemma DeleteOneOrder(s: State, n: QName)
    requires AllRanked(s) && n in s.queues
    ensures Advance(s, DeleteOne(s, n))
  {
    hide Ranked, NewerOnly;
    forall n' | n' in s.queues
      ensures NewerOnly(s.queues[n'], s.queues[n'], s.lastOrd)
    {
      NewerItself(s.queues[n'], s.lastOrd);
    }
  }

  lemma EnqueueOrder(s: State, m: Message, now: Time, persist: bool)
    requires AllRanked(s) && (m.queue in s.queues ==> m.id !in Items(s.queues[m.queue].ready))
    ensures Advance(s, Enqueue(s, m, now, persist).0)
  {
    hide AllRanked, Advance, Push, Items, Full;
    if m.queue in s.queues && !Full(s.queues[m.queue]) {
      var q := s.queues[m.queue];
      var q' := Admit(q, m, now, s.lastOrd + 1);
      RankAt(s, m.queue);
      AdmitRanked(q, m, now, s.lastOrd);
      SetAdvance(s, Enqueue(s, m, now, persist).0, m.queue, q');
    } else {
      AdvanceItself(s);
    }
  }

  lemma AdmitRanked(q: Queue, m: Message, now: Time, last: nat)
    requires Ranked(q, last) && m.id !in Items(q.ready)
    ensures Ranked(Admit(q, m, now, last + 1), last + 1) && NewerOnly(q, Admit(q, m, now, last + 1), last)
  {
    hide Push;
    if Later(m, now) {
      assert forall e :: e in q.ready ==> e.item in Items(q.ready);
    } else {
      PushRanked(q, Admit(q, m, now, last + 1), m, last);
    }
  }

  lemma ReserveOrder(s: State, n: QName, c: ConsumerId, now: Time)
    requires Inv(s) && AllRanked(s)
    ensures Advance(s, Reserve(s, n, c, now).0)
  {
    hide AllRanked, Advance, HeapsOk, TablesAgree, Push, Reserve, PartsOk, Items, QueueOk;
    if n in s.queues && s.queues[n].ready != [] {
      ReserveHead(s, n, c, now);
      var q := s.queues[n];
      RankAt(s, n);
      assert q.ready == [q.ready[0]] + q.ready[1..];
      var d := Delivery(q.ready[0].item, n, c, now, now + q.spec.visibilityTimeout);
      SetAdvance(s, Reserve(s, n, c, now).0, n, Deliver(PopReady(q), d));
    } else {
      ReserveNothing(s, n, c, now);
      AdvanceItself(s);
    }
  }

  /** A queue whose ready heap is untouched and whose messages only shrank or kept their priority. */
  lemma KeepAdvance(s: State, s': State, n: QName, q: Queue)
    requires AllRanked(s) && n in s.queues && s'.queues == s.queues[n := q] && s.lastOrd <= s'.lastOrd
    requires q.ready == s.queues[n].ready
    requires forall x :: x in q.messages ==> x in s.queues[n].messages && q.messages[x].priority == s.queues[n].messages[x].priority
    ensures Advance(s, s')
  {
    hide Advance, AllRanked;
    RankAt(s, n);
    SetAdvance(s, s', n, q);
  }

  lemma AckOrder(s: State, id: Id, persist: bool)
    requires AllRanked(s)
    ensures Advance(s, Ack(s, id, persist).0)
  {
    hide Advance, AllRanked, Trim;
    if id !in s.recentAcks && InFlight(s, id) {
      var n := s.byId[id];
      KeepAdvance(s, Ack(s, id, persist).0, n, Discharge(s.queues[n], id));
    } else {
      AdvanceItself(s);
    }
  }

  lemma LayOrder(s: State, m: Message)
    requires AllRanked(s) && m.queue in s.queues && m.id !in Items(s.queues[m.queue].ready)
    ensures Advance(s, Lay(s, m))
  {
    hide Advance, AllRanked, Push, Items;
    var d' := Inter(s.queues[m.queue], m, s.lastOrd + 1);
    RankAt(s, m.queue);
    PushRanked(s.queues[m.queue], d', m, s.lastOrd);
    SetAdvance(s, Lay(s, m), m.queue, d');
  }

  lemma MoveToDlqOrder(s: State, n: QName, m: Message, persist: bool)
    requires AllRanked(s) && InvBut(s, n, m.id)
    ensures Advance(s, MoveToDlq(s, n, m, persist))
  {
    hide Advance, AllRanked, HeapsOk, TablesAgree, QueueOk, QueueOkBut, NoEntry, IsDlq, Declare, Lay, Items;
    var s1 := Remove(s, n, m, persist);
    RemoveInv(s, n, m, persist);
    KeepAdvance(s, s1, n, Bury(s.queues[n], m.id));
    if s.queues[n].spec.deadLetter {
      var a := DEFAULT_ARGS.(deadLetter := false);
      var s2 := Declare(s1, DlqName(n), a, false);
      DeclareInv(s1, DlqName(n), a, false);
      DeclareKeepsFresh(s1, DlqName(n), a, false, m.id);
      DeclareKeepsQueues(s1, DlqName(n), a, false);
      AdvanceRanked(s, s1);
      DeclareOrder(s1, DlqName(n), a, false);
      AdvanceRanked(s1, s2);
      FreshNotDelayed(s2, DlqName(n), m.id);
      LayOrder(s2, DeadMessage(m, n));
      AdvanceTrans(s, s1, s2);
      AdvanceTrans(s, s2, Lay(s2, DeadMessage(m, n)));
    }
  }

  lemma RetryOrder(s: State, n: QName, m: Message, at: Time, persist: bool)
    requires AllRanked(s) && Holds(s, n, m.id) && m.priority == s.queues[n].messages[m.id].priority
    ensures Advance(s, Retry(s, n, m, at, persist))
  {
    hide Advance, AllRanked, Push;
    KeepAdvance(s, Retry(s, n, m, at, persist), n, Postpone(s.queues[n], m.(availableAt := Some(at))));
  }

  lemma RetryOrDeadOrder(s: State, n: QName, m: Message, now: Time, persist: bool)
    requires AllRanked(s) && Holds(s, n, m.id) && InvBut(s, n, m.id) && m == s.queues[n].messages[m.id]
    ensures Advance(s, RetryOrDead(s, n, m, now, persist))
  {
    hide Advance, AllRanked, InvBut, RetryDelay, MoveToDlq, Retry, IsDlq;
    var m1 := m.(attempts := m.attempts + 1);
    if m1.attempts >= m1.maxAttempts {
      MoveToDlqOrder(s, n, m1, persist);
    } else {
      RetryOrder(s, n, m1, now + RetryDelay(m1.attempts, s.cfg.backoff, s.cfg.baseDelay), persist);
    }
  }

  lemma NackOrder(s: State, id: Id, requeue: bool, now: Time, persist: bool)
    requires Inv(s) && AllRanked(s)
    ensures Advance(s, Nack(s, id, requeue, now, persist).0)
  {
    hide Advance, AllRanked, IndexOk, PartsOk, PartsOkBut, HeapsOk, RetryOrDead, MoveToDlq;
    if InFlight(s, id) {
      var n := s.byId[id];
      var q := TakeBack(s.queues[n], id);
      TakeBackInv(s, n, id);
      var s1 := SetQueue(s, n, q);
      InflightNoEntry(s, n, id);
      IndexAt(s, n, id);
      CountNackInv(s1, n, id, Journal.MessageNack(id, n, requeue), persist);
      var s2 := Log(SetQueue(s1, n, CountNack(s1.queues[n])), Journal.MessageNack(id, n, requeue), [], persist);
      assert s2 == Log(SetQueue(s, n, CountNack(q)), Journal.MessageNack(id, n, requeue), [], persist);
      KeepAdvance(s, s2, n, CountNack(q));
      AdvanceRanked(s, s2);
      if requeue {
        RetryOrDeadOrder(s2, n, q.messages[id], now, persist);
      } else {
        MoveToDlqOrder(s2, n, q.messages[id], persist);
      }
      AdvanceTrans(s, s2, Nack(s, id, requeue, now, persist).0);
    } else {
      AdvanceItself(s);
    }
  }

  lemma ExpireOrder(s: State, n: QName, id: Id, now: Time, persist: bool)
    requires Inv(s) && AllRanked(s) && n in s.queues && id in s.queues[n].inflight
    ensures Advance(s, Expire(s, n, id, now, persist))
  {
    hide Advance, AllRanked, IndexOk, PartsOk, PartsOkBut, HeapsOk, RetryOrDead;
    TakeBackInv(s, n, id);
    InflightNoEntry(s, n, id);
    IndexAt(s, n, id);
    var s1 := SetQueue(s, n, TakeBack(s.queues[n], id));
    KeepAdvance(s, s1, n, TakeBack(s.queues[n], id));
    AdvanceRanked(s, s1);
    RetryOrDeadOrder(s1, n, s.queues[n].messages[id], now, persist);
    AdvanceTrans(s, s1, Expire(s, n, id, now, persist));
  }

  lemma RecoverOrder(s: State, todo: seq<Addr>, now: Time, persist: bool)
    requires Inv(s) && AllRanked(s) && AllInflight(s, todo) && now > 0 && s.cfg.baseDelay >= 0
    ensures Advance(s, Recover(s, todo, now, persist))
    decreases |todo|
  {
    hide Inv, Expire, AllRanked, Advance;
    if todo == [] {
      AdvanceItself(s);
    } else {
      var a := todo[0];
      var s1 := Expire(s, a.queue, a.id, now, persist);
      ExpireKeepsQueues(s, a.queue, a.id, now, persist);
      ExpireInv(s, a.queue, a.id, now, persist);
      ExpireOrder(s, a.queue, a.id, now, persist);
      ExpireCfg(s, a.queue, a.id, now, persist);
      RestInflight(s, todo, now, persist);
      AdvanceRanked(s, s1);
      RecoverOrder(s1, todo[1..], now, persist);
      AdvanceTrans(s, s1, Recover(s1, todo[1..], now, persist));
    }
  }

  lemma ReleaseOrder(s: State, due: seq<Addr>, ts: Time)
    requires InvDue(s, due, ts) && AllRanked(s)
    ensures Advance(s, ReleaseAll(s, due))
    decreases |due|
  {
    hide InvDue, AllRanked, Advance, Waiting, ReleaseOne;
    if due == [] {
      AdvanceItself(s);
    } else {
      var s1 := ReleaseOne(s, due[0]);
      if Waiting(s, due[0]) {
        ReleaseInv(s, due, ts);
        ReleaseOneOrder(s, due, ts);
      } else {
        SkipDue(s, due, ts);
        NotWaiting(s, due[0]);
        AdvanceItself(s);
      }
      AdvanceRanked(s, s1);
      ReleaseOrder(s1, due[1..], ts);
      AdvanceTrans(s, s1, ReleaseAll(s, due));
    }
  }

  lemma ReleaseOneOrder(s: State, due: seq<Addr>, ts: Time)
    requires InvDue(s, due, ts) && AllRanked(s) && due != [] && Waiting(s, due[0])
    ensures Advance(s, ReleaseOne(s, due[0]))
  {
    hide IndexOk, VisibleOk, EntriesOk, IsHeap, PendingOf, DueNow, After, AllRanked, Advance, Push, Items, HeapOk,
      NoEntry, PlaceOf;
    var a := due[0];
    WaitingMeaning(s, due, ts);
    ReleaseForm(s, due, ts);
    assert QueueOk(a.queue, s.queues[a.queue]);
    RankAt(s, a.queue);
    PushRanked(s.queues[a.queue], ReleasedQueue(s, a), s.queues[a.queue].messages[a.id].(availableAt := None), s.lastOrd);
    SetAdvance(s, ReleaseOne(s, a), a.queue, ReleasedQueue(s, a));
  }

  lemma TimeoutOrder(s: State, ts: Time, now: Time)
    requires Inv(s) && AllRanked(s) && now > 0 && s.cfg.baseDelay >= 0
    ensures Advance(s, TimeoutInflight(s, ts, now))
    decreases |s.visibility|
  {
    hide Inv, AllRanked, Advance, Expire, PlaceOf;
    if s.visibility == [] || s.visibility[0].key > ts {
      AdvanceItself(s);
    } else {
      var e := s.visibility[0];
      var h := s.visibility[1..];
      var s1 := TimeoutOne(s.(visibility := h), e, now);
      TimeoutKeepsHeap(s.(visibility := h), e, now);
      TimeoutStep(s, now);
      AdvanceItself(s);
      if Current(s, e) {
        ExpireOrder(s, e.item.queue, e.item.id, now, true);
        ExpireHeap(s, h, e.item.queue, e.item.id, now, true);
        AdvanceSame(s, Expire(s, e.item.queue, e.item.id, now, true), s1);
      } else {
        AdvanceSame(s, s, s1);
      }
      AdvanceRanked(s, s1);
      TimeoutOrder(s1, ts, now);
      AdvanceTrans(s, s1, TimeoutInflight(s1, ts, now));
    }
  }

  lemma TickOrder(s: State, ts: Time, now: Time)
    requires Inv(s) && AllRanked(s) && now > 0 && s.cfg.baseDelay >= 0
    ensures Advance(s, Tick(s, ts, now))
  {
    hide Inv, AllRanked, Advance, TimeoutInflight, ReleaseAll, PopDue, PlaceOf, InvDue;
    var (due, rest) := PopDue(s.delayed, ts);
    var s1 := s.(delayed := rest);
    var s2 := ReleaseDelayed(s, ts);
    StartRelease(s, ts);
    AdvanceItself(s);
    AdvanceSame(s, s, s1);
    AdvanceRanked(s, s1);
    ReleaseOrder(s1, due, ts);
    AdvanceTrans(s, s1, s2);
    AdvanceRanked(s, s2);
    ReleaseDelayedPlace(s, ts, "");
    TimeoutOrder(s2, ts, now);
    AdvanceTrans(s, s2, Tick(s, ts, now));
  }

  lemma WithdrawnOrder(s: State, dn: QName, id: Id)
    requires AllRanked(s) && dn in s.queues
    ensures Advance(s, Withdrawn(s, dn, id))
  {
    hide Advance, AllRanked, Drop, Without;
    RankAt(s, dn);
    SetAdvance(s, Withdrawn(s, dn, id), dn, Withdraw(s.queues[dn], id));
  }

  lemma PutBackOrder(s: State, m: Message)
    requires AllRanked(s) && m.queue in s.queues && m.id !in Items(s.queues[m.queue].ready)
    ensures Advance(s, PutBack(s, m))
  {
    hide Advance, AllRanked, Push, Items;
    RankAt(s, m.queue);
    PushRanked(s.queues[m.queue], Mature(s.queues[m.queue], m, s.lastOrd + 1), m, s.lastOrd);
    SetAdvance(s, PutBack(s, m), m.queue, Mature(s.queues[m.queue], m, s.lastOrd + 1));
  }

  lemma RequeueOrder(s: State, n: QName, id: Id, now: Time, persist: bool)
    requires Inv(s) && AllRanked(s)
    requires Found(s, n, id) ==> id in Items(s.queues[DlqName(OriginQueue(n))].ready)
    ensures Advance(s, DlqRequeue(s, n, id, now, persist).0)
  {
    hide HeapsOk, TablesAgree, PartsOk, AllRanked, Advance, Items, IsDlq, DlqRequeue, Withdrawn, PutBack, Enqueue,
      Fresh;
    RequeueForm(s, n, id, now, persist);
    if Found(s, n, id) {
      var dn := DlqName(OriginQueue(n));
      var m := BackMessage(s, n, id);
      var s1 := Withdrawn(s, dn, id);
      WithdrawnInv(s, dn, id);
      WithdrawnQueues(s, n, id);
      WithdrawnOrder(s, dn, id);
      AdvanceRanked(s, s1);
      FreshNotReady(s1, m.queue, id);
      FreshNotReady(s1, dn, id);
      EnqueueOrder(s1, m, now, false);
      PutBackOrder(s1, m.(queue := dn));
      AdvanceTrans(s, s1, PutBack(s1, m.(queue := dn)));
      AdvanceTrans(s, s1, Enqueue(s1, m, now, false).0);
      if Enqueue(s1, m, now, false).1 == EnqueueOk {
        AdvanceSame(s, Enqueue(s1, m, now, false).0, DlqRequeue(s, n, id, now, persist).0);
      }
    } else {
      AdvanceItself(s);
    }
  }

  lemma FreshNotReady(s: State, n: QName, id: Id)
    requires Inv(s) && Fresh(s, id) && n in s.queues
    ensures id !in Items(s.queues[n].ready)
  {
    hide Inv, Items, NoEntry;
    FreshNotDelayed(s, n, id);
  }

  lemma StepOrder(s: State, ev: Event)
    requires Inv(s) && Allowed(s, ev) && AllRanked(s) && s.cfg.baseDelay >= 0
    ensures Advance(s, Step(s, ev))
  {
    hide Inv, Fresh, Items, Found, DeliveriesIn, AllInflight, AllRanked, Advance;
    match ev.op
    case DoDeclare(n, a) => DeclareOrder(s, n, a, true);
    case DoDelete(n) => DeleteOrder(s, n, true);
    case DoPublish(m) =>
      if m.queue in s.queues {
        FreshNotReady(s, m.queue, m.id);
      }
      EnqueueOrder(s, m, ev.now, true);
    case DoReserve(n, c) => ReserveOrder(s, n, c, ev.now);
    case DoAck(id) => AckOrder(s, id, true);
    case DoNack(id, requeue) => NackOrder(s, id, requeue, ev.now, true);
    case DoRecover(c, todo) =>
      AllowedTodo(s, c, todo);
      RecoverOrder(s, todo, ev.now, true);
    case DoTick(ts) => TickOrder(s, ts, ev.now);
    case DoRequeue(n, id) => RequeueOrder(s, n, id, ev.now, true);
  }

  lemma {:induction false} RunOrder(s: State, run: seq<Event>)
    requires Inv(s) && AllRanked(s) && s.cfg.baseDelay >= 0 && AllowedRun(s, run)
    ensures Advance(s, Run(s, run))
    decreases |run|
  {
    hide Inv, Step, Allowed, AllRanked, Advance;
    if run == [] {
      AdvanceItself(s);
    } else {
      AllowedCallable(s, run[0]);
      var s1 := Step(s, run[0]);
      StepInv(s, run[0]);
      StepSpecs(s, run[0]);
      StepOrder(s, run[0]);
      AdvanceRanked(s, s1);
      RunOrder(s1, run[1..]);
      AdvanceTrans(s, s1, Run(s1, run[1..]));
    }
  }

  lemma ReserveReturnsHead(s: State, n: QName, c: ConsumerId, now: Time)
    requires Inv(s) && n in s.queues && s.queues[n].ready != []
    ensures
      var q := s.queues[n];
      && IsHeap(q.ready) && Items(q.ready) <= q.messages.Keys
      && q.ready[0].item in q.messages
      && q.messages[q.ready[0].item].id == q.ready[0].item
      && Reserve(s, n, c, now).1 == Some(q.messages[q.ready[0].item])
  {
    hide HeapsOk, TablesAgree, Push, Reserve, DeliveriesOk, TimesOk, Distinct, Items, IsHeap;
    ReserveHead(s, n, c, now);
    PartOf(s, n);
    IndexAt(s, n, s.queues[n].ready[0].item);
  }

  /** reserve returns the ready message of highest priority and, among those, of lowest sequence number. */
  lemma ReserveIsFirst(s: State, n: QName, c: ConsumerId, now: Time, e: Entry<Id>)
    requires Inv(s) && AllRanked(s) && n in s.queues && e in s.queues[n].ready
    ensures
      var r := Reserve(s, n, c, now).1;
      var q := s.queues[n];
      && r.Some? && e.item in q.messages
      && r.value.priority >= q.messages[e.item].priority
      && (r.value.priority == q.messages[e.item].priority ==>
            exists e0 :: e0 in q.ready && e0.item == r.value.id && e0.ord <= e.ord)
  {
    hide Inv, Reserve, IsHeap;
    var q := s.queues[n];
    ReserveReturnsHead(s, n, c, now);
    Pop(q.ready);
    RankAt(s, n);
    assert e.item in Items(q.ready);
  }

  /** First come, first served: a message that was ready in a queue before another one was keeps its turn.
      As long as its entry is in the heap, no reserve returns the later one, unless that has a higher priority. */
  lemma FirstComeFirstServed(s: State, run: seq<Event>, n: QName, first: Entry<Id>, later: Id, c: ConsumerId, now: Time)
    requires Inv(s) && AllRanked(s) && s.cfg.baseDelay >= 0 && AllowedRun(s, run)
    requires n in s.queues && first in s.queues[n].ready && later !in Items(s.queues[n].ready)
    requires
      var s' := Run(s, run);
      && n in s'.queues && first in s'.queues[n].ready
      && Holds(s', n, later) && Holds(s', n, first.item)
      && s'.queues[n].messages[later].priority <= s'.queues[n].messages[first.item].priority
    ensures
      var r := Reserve(Run(s, run), n, c, now).1;
      r.Some? && r.value.id != later
  {
    hide Inv, Run, AllowedRun, Reserve, Advance, Ranked;
    var s' := Run(s, run);
    RunInv(s, run);
    RunOrder(s, run);
    AdvanceRanked(s, s');
    ReserveIsFirst(s', n, c, now, first);
    var r := Reserve(s', n, c, now).1;
    if r.value.id == later {
      ReservePlace(s', n, c, now);
      PlaceMeaning(s', n, later);
      var e0 :| e0 in s'.queues[n].ready && e0.item == r.value.id && e0.ord <= first.ord;
      OldEntry(s, s', n, first, e0);
      assert false;
    }
  }

  lemma OldEntry(s: State, s': State, n: QName, first: Entry<Id>, e: Entry<Id>)
    requires AllRanked(s) && Advance(s, s') && n in s.queues && n in s'.queues
    requires first in s.queues[n].ready && e in s'.queues[n].ready && e.ord <= first.ord
    ensures e.item in Items(s.queues[n].ready)
  {
    RankAt(s, n);
    assert NewerOnly(s.queues[n], s'.queues[n], s.lastOrd);
  }
}
