/** Every operation keeps the invariant. */
module InvariantOps {
  import opened Types
  import opened DlqNames
  import opened Heaps
  import opened Backoffs
  import opened Engine
  import opened Index
  import opened Partition
  import opened Invariant

  lemma EntriesPush(queues: map<QName, Queue>, byId: map<Id, QName>, h: seq<Entry<Addr>>, e: Entry<Addr>)
    requires EntriesOk(queues, byId, h) && EntryOk(queues, byId, e)
    ensures EntriesOk(queues, byId, Push(h, e))
  {
    hide EntryOk, Push;
  }

  // ----- declaring and deleting -----

  predicate Empty(q: Queue) {
    q.ready == [] && q.inflight == map[] && q.delayedIds == {} && q.messages == map[]
  }

  lemma AddQueue(s: State, n: QName, q: Queue)
    requires PartsOk(s.queues) && HeapsOk(s) && n !in s.queues && Empty(q)
    ensures PartsOk(s.queues[n := q]) && HeapsOk(SetQueue(s, n, q))
  {
    hide HasEntry, Within, QueueOk, IsHeap;
    EmptyOk(n, q);
    WithinItself(s.visibility);
    WithinItself(s.delayed);
    SetVisible(s.queues, n, q, s.visibility, s.visibility);
    SetDelayed(s.queues, n, q, s.delayed, s.delayed);
    forall e | e in s.delayed
      ensures EntryOk(s.queues[n := q], s.byId, e)
    {
      assert EntryOk(s.queues, s.byId, e);
    }
  }

  lemma EmptyOk(n: QName, q: Queue)
    requires Empty(q)
    ensures QueueOk(n, q)
  {
  }

  lemma DeclareInv(s: State, n: QName, a: DeclareArgs, persist: bool)
    requires Inv(s)
    ensures Inv(Declare(s, n, a, persist))
    decreases if IsDlq(n) then 0 else 1
  {
    hide TablesAgree, HeapsOk, PartsOk, IsDlq;
    DeclareIndex(s, n, a, persist);
    if n !in s.queues {
      var spec := MakeSpec(s.cfg, n, a);
      var s1 := SetQueue(s, n, NewQueue(spec));
      AddQueue(s, n, NewQueue(spec));
      DeclareIndexOne(s, n, a);
      if spec.deadLetter {
        DeclareInv(s1, DlqName(n), DlqArgs(spec), persist);
        LogInv(Declare(s1, DlqName(n), DlqArgs(spec), persist), DeclareMeta(spec), [], persist);
      } else {
        LogInv(s1, DeclareMeta(spec), [], persist);
      }
    }
  }

  lemma LogInv(s: State, meta: Journal.Meta, payload: Bytes, persist: bool)
    requires Inv(s)
    ensures Inv(Log(s, meta, payload, persist))
  {
    hide TablesAgree, VisibleOk, DelayedOk, EntriesOk, PartsOk;
  }

  lemma DropQueue(s: State, n: QName)
    requires Inv(s) && n in s.queues
    ensures PartsOk(s.queues - {n})
    ensures HeapsOk(s.(queues := s.queues - {n}, byId := s.byId - s.queues[n].messages.Keys))
  {
    hide QueueOk, HasEntry, IsHeap;
    var queues, byId := s.queues - {n}, s.byId - s.queues[n].messages.Keys;
    forall n' | n' in queues
      ensures VisibleOf(n', queues[n'].inflight, s.visibility) && DelayedOf(n', queues[n'], s.delayed)
    {
      assert VisibleOf(n', s.queues[n'].inflight, s.visibility) && DelayedOf(n', s.queues[n'], s.delayed);
    }
    forall e | e in s.delayed
      ensures EntryOk(queues, byId, e)
    {
      assert EntryOk(s.queues, s.byId, e);
    }
  }

  lemma DeleteInv(s: State, n: QName, persist: bool)
    requires Inv(s)
    ensures Inv(Delete(s, n, persist).0)
    decreases |s.queues|
  {
    hide TablesAgree, HeapsOk, PartsOk, IsDlq;
    DeleteIndex(s, n, persist);
    if n in s.queues {
      var q := s.queues[n];
      var s1 := s.(queues := s.queues - {n}, byId := s.byId - q.messages.Keys);
      assert s.queues.Keys == s1.queues.Keys + {n};
      DropQueue(s, n);
      DeleteIndexOne(s, n);
      LogInv(s1, Journal.QueueDelete(n), [], persist);
      if q.spec.deadLetter {
        DeleteInv(Log(s1, Journal.QueueDelete(n), [], persist), DlqName(n), persist);
      }
    }
  }

  // ----- messages coming in and going out -----

  /** An id that no stored message and no entry of the delayed heap uses. A never used id is fresh. */
  ghost predicate Fresh(s: State, id: Id) {
    id !in s.byId && NoEntry(s.delayed, id)
  }

  lemma NewEntryOk(queues: map<QName, Queue>, byId: map<Id, QName>, e: Entry<Addr>)
    requires e.item.id in byId && byId[e.item.id] == e.item.queue && e.item.queue in queues
    requires e.item.id in queues[e.item.queue].delayedIds && e.item.id in queues[e.item.queue].messages
    requires queues[e.item.queue].messages[e.item.id].availableAt == Some(e.key)
    ensures EntryOk(queues, byId, e)
  {
  }

  lemma FreshInQueue(s: State, n: QName, id: Id)
    requires IndexOk(s) && n in s.queues && id !in s.byId
    ensures id !in s.queues[n].messages
  {
  }

  lemma FreshNotDelayed(s: State, n: QName, id: Id)
    requires Inv(s) && n in s.queues && id !in s.byId
    ensures id !in s.queues[n].delayedIds && id !in s.queues[n].inflight && id !in Items(s.queues[n].ready)
  {
    hide Items, HeapOk, TablesAgree, HeapsOk;
    FreshInQueue(s, n, id);
    assert QueueOk(n, s.queues[n]);
    assert id !in s.queues[n].messages.Keys;
  }

  /** A message that is nowhere becomes ready in a queue, whatever else that queue records about it. */
  lemma ArriveInv(s: State, m: Message, d: Queue, ord: nat)
    requires Inv(s) && Fresh(s, m.id) && m.queue in s.queues
    requires
      var q := s.queues[m.queue];
      && d.messages == q.messages[m.id := m] && d.ready == Push(q.ready, ReadyEntry(m, ord))
      && d.inflight == q.inflight && d.delayedIds == q.delayedIds && d.spec == q.spec
    ensures Inv(SetQueue(s, m.queue, d).(byId := s.byId[m.id := m.queue], lastOrd := ord))
  {
    hide TablesAgree, QueueOk, VisibleOk, DelayedOk, EntriesOk, IsHeap, HasEntry, Within, NoEntry, Push;
    FreshInQueue(s, m.queue, m.id);
    AddIndex(s, m, d);
    ArriveOk(m.queue, s.queues[m.queue], d, m, ord);
    SetParts(s.queues, m.queue, d);
    WithinItself(s.visibility);
    WithinItself(s.delayed);
    SetVisible(s.queues, m.queue, d, s.visibility, s.visibility);
    FreshNotDelayed(s, m.queue, m.id);
    SetDelayed(s.queues, m.queue, d, s.delayed, s.delayed);
    SetEntries(s.queues, m.queue, d, s.byId, s.byId[m.id := m.queue], s.delayed, m.id);
  }

  /** A message that is nowhere becomes delayed in a queue. */
  lemma ArriveLaterInv(s: State, m: Message, d: Queue, ord: nat)
    requires Inv(s) && Fresh(s, m.id) && m.queue in s.queues && DueOk(m)
    requires
      var q := s.queues[m.queue];
      && d.messages == q.messages[m.id := m] && d.ready == q.ready
      && d.inflight == q.inflight && d.delayedIds == q.delayedIds + {m.id} && d.spec == q.spec
    ensures Inv(SetQueue(s, m.queue, d).(
                  byId := s.byId[m.id := m.queue], lastOrd := ord,
                  delayed := Push(s.delayed, Entry(m.availableAt.value, ord, Addr(m.queue, m.id)))))
  {
    hide TablesAgree, QueueOk, VisibleOk, DelayedOk, EntriesOk, IsHeap, HasEntry, Within, NoEntry, Push;
    var e := Entry(m.availableAt.value, ord, Addr(m.queue, m.id));
    var byId := s.byId[m.id := m.queue];
    FreshInQueue(s, m.queue, m.id);
    FreshNotDelayed(s, m.queue, m.id);
    AddIndex(s, m, d);
    ArriveLaterOk(m.queue, s.queues[m.queue], d, m);
    SetParts(s.queues, m.queue, d);
    WithinItself(s.visibility);
    HasPush(s.delayed, e);
    SetVisible(s.queues, m.queue, d, s.visibility, s.visibility);
    SetDelayed(s.queues, m.queue, d, s.delayed, Push(s.delayed, e));
    SetEntries(s.queues, m.queue, d, s.byId, byId, s.delayed, m.id);
    NewEntryOk(s.queues[m.queue := d], byId, e);
    EntriesPush(s.queues[m.queue := d], byId, s.delayed, e);
  }

  lemma EnqueueInv(s: State, m: Message, now: Time, persist: bool)
    requires Inv(s) && Fresh(s, m.id) && now > 0
    ensures Inv(Enqueue(s, m, now, persist).0)
  {
    hide TablesAgree, PartsOk, VisibleOk, DelayedOk, EntriesOk, IsHeap, Push, NoEntry;
    if m.queue in s.queues {
      var d := Admit(s.queues[m.queue], m, now, s.lastOrd + 1);
      if Later(m, now) {
        ArriveLaterInv(s, m, d, s.lastOrd + 1);
      } else {
        ArriveInv(s, Stored(m, now), d, s.lastOrd + 1);
      }
    }
  }

  lemma KeepEntries(queues: map<QName, Queue>, n: QName, q: Queue, byId: map<Id, QName>, h: seq<Entry<Addr>>)
    requires EntriesOk(queues, byId, h) && n in queues
    requires q.delayedIds == queues[n].delayedIds && q.messages == queues[n].messages
    ensures EntriesOk(queues[n := q], byId, h)
  {
    forall e | e in h
      ensures EntryOk(queues[n := q], byId, e)
    {
      assert EntryOk(queues, byId, e);
    }
  }

  /** In a reachable state the head of the ready heap is never outdated: it is what reserve returns. */
  lemma ReserveHead(s: State, n: QName, c: ConsumerId, now: Time)
    requires Inv(s) && n in s.queues && s.queues[n].ready != []
    ensures
      var q := s.queues[n];
      var id := q.ready[0].item;
      var d := Delivery(id, n, c, now, now + q.spec.visibilityTimeout);
      && id in q.messages
      && QueueOk(n, Deliver(PopReady(q), d))
      && Reserve(s, n, c, now) ==
         (SetQueue(s, n, Deliver(PopReady(q), d)).(
            lastOrd := s.lastOrd + 1,
            visibility := Push(s.visibility, Entry(d.deadline, s.lastOrd + 1, Addr(n, id)))),
          Some(q.messages[id]))
  {
    hide TablesAgree, Push, QueueOk, VisibleOk, DelayedOk, EntriesOk, IsHeap;
    var q := s.queues[n];
    DeliverOk(n, q, Delivery(q.ready[0].item, n, c, now, now + q.spec.visibilityTimeout));
  }

  lemma ReserveInv(s: State, n: QName, c: ConsumerId, now: Time)
    requires Inv(s)
    ensures Inv(Reserve(s, n, c, now).0)
  {
    hide TablesAgree, Push, QueueOk, VisibleOk, DelayedOk, EntriesOk, IsHeap, HasEntry, Within;
    ReserveIndex(s, n, c, now);
    if n in s.queues && s.queues[n].ready != [] {
      ReserveHead(s, n, c, now);
      var q := s.queues[n];
      var id := q.ready[0].item;
      var d := Delivery(id, n, c, now, now + q.spec.visibilityTimeout);
      var q' := Deliver(PopReady(q), d);
      var e := Entry(d.deadline, s.lastOrd + 1, Addr(n, id));
      SetParts(s.queues, n, q');
      HasPush(s.visibility, e);
      WithinItself(s.delayed);
      SetVisible(s.queues, n, q', s.visibility, Push(s.visibility, e));
      SetDelayed(s.queues, n, q', s.delayed, s.delayed);
      KeepEntries(s.queues, n, q', s.byId, s.delayed);
    }
  }

  /** A message in flight has no entry in the delayed heap. */
  lemma InflightNoEntry(s: State, n: QName, id: Id)
    requires Inv(s) && n in s.queues && id in s.queues[n].inflight
    ensures NoEntry(s.delayed, id) && Holds(s, n, id) && id in s.byId && s.byId[id] == n
  {
    hide Items, HeapOk, IsHeap, NoEntry, EntryOk;
    assert QueueOk(n, s.queues[n]);
    IndexAt(s, n, id);
    NoEntryOf(s, n, id);
  }

  /** Replacing one queue by one that differs in message id only, and holds no new delivery and no
      new delayed message. */
  lemma ShrinkHeaps(s: State, n: QName, q: Queue, byId: map<Id, QName>, id: Id)
    requires HeapsOk(s) && n in s.queues && NoEntry(s.delayed, id)
    requires SameBut(s.queues[n], q, id) && byId - {id} == s.byId - {id}
    requires forall x :: x in q.inflight ==> x in s.queues[n].inflight && q.inflight[x] == s.queues[n].inflight[x]
    requires forall x :: x in q.delayedIds && x in q.messages ==>
      x in s.queues[n].delayedIds && x in s.queues[n].messages && q.messages[x] == s.queues[n].messages[x]
    ensures HeapsOk(SetQueue(s, n, q).(byId := byId))
  {
    hide VisibleOk, DelayedOk, EntriesOk, IsHeap, HasEntry, Within, NoEntry, SameBut;
    WithinItself(s.visibility);
    WithinItself(s.delayed);
    SetVisible(s.queues, n, q, s.visibility, s.visibility);
    SetDelayed(s.queues, n, q, s.delayed, s.delayed);
    SetEntries(s.queues, n, q, s.byId, byId, s.delayed, id);
  }

  lemma AckInv(s: State, id: Id, persist: bool)
    requires Inv(s)
    ensures Inv(Ack(s, id, persist).0)
  {
    hide TablesAgree, QueueOk, VisibleOk, DelayedOk, EntriesOk, IsHeap, NoEntry, Trim;
    AckIndex(s, id, persist);
    if InFlight(s, id) {
      var n := s.byId[id];
      var q := s.queues[n];
      InflightNoEntry(s, n, id);
      DischargeOk(n, q, id);
      SetParts(s.queues, n, Discharge(q, id));
      ShrinkHeaps(s, n, Discharge(q, id), s.byId - {id}, id);
    }
  }

  // ----- retry and dead-lettering -----

  lemma TakeBackInv(s: State, n: QName, id: Id)
    requires Inv(s) && n in s.queues && id in s.queues[n].inflight
    ensures InvBut(SetQueue(s, n, TakeBack(s.queues[n], id)), n, id)
  {
    hide TablesAgree, QueueOk, QueueOkBut, VisibleOk, DelayedOk, EntriesOk, IsHeap, NoEntry;
    var q := s.queues[n];
    InflightNoEntry(s, n, id);
    KeepIndex(s, n, TakeBack(q, id));
    TakeBackOk(n, q, id);
    ShrinkHeaps(s, n, TakeBack(q, id), s.byId, id);
  }

  /** A message in hand has no entry in the delayed heap. */
  lemma InHandNoEntry(s: State, n: QName, id: Id)
    requires InvBut(s, n, id)
    ensures NoEntry(s.delayed, id) && Holds(s, n, id) && id in s.byId && s.byId[id] == n
    ensures id !in s.queues[n].delayedIds && id !in s.queues[n].inflight
  {
    hide Items, HeapOk, IsHeap, NoEntry, EntryOk, TablesAgree;
    assert id !in s.queues[n].messages.Keys - {id};
    IndexAt(s, n, id);
    NoEntryOf(s, n, id);
  }

  lemma CountNackInv(s: State, n: QName, id: Id, meta: Journal.Meta, persist: bool)
    requires InvBut(s, n, id)
    ensures InvBut(Log(SetQueue(s, n, CountNack(s.queues[n])), meta, [], persist), n, id)
  {
    hide TablesAgree, QueueOk, QueueOkBut, VisibleOk, DelayedOk, EntriesOk, IsHeap, NoEntry;
    var q := s.queues[n];
    InHandNoEntry(s, n, id);
    KeepIndex(s, n, CountNack(q));
    CountNackOk(n, q, id);
    ShrinkHeaps(s, n, CountNack(q), s.byId, id);
  }

  /** Putting the message in hand somewhere restores the queue's part of the invariant. */
  lemma SetPartsBut(queues: map<QName, Queue>, n: QName, id: Id, q: Queue)
    requires PartsOkBut(queues, n, id) && QueueOk(n, q)
    ensures PartsOk(queues[n := q])
  {
    hide QueueOk, QueueOkBut;
  }

  lemma RemoveInv(s: State, n: QName, m: Message, persist: bool)
    requires InvBut(s, n, m.id)
    ensures Inv(Remove(s, n, m, persist)) && Fresh(Remove(s, n, m, persist), m.id)
  {
    hide TablesAgree, QueueOk, QueueOkBut, VisibleOk, DelayedOk, EntriesOk, IsHeap, NoEntry;
    var q := s.queues[n];
    InHandNoEntry(s, n, m.id);
    RemoveIndex(s, n, m.id, Bury(q, m.id));
    BuryOk(n, q, m.id);
    SetPartsBut(s.queues, n, m.id, Bury(q, m.id));
    ShrinkHeaps(s, n, Bury(q, m.id), s.byId - {m.id}, m.id);
  }

  lemma LayInv(s: State, m: Message)
    requires Inv(s) && Fresh(s, m.id) && m.queue in s.queues
    ensures Inv(Lay(s, m))
  {
    hide Inv, Fresh, Push;
    ArriveInv(s, m, Inter(s.queues[m.queue], m, s.lastOrd + 1), s.lastOrd + 1);
  }

  lemma DeclareKeepsFresh(s: State, n: QName, a: DeclareArgs, persist: bool, id: Id)
    requires Fresh(s, id)
    ensures Fresh(Declare(s, n, a, persist), id)
    decreases if IsDlq(n) then 0 else 1
  {
    hide NoEntry, IsDlq;
  }

  lemma MoveToDlqInv(s: State, n: QName, m: Message, persist: bool)
    requires InvBut(s, n, m.id)
    ensures Inv(MoveToDlq(s, n, m, persist))
  {
    assert n in s.queues;
    hide IndexOk, PartsOkBut, PartsOk, HeapsOk, NoEntry, IsDlq;
    var s1 := Remove(s, n, m, persist);
    RemoveInv(s, n, m, persist);
    if s.queues[n].spec.deadLetter {
      var a := DEFAULT_ARGS.(deadLetter := false);
      DeclareInv(s1, DlqName(n), a, false);
      DeclareKeepsFresh(s1, DlqName(n), a, false, m.id);
      DeclareKeepsQueues(s1, DlqName(n), a, false);
      LayInv(Declare(s1, DlqName(n), a, false), DeadMessage(m, n));
    }
  }

  lemma RetryInv(s: State, n: QName, m: Message, at: Time, persist: bool)
    requires InvBut(s, n, m.id) && m.queue == n && at > 0
    ensures Inv(Retry(s, n, m, at, persist))
  {
    hide TablesAgree, QueueOk, QueueOkBut, VisibleOk, DelayedOk, EntriesOk, IsHeap, HasEntry, Within, NoEntry, Push;
    var q := s.queues[n];
    var m1 := m.(availableAt := Some(at));
    var q' := Postpone(q, m1);
    var e := Entry(at, s.lastOrd + 1, Addr(n, m.id));
    InHandNoEntry(s, n, m.id);
    UpdateIndex(s, n, m1, q');
    PostponeOk(n, q, m1);
    SetPartsBut(s.queues, n, m.id, q');
    WithinItself(s.visibility);
    HasPush(s.delayed, e);
    SetVisible(s.queues, n, q', s.visibility, s.visibility);
    SetDelayed(s.queues, n, q', s.delayed, Push(s.delayed, e));
    assert SameBut(q, q', m.id);
    SetEntries(s.queues, n, q', s.byId, s.byId, s.delayed, m.id);
    NewEntryOk(s.queues[n := q'], s.byId, e);
    EntriesPush(s.queues[n := q'], s.byId, s.delayed, e);
  }

  lemma RetryOrDeadInv(s: State, n: QName, m: Message, now: Time, persist: bool)
    requires InvBut(s, n, m.id) && m.queue == n && now > 0 && s.cfg.baseDelay >= 0
    ensures Inv(RetryOrDead(s, n, m, now, persist))
  {
    hide TablesAgree, QueueOk, QueueOkBut, PartsOk, HeapsOk, RetryDelay, Retry, MoveToDlq;
    var m1 := m.(attempts := m.attempts + 1);
    if m1.attempts >= m1.maxAttempts {
      MoveToDlqInv(s, n, m1, persist);
    } else {
      RetryDelayNonNegative(m1.attempts, s.cfg.backoff, s.cfg.baseDelay);
      var at := now + RetryDelay(m1.attempts, s.cfg.backoff, s.cfg.baseDelay);
      RetryInv(s, n, m1, at, persist);
    }
  }

  lemma NackInv(s: State, id: Id, requeue: bool, now: Time, persist: bool)
    requires Inv(s) && now > 0 && s.cfg.baseDelay >= 0
    ensures Inv(Nack(s, id, requeue, now, persist).0)
  {
    hide IndexOk, PartsOk, PartsOkBut, HeapsOk, RetryOrDead, MoveToDlq;
    if InFlight(s, id) {
      var n := s.byId[id];
      TakeBackInv(s, n, id);
      var s1 := SetQueue(s, n, TakeBack(s.queues[n], id));
      InflightNoEntry(s, n, id);
      IndexAt(s, n, id);
      CountNackInv(s1, n, id, Journal.MessageNack(id, n, requeue), persist);
      var s2 := Log(SetQueue(s1, n, CountNack(s1.queues[n])), Journal.MessageNack(id, n, requeue), [], persist);
      assert s2 == Log(SetQueue(s, n, CountNack(s1.queues[n])), Journal.MessageNack(id, n, requeue), [], persist);
      if requeue {
        RetryOrDeadInv(s2, n, s.queues[n].messages[id], now, persist);
      } else {
        MoveToDlqInv(s2, n, s.queues[n].messages[id], persist);
      }
    }
  }

  lemma ExpireInv(s: State, n: QName, id: Id, now: Time, persist: bool)
    requires Inv(s) && now > 0 && s.cfg.baseDelay >= 0
    requires n in s.queues && id in s.queues[n].inflight
    ensures Inv(Expire(s, n, id, now, persist))
  {
    hide IndexOk, PartsOk, PartsOkBut, HeapsOk, RetryOrDead;
    TakeBackInv(s, n, id);
    InflightNoEntry(s, n, id);
    IndexAt(s, n, id);
    RetryOrDeadInv(SetQueue(s, n, TakeBack(s.queues[n], id)), n, s.queues[n].messages[id], now, persist);
  }

  /** Deliveries that are all in flight, each listed once. */
  ghost predicate AllInflight(s: State, todo: seq<Addr>) {
    && (forall a :: a in todo ==> a.queue in s.queues && a.id in s.queues[a.queue].inflight)
    && (forall i, j :: 0 <= i < j < |todo| ==> todo[i] != todo[j])
  }

  ghost predicate KeepsFrame(q: Queue, q': Queue) {
    q'.inflight == q.inflight && q'.spec == q.spec && q'.consumerIds == q.consumerIds && q'.rrIndex == q.rrIndex
  }

  ghost predicate Unused(q: Queue) {
    q.inflight == map[] && q.consumerIds == []
  }

  /** Specifications, deliveries and consumer lists are the same, apart from new, unused queues. */
  ghost predicate SameFrame(queues: map<QName, Queue>, queues': map<QName, Queue>) {
    && (forall n :: n in queues ==> n in queues' && KeepsFrame(queues[n], queues'[n]))
    && (forall n :: n in queues' && n !in queues ==> Unused(queues'[n]))
  }

  lemma FrameTrans(a: map<QName, Queue>, b: map<QName, Queue>, c: map<QName, Queue>)
    requires SameFrame(a, b) && SameFrame(b, c)
    ensures SameFrame(a, c)
  {
    forall n | n in c && n !in a
      ensures Unused(c[n])
    {
      if n in b {
        assert Unused(b[n]) && KeepsFrame(b[n], c[n]);
      }
    }
  }

  lemma SetFrame(queues: map<QName, Queue>, n: QName, q: Queue)
    requires if n in queues then KeepsFrame(queues[n], q) else Unused(q)
    ensures SameFrame(queues, queues[n := q])
  {
  }

  lemma SameFrameItself(queues: map<QName, Queue>)
    ensures SameFrame(queues, queues)
  {
  }

  lemma DeclareFrame(s: State, n: QName, a: DeclareArgs, persist: bool)
    ensures SameFrame(s.queues, Declare(s, n, a, persist).queues)
    decreases if IsDlq(n) then 0 else 1
  {
    hide IsDlq, SameFrame;
    if n in s.queues {
      SameFrameItself(s.queues);
    } else {
      var spec := MakeSpec(s.cfg, n, a);
      SetFrame(s.queues, n, NewQueue(spec));
      if spec.deadLetter {
        var s1 := SetQueue(s, n, NewQueue(spec));
        DeclareFrame(s1, DlqName(n), DlqArgs(spec), persist);
        FrameTrans(s.queues, s1.queues, Declare(s1, DlqName(n), DlqArgs(spec), persist).queues);
      }
    }
  }

  lemma MoveToDlqFrame(s: State, n: QName, m: Message, persist: bool)
    requires n in s.queues
    ensures SameFrame(s.queues, MoveToDlq(s, n, m, persist).queues)
  {
    hide Push, IsDlq, Declare, SameFrame;
    var s1 := Remove(s, n, m, persist);
    SetFrame(s.queues, n, Bury(s.queues[n], m.id));
    if s.queues[n].spec.deadLetter {
      var a := DEFAULT_ARGS.(deadLetter := false);
      var s2 := Declare(s1, DlqName(n), a, false);
      DeclareKeepsQueues(s1, DlqName(n), a, false);
      DeclareFrame(s1, DlqName(n), a, false);
      var m1 := DeadMessage(m, n);
      SetFrame(s2.queues, m1.queue, Inter(s2.queues[m1.queue], m1, s2.lastOrd + 1));
      FrameTrans(s.queues, s1.queues, s2.queues);
      FrameTrans(s.queues, s2.queues, Lay(s2, m1).queues);
    }
  }

  lemma RetryOrDeadFrame(s: State, n: QName, m: Message, now: Time, persist: bool)
    requires n in s.queues
    ensures SameFrame(s.queues, RetryOrDead(s, n, m, now, persist).queues)
  {
    hide Push, RetryDelay, MoveToDlq, SameFrame;
    var m1 := m.(attempts := m.attempts + 1);
    MoveToDlqFrame(s, n, m1, persist);
    var at := now + RetryDelay(m1.attempts, s.cfg.backoff, s.cfg.baseDelay);
    SetFrame(s.queues, n, Postpone(s.queues[n], m1.(availableAt := Some(at))));
  }

  /** Taking one delivery back leaves every other delivery as it was, and adds none. */
  lemma ExpireFrame(s: State, n: QName, id: Id, now: Time, persist: bool)
    requires n in s.queues
    ensures SameFrame(s.queues[n := TakeBack(s.queues[n], id)], Expire(s, n, id, now, persist).queues)
  {
    hide SameFrame, RetryOrDead;
    var q := TakeBack(s.queues[n], id);
    if id in q.messages {
      RetryOrDeadFrame(SetQueue(s, n, q), n, q.messages[id], now, persist);
    } else {
      SameFrameItself(s.queues[n := q]);
    }
  }

  lemma RecoverInv(s: State, todo: seq<Addr>, now: Time, persist: bool)
    requires Inv(s) && AllInflight(s, todo) && now > 0 && s.cfg.baseDelay >= 0
    ensures Inv(Recover(s, todo, now, persist))
    decreases |todo|
  {
    hide Inv, Expire;
    if todo != [] {
      var a := todo[0];
      ExpireKeepsQueues(s, a.queue, a.id, now, persist);
      ExpireInv(s, a.queue, a.id, now, persist);
      ExpireFrame(s, a.queue, a.id, now, persist);
      ExpireCfg(s, a.queue, a.id, now, persist);
      RestInflight(s, todo, now, persist);
      RecoverInv(Expire(s, a.queue, a.id, now, persist), todo[1..], now, persist);
    }
  }

  lemma RestInflight(s: State, todo: seq<Addr>, now: Time, persist: bool)
    requires AllInflight(s, todo) && todo != []
    ensures AllInflight(Expire(s, todo[0].queue, todo[0].id, now, persist), todo[1..])
  {
    hide Expire;
    ExpireFrame(s, todo[0].queue, todo[0].id, now, persist);
    var s' := Expire(s, todo[0].queue, todo[0].id, now, persist);
    forall a | a in todo[1..]
      ensures a.queue in s'.queues && a.id in s'.queues[a.queue].inflight
    {
      var i :| 1 <= i < |todo| && todo[i] == a;
      assert todo[0] != todo[i];
    }
  }

  lemma DeclareCfg(s: State, n: QName, a: DeclareArgs, persist: bool)
    ensures Declare(s, n, a, persist).cfg == s.cfg
    decreases if IsDlq(n) then 0 else 1
  {
    hide IsDlq;
  }

  lemma ExpireCfg(s: State, n: QName, id: Id, now: Time, persist: bool)
    requires n in s.queues
    ensures Expire(s, n, id, now, persist).cfg == s.cfg
  {
    hide Push, RetryDelay, IsDlq, Declare;
    var s1 := SetQueue(s, n, TakeBack(s.queues[n], id));
    if id in s1.queues[n].messages {
      var m := s1.queues[n].messages[id];
      var s2 := Remove(s1, n, m.(attempts := m.attempts + 1), persist);
      DeclareKeepsQueues(s2, DlqName(n), DEFAULT_ARGS.(deadLetter := false), false);
      DeclareCfg(s2, DlqName(n), DEFAULT_ARGS.(deadLetter := false), false);
    }
  }
}
