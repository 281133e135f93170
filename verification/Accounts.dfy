/** Conservation: the counters of every queue account for every delivery and every message. */
module Accounts {
  import opened Types
  import opened DlqNames
  import opened Heaps
  import opened Backoffs
  import opened Engine
  import opened Index
  import opened Partition
  import opened Invariant
  import opened InvariantOps
  import opened Places
  import opened Ticks
  import opened Requeue
  import opened Runs

  /** Every delivery is still in flight, acknowledged, retried or dead. */
  predicate Balanced(q: Queue) {
    q.stats.delivered == |q.inflight| + q.stats.acked + q.stats.retried + q.stats.dead
  }

  /** Every message published to an ordinary queue is still stored, acknowledged or dead. */
  predicate Filed(n: QName, q: Queue) {
    !IsDlq(n) ==> q.stats.published == |q.messages| + q.stats.acked + q.stats.dead
  }

  predicate QueueAccounts(n: QName, q: Queue) {
    Balanced(q) && Filed(n, q)
  }

  ghost predicate AccountsOk(queues: map<QName, Queue>) {
    forall n :: n in queues ==> QueueAccounts(n, queues[n])
  }

  /** The accounts of queue n while one of its deliveries is in hand. */
  ghost predicate AccountsBut(queues: map<QName, Queue>, n: QName) {
    && n in queues && Filed(n, queues[n])
    && queues[n].stats.delivered ==
       |queues[n].inflight| + 1 + queues[n].stats.acked + queues[n].stats.retried + queues[n].stats.dead
    && forall n' :: n' in queues && n' != n ==> QueueAccounts(n', queues[n'])
  }

  lemma MapSizes<V>(m: map<Id, V>, id: Id, v: V)
    ensures |m - {id}| == |m| - (if id in m then 1 else 0)
    ensures |m[id := v]| == |m| + (if id in m then 0 else 1)
  {
    assert (m - {id}).Keys == m.Keys - {id};
    assert m[id := v].Keys == m.Keys + {id};
    assert |m.Keys| == |m| && |(m - {id}).Keys| == |m - {id}| && |m[id := v].Keys| == |m[id := v]|;
  }

  lemma SetAccounts(queues: map<QName, Queue>, n: QName, q: Queue)
    requires AccountsOk(queues) && QueueAccounts(n, q)
    ensures AccountsOk(queues[n := q])
  {
    hide QueueAccounts;
  }

  lemma SetAccountsBut(queues: map<QName, Queue>, n: QName, q: Queue)
    requires AccountsBut(queues, n) && QueueAccounts(n, q)
    ensures AccountsOk(queues[n := q])
  {
    hide QueueAccounts;
  }

  lemma DeclareAccounts(s: State, n: QName, a: DeclareArgs, persist: bool)
    requires AccountsOk(s.queues)
    ensures AccountsOk(Declare(s, n, a, persist).queues)
    decreases if IsDlq(n) then 0 else 1
  {
    hide AccountsOk, IsDlq;
    if n !in s.queues {
      var spec := MakeSpec(s.cfg, n, a);
      SetAccounts(s.queues, n, NewQueue(spec));
      if spec.deadLetter {
        DeclareAccounts(SetQueue(s, n, NewQueue(spec)), DlqName(n), DlqArgs(spec), persist);
      }
    }
  }

  lemma DeleteAccounts(s: State, n: QName, persist: bool)
    requires AccountsOk(s.queues) && IndexOk(s)
    ensures AccountsOk(Delete(s, n, persist).0.queues)
  {
    hide TablesAgree, QueueAccounts, Delete, Deleted;
    DeletePlace(s, n, persist);
  }

  lemma AdmitAccount(n: QName, q: Queue, m: Message, now: Time, ord: nat)
    requires QueueAccounts(n, q) && m.id !in q.messages
    ensures QueueAccounts(n, Admit(q, m, now, ord))
  {
    hide Push, Stored, Later, IsDlq;
    MapSizes(q.messages, m.id, Stored(m, now));
  }

  lemma EnqueueAccounts(s: State, m: Message, now: Time, persist: bool)
    requires AccountsOk(s.queues) && IndexOk(s) && m.id !in s.byId
    ensures AccountsOk(Enqueue(s, m, now, persist).0.queues)
  {
    hide TablesAgree, AccountsOk, QueueAccounts, Push, Stored, Full, Admit;
    if m.queue in s.queues {
      var q := s.queues[m.queue];
      FreshInQueue(s, m.queue, m.id);
      AccountAt(s.queues, m.queue);
      AdmitAccount(m.queue, q, m, now, s.lastOrd + 1);
      SetAccounts(s.queues, m.queue, Admit(q, m, now, s.lastOrd + 1));
    }
  }

  lemma AccountAt(queues: map<QName, Queue>, n: QName)
    requires AccountsOk(queues) && n in queues
    ensures QueueAccounts(n, queues[n])
  {
  }

  lemma ReserveAccounts(s: State, n: QName, c: ConsumerId, now: Time)
    requires Inv(s) && AccountsOk(s.queues)
    ensures AccountsOk(Reserve(s, n, c, now).0.queues)
  {
    hide AccountsOk, HeapsOk, TablesAgree, IsDlq, Push, Reserve, PartsOk, Items;
    if n in s.queues && s.queues[n].ready != [] {
      ReserveHead(s, n, c, now);
      HeadIsItem(s.queues[n].ready);
      var id := s.queues[n].ready[0].item;
      ReadyNoEntry(s, n, id);
      AccountAt(s.queues, n);
      var d := Delivery(id, n, c, now, now + s.queues[n].spec.visibilityTimeout);
      MapSizes(s.queues[n].inflight, id, d);
      SetAccounts(s.queues, n, Deliver(PopReady(s.queues[n]), d));
    } else {
      ReserveNothing(s, n, c, now);
    }
  }

  lemma AckAccounts(s: State, id: Id, persist: bool)
    requires Inv(s) && AccountsOk(s.queues)
    ensures AccountsOk(Ack(s, id, persist).0.queues)
  {
    hide AccountsOk, HeapsOk, TablesAgree, IsDlq, PartsOk, Trim;
    if InFlight(s, id) {
      var n := s.byId[id];
      var q := s.queues[n];
      InflightNoEntry(s, n, id);
      AccountAt(s.queues, n);
      MapSizes(q.inflight, id, q.inflight[id]);
      MapSizes(q.messages, id, q.messages[id]);
      SetAccounts(s.queues, n, Discharge(q, id));
    }
  }

  lemma TakeBackAccounts(s: State, n: QName, id: Id)
    requires AccountsOk(s.queues) && n in s.queues && id in s.queues[n].inflight
    ensures AccountsBut(s.queues[n := TakeBack(s.queues[n], id)], n)
    ensures AccountsBut(s.queues[n := CountNack(TakeBack(s.queues[n], id))], n)
  {
    hide IsDlq;
    var q := s.queues[n];
    MapSizes(q.inflight, id, q.inflight[id]);
    assert QueueAccounts(n, q);
  }

  lemma MoveToDlqAccounts(s: State, n: QName, m: Message, persist: bool)
    requires AccountsBut(s.queues, n) && InvBut(s, n, m.id)
    ensures AccountsOk(MoveToDlq(s, n, m, persist).queues)
  {
    hide HeapsOk, TablesAgree, IsDlq, Declare, QueueOkBut, QueueOk, NoEntry, Push, AccountsOk;
    var q := s.queues[n];
    var s1 := Remove(s, n, m, persist);
    InHandNoEntry(s, n, m.id);
    MapSizes(q.messages, m.id, m);
    SetAccountsBut(s.queues, n, Bury(q, m.id));
    if q.spec.deadLetter {
      var a := DEFAULT_ARGS.(deadLetter := false);
      DeclareAccounts(s1, DlqName(n), a, false);
      DeclareKeepsQueues(s1, DlqName(n), a, false);
      LayAccounts(Declare(s1, DlqName(n), a, false), DeadMessage(m, n));
    }
  }

  lemma LayAccounts(s: State, m: Message)
    requires AccountsOk(s.queues) && m.queue in s.queues && IsDlq(m.queue)
    ensures AccountsOk(Lay(s, m).queues)
  {
    hide AccountsOk, IsDlq, Push;
    AccountAt(s.queues, m.queue);
    SetAccounts(s.queues, m.queue, Inter(s.queues[m.queue], m, s.lastOrd + 1));
  }

  lemma RetryOrDeadAccounts(s: State, n: QName, m: Message, now: Time, persist: bool)
    requires AccountsBut(s.queues, n) && InvBut(s, n, m.id)
    ensures AccountsOk(RetryOrDead(s, n, m, now, persist).queues)
  {
    hide HeapsOk, TablesAgree, IsDlq, MoveToDlq, QueueOkBut, QueueOk, NoEntry, Push, AccountsOk, RetryDelay;
    var m1 := m.(attempts := m.attempts + 1);
    if m1.attempts >= m1.maxAttempts {
      MoveToDlqAccounts(s, n, m1, persist);
    } else {
      var m2 := m1.(availableAt := Some(now + RetryDelay(m1.attempts, s.cfg.backoff, s.cfg.baseDelay)));
      InHandNoEntry(s, n, m.id);
      MapSizes(s.queues[n].messages, m.id, m2);
      SetAccountsBut(s.queues, n, Postpone(s.queues[n], m2));
    }
  }

  lemma NackAccounts(s: State, id: Id, requeue: bool, now: Time, persist: bool)
    requires Inv(s) && AccountsOk(s.queues)
    ensures AccountsOk(Nack(s, id, requeue, now, persist).0.queues)
  {
    hide AccountsOk, AccountsBut, IndexOk, PartsOk, PartsOkBut, HeapsOk, RetryOrDead, MoveToDlq;
    if InFlight(s, id) {
      var n := s.byId[id];
      var q := TakeBack(s.queues[n], id);
      TakeBackInv(s, n, id);
      var s1 := SetQueue(s, n, q);
      InflightNoEntry(s, n, id);
      IndexAt(s, n, id);
      CountNackInv(s1, n, id, Journal.MessageNack(id, n, requeue), persist);
      var s2 := Log(SetQueue(s1, n, CountNack(s1.queues[n])), Journal.MessageNack(id, n, requeue), [], persist);
      assert s2 == Log(SetQueue(s, n, CountNack(q)), Journal.MessageNack(id, n, requeue), [], persist);
      TakeBackAccounts(s, n, id);
      if requeue {
        RetryOrDeadAccounts(s2, n, q.messages[id], now, persist);
      } else {
        MoveToDlqAccounts(s2, n, q.messages[id], persist);
      }
    }
  }

  lemma ExpireAccounts(s: State, n: QName, id: Id, now: Time, persist: bool)
    requires Inv(s) && AccountsOk(s.queues) && n in s.queues && id in s.queues[n].inflight
    ensures AccountsOk(Expire(s, n, id, now, persist).queues)
  {
    hide AccountsOk, AccountsBut, IndexOk, PartsOk, PartsOkBut, HeapsOk, RetryOrDead;
    TakeBackInv(s, n, id);
    InflightNoEntry(s, n, id);
    IndexAt(s, n, id);
    TakeBackAccounts(s, n, id);
    RetryOrDeadAccounts(SetQueue(s, n, TakeBack(s.queues[n], id)), n, s.queues[n].messages[id], now, persist);
  }

  lemma RecoverAccounts(s: State, todo: seq<Addr>, now: Time, persist: bool)
    requires Inv(s) && AccountsOk(s.queues) && AllInflight(s, todo) && now > 0 && s.cfg.baseDelay >= 0
    ensures AccountsOk(Recover(s, todo, now, persist).queues)
    decreases |todo|
  {
    hide Inv, Expire, AccountsOk;
    if todo != [] {
      var a := todo[0];
      ExpireKeepsQueues(s, a.queue, a.id, now, persist);
      ExpireInv(s, a.queue, a.id, now, persist);
      ExpireAccounts(s, a.queue, a.id, now, persist);
      ExpireCfg(s, a.queue, a.id, now, persist);
      RestInflight(s, todo, now, persist);
      RecoverAccounts(Expire(s, a.queue, a.id, now, persist), todo[1..], now, persist);
    }
  }

  lemma MatureAccount(n: QName, q: Queue, m: Message, ord: nat)
    requires QueueAccounts(n, q) && (m.id in q.messages || IsDlq(n))
    ensures QueueAccounts(n, Mature(q, m, ord))
  {
    hide Push, IsDlq;
    MapSizes(q.messages, m.id, m);
  }

  lemma ReleaseOneAccounts(s: State, a: Addr)
    requires AccountsOk(s.queues) && IndexOk(s)
    ensures AccountsOk(ReleaseOne(s, a).queues)
  {
    hide AccountsOk, IsDlq, Push, TablesAgree, Mature;
    if Waiting(s, a) {
      var q := Undelay(s.queues[a.queue], a.id);
      AccountAt(s.queues, a.queue);
      if a.id !in q.messages || a.id in q.inflight {
        SetAccounts(s.queues, a.queue, q);
      } else {
        IndexAt(s, a.queue, a.id);
        var m := q.messages[a.id].(availableAt := None);
        MatureAccount(a.queue, q, m, s.lastOrd + 1);
        SetAccounts(s.queues, a.queue, Mature(q, m, s.lastOrd + 1));
      }
    }
  }

  lemma ReleaseAllAccounts(s: State, due: seq<Addr>)
    requires AccountsOk(s.queues) && IndexOk(s)
    ensures AccountsOk(ReleaseAll(s, due).queues)
    decreases |due|
  {
    hide AccountsOk, ReleaseOne, TablesAgree;
    if due != [] {
      ReleaseOneAccounts(s, due[0]);
      ReleaseOneIndex(s, due[0]);
      ReleaseAllAccounts(ReleaseOne(s, due[0]), due[1..]);
    }
  }

  lemma TimeoutAccounts(s: State, ts: Time, now: Time)
    requires Inv(s) && AccountsOk(s.queues) && now > 0 && s.cfg.baseDelay >= 0
    ensures AccountsOk(TimeoutInflight(s, ts, now).queues)
    decreases |s.visibility|
  {
    hide Inv, AccountsOk, Expire, PlaceOf;
    if s.visibility != [] && s.visibility[0].key <= ts {
      var e := s.visibility[0];
      var h := s.visibility[1..];
      TimeoutKeepsHeap(s.(visibility := h), e, now);
      TimeoutStep(s, now);
      if Current(s, e) {
        ExpireAccounts(s, e.item.queue, e.item.id, now, true);
        ExpireHeap(s, h, e.item.queue, e.item.id, now, true);
      }
      TimeoutAccounts(TimeoutOne(s.(visibility := h), e, now), ts, now);
    }
  }

  lemma TickAccounts(s: State, ts: Time, now: Time)
    requires Inv(s) && AccountsOk(s.queues) && now > 0 && s.cfg.baseDelay >= 0
    ensures AccountsOk(Tick(s, ts, now).queues)
  {
    hide Inv, AccountsOk, TimeoutInflight, ReleaseAll, PopDue, PlaceOf;
    var (due, rest) := PopDue(s.delayed, ts);
    InvIndex(s);
    ReleaseAllAccounts(s.(delayed := rest), due);
    ReleaseDelayedPlace(s, ts, "");
    TimeoutAccounts(ReleaseDelayed(s, ts), ts, now);
  }

  lemma WithdrawnAccounts(s: State, dn: QName, id: Id)
    requires AccountsOk(s.queues) && dn in s.queues && IsDlq(dn)
    ensures AccountsOk(Withdrawn(s, dn, id).queues)
  {
    hide AccountsOk, IsDlq, Drop, Without;
    AccountAt(s.queues, dn);
    SetAccounts(s.queues, dn, Withdraw(s.queues[dn], id));
  }

  lemma PutBackAccounts(s: State, m: Message)
    requires AccountsOk(s.queues) && m.queue in s.queues && IsDlq(m.queue)
    ensures AccountsOk(PutBack(s, m).queues)
  {
    hide AccountsOk, IsDlq, Push, Mature, QueueAccounts;
    AccountAt(s.queues, m.queue);
    MatureAccount(m.queue, s.queues[m.queue], m, s.lastOrd + 1);
    SetAccounts(s.queues, m.queue, Mature(s.queues[m.queue], m, s.lastOrd + 1));
  }

  lemma RequeueAccounts(s: State, n: QName, id: Id, now: Time, persist: bool)
    requires IndexOk(s) && AccountsOk(s.queues)
    ensures AccountsOk(DlqRequeue(s, n, id, now, persist).0.queues)
  {
    hide AccountsOk, TablesAgree, IsDlq, Enqueue, DlqRequeue, Withdrawn, PutBack;
    RequeueForm(s, n, id, now, persist);
    if Found(s, n, id) {
      var dn := DlqName(OriginQueue(n));
      var s1 := Withdrawn(s, dn, id);
      WithdrawnAccounts(s, dn, id);
      WithdrawnIndex(s, dn, id);
      WithdrawnQueues(s, n, id);
      EnqueueAccounts(s1, BackMessage(s, n, id), now, false);
      PutBackAccounts(s1, BackMessage(s, n, id).(queue := dn));
    }
  }

  lemma WithdrawnIndex(s: State, dn: QName, id: Id)
    requires IndexOk(s) && Holds(s, dn, id)
    ensures IndexOk(Withdrawn(s, dn, id)) && id !in Withdrawn(s, dn, id).byId
  {
    hide TablesAgree, Drop, Without;
    RemoveIndex(s, dn, id, Withdraw(s.queues[dn], id));
  }

  lemma StepAccounts(s: State, ev: Event)
    requires Inv(s) && Allowed(s, ev) && AccountsOk(s.queues) && s.cfg.baseDelay >= 0
    ensures AccountsOk(Step(s, ev).queues)
  {
    hide Inv, NoEntry, Items, Found, DeliveriesIn, AllInflight, AccountsOk;
    InvIndex(s);
    match ev.op
    case DoDeclare(n, a) => DeclareAccounts(s, n, a, true);
    case DoDelete(n) => DeleteAccounts(s, n, true);
    case DoPublish(m) => EnqueueAccounts(s, m, ev.now, true);
    case DoReserve(n, c) => ReserveAccounts(s, n, c, ev.now);
    case DoAck(id) => AckAccounts(s, id, true);
    case DoNack(id, requeue) => NackAccounts(s, id, requeue, ev.now, true);
    case DoRecover(c, todo) =>
      AllowedTodo(s, c, todo);
      RecoverAccounts(s, todo, ev.now, true);
    case DoTick(ts) => TickAccounts(s, ts, ev.now);
    case DoRequeue(n, id) => RequeueAccounts(s, n, id, ev.now, true);
  }

  /** In every state of every run: delivered = in flight + acked + retried + dead for every queue, and
      published = stored + acked + dead for every queue that is not a dead-letter queue. */
  lemma {:induction false} Conservation(s: State, run: seq<Event>)
    requires Inv(s) && AccountsOk(s.queues) && s.cfg.baseDelay >= 0 && AllowedRun(s, run)
    ensures AccountsOk(Run(s, run).queues)
    decreases |run|
  {
    hide Inv, Step, Allowed, AccountsOk;
    if run != [] {
      AllowedCallable(s, run[0]);
      StepInv(s, run[0]);
      StepSpecs(s, run[0]);
      StepAccounts(s, run[0]);
      Conservation(Step(s, run[0]), run[1..]);
    }
  }
}
