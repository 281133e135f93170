/** The queue engine as the object it is: every method changes the fields step by step, and is proved to do
    what the function of the same name in module Engine says. */
module QueueEngines {
  import opened Types
  import opened DlqNames
  import opened Heaps
  import opened Backoffs
  import opened Journal
  import E = Engine
  import R = Runs
  import S = Snapshot
  import O = InvariantOps
  import I = Index

  /** The heap of delayed messages. */
  class DelayedHeap {
    var heap: seq<Entry<Addr>>

    constructor ()
      ensures heap == []
    {
      heap := [];
    }

    method Push(availableAt: Time, ord: nat, a: Addr)
      modifies this
      ensures heap == Heaps.Push(old(heap), Entry(availableAt, ord, a))
    {
      heap := Heaps.Push(heap, Entry(availableAt, ord, a));
    }

    /** Everything that is due, earliest first; what is left is not due. */
    method PopDue(now: Time) returns (due: seq<Addr>)
      modifies this
      ensures due == E.PopDue(old(heap), now).0 && heap == E.PopDue(old(heap), now).1
    {
      due := [];
      while heap != [] && heap[0].key <= now
        invariant E.PopDue(old(heap), now).0 == due + E.PopDue(heap, now).0
        invariant E.PopDue(old(heap), now).1 == E.PopDue(heap, now).1
        decreases |heap|
      {
        due := due + [heap[0].item];
        heap := heap[1..];
      }
    }
  }

  class QueueEngine {
    const cfg: E.Config
    var queues: map<QName, E.Queue>
    var byId: map<Id, QName>
    var recentAcks: seq<Id>
    var lastOrd: nat
    var visibility: seq<Entry<Addr>>
    var delayed: DelayedHeap
    var journal: seq<Rec>

    function State(): E.State
      reads this, delayed
    {
      E.State(cfg, queues, byId, recentAcks, lastOrd, visibility, delayed.heap, journal)
    }

    constructor (cfg: E.Config)
      ensures State() == E.Init(cfg) && fresh(delayed)
    {
      this.cfg := cfg;
      queues, byId, recentAcks, lastOrd, visibility, journal := map[], map[], [], 0, [], [];
      delayed := new DelayedHeap();
    }

    method NextSeq() returns (ord: nat)
      modifies `lastOrd
      ensures lastOrd == ord == old(lastOrd) + 1
    {
      lastOrd := lastOrd + 1;
      ord := lastOrd;
    }

    method Log(meta: Meta, payload: Bytes)
      modifies `journal
      ensures journal == old(journal) + [Rec(meta, payload)]
    {
      journal := journal + [Rec(meta, payload)];
    }

    // ----- declaring and deleting -----

    method DeclareQueue(n: QName, a: E.DeclareArgs, persist: bool)
      modifies `queues, `journal
      ensures State() == E.Declare(old(State()), n, a, persist)
      decreases if IsDlq(n) then 0 else 1
    {
      if n in queues {
        return;
      }
      var spec := E.MakeSpec(cfg, n, a);
      queues := queues[n := E.NewQueue(spec)];
      if spec.deadLetter {
        DeclareQueue(DlqName(n), E.DlqArgs(spec), persist);
      }
      if persist {
        Log(E.DeclareMeta(spec), []);
      }
    }

    method DeleteQueue(n: QName, persist: bool) returns (found: bool)
      modifies `queues, `byId, `journal
      ensures State() == E.Delete(old(State()), n, persist).0 && found == E.Delete(old(State()), n, persist).1
      decreases |queues|
    {
      if n !in queues {
        return false;
      }
      var q := queues[n];
      assert queues.Keys == (queues - {n}).Keys + {n};
      queues := queues - {n};
      Forget(q.messages.Keys);
      if persist {
        Log(QueueDelete(n), []);
      }
      if q.spec.deadLetter {
        var dead := DeleteQueue(DlqName(n), persist);
      }
      return true;
    }

    method Forget(ids: set<Id>)
      modifies `byId
      ensures byId == old(byId) - ids
    {
      var todo := ids;
      while todo != {}
        invariant todo <= ids && byId == old(byId) - (ids - todo)
        decreases |todo|
      {
        var id :| id in todo;
        todo := todo - {id};
        byId := byId - {id};
      }
    }

    // ----- messages coming in and going out -----

    method Enqueue(m: Message, now: Time, persist: bool) returns (r: E.EnqueueResult)
      modifies this, delayed
      ensures delayed == old(delayed)
      ensures State() == E.Enqueue(old(State()), m, now, persist).0 && r == E.Enqueue(old(State()), m, now, persist).1
    {
      hide Heaps.Push;
      if m.queue !in queues {
        return E.EnqueueNotFound;
      }
      var q := queues[m.queue];
      if q.spec.maxLength.Some? && E.Depth(q) >= q.spec.maxLength.value {
        return E.QueueFull;
      }
      var stored := E.Stored(m, now);
      q := q.(messages := q.messages[m.id := stored], stats := q.stats.(published := q.stats.published + 1));
      byId := byId[m.id := m.queue];
      var ord := NextSeq();
      if E.Later(m, now) {
        q := q.(delayedIds := q.delayedIds + {m.id});
        delayed.Push(m.availableAt.value, ord, Addr(m.queue, m.id));
      } else {
        q := q.(ready := Heaps.Push(q.ready, E.ReadyEntry(m, ord)));
      }
      queues := queues[m.queue := q];
      if persist {
        Log(PublishRec(stored).meta, m.payload);
      }
      return E.EnqueueOk;
    }

    method Reserve(n: QName, consumer: ConsumerId, now: Time) returns (r: Option<Message>)
      modifies `queues, `lastOrd, `visibility
      ensures State() == E.Reserve(old(State()), n, consumer, now).0 && r == E.Reserve(old(State()), n, consumer, now).1
    {
      hide Heaps.Push, E.Reserve, E.Stale, E.Deliver;
      if n !in queues {
        ReserveNothing(State(), n, consumer, now);
        return None;
      }
      while queues[n].ready != []
        invariant n in queues
        invariant E.Reserve(State(), n, consumer, now) == E.Reserve(old(State()), n, consumer, now)
        decreases |queues[n].ready|
      {
        var id := queues[n].ready[0].item;
        var q := E.PopReady(queues[n]);
        ReserveFirst(State(), n, consumer, now);
        if E.Stale(q, id) {
          queues := queues[n := q];
          continue;
        }
        var d := Delivery(id, n, consumer, now, now + q.spec.visibilityTimeout);
        var ord := NextSeq();
        visibility := Heaps.Push(visibility, Entry(d.deadline, ord, Addr(n, id)));
        queues := queues[n := E.Deliver(q, d)];
        return Some(q.messages[id]);
      }
      ReserveNothing(State(), n, consumer, now);
      return None;
    }

    static lemma ReserveNothing(s: E.State, n: QName, c: ConsumerId, now: Time)
      requires n !in s.queues || s.queues[n].ready == []
      ensures E.Reserve(s, n, c, now) == (s, None)
    {
    }

    static lemma ReserveFirst(s: E.State, n: QName, c: ConsumerId, now: Time)
      requires n in s.queues && s.queues[n].ready != []
      ensures
        var q := E.PopReady(s.queues[n]);
        var id := s.queues[n].ready[0].item;
        var d := Delivery(id, n, c, now, now + q.spec.visibilityTimeout);
        if E.Stale(q, id) then E.Reserve(s, n, c, now) == E.Reserve(E.SetQueue(s, n, q), n, c, now)
        else
          && id in q.messages
          && E.Reserve(s, n, c, now) ==
             (E.SetQueue(s, n, E.Deliver(q, d)).(
                lastOrd := s.lastOrd + 1,
                visibility := Heaps.Push(s.visibility, Entry(d.deadline, s.lastOrd + 1, Addr(n, id)))),
              Some(q.messages[id]))
    {
      hide Heaps.Push;
    }

    function InflightConsumer(id: Id): (c: Option<ConsumerId>)
      reads this, delayed
      ensures c == E.InflightConsumer(State(), id)
    {
      if id in byId && byId[id] in queues && id in queues[byId[id]].inflight
      then Some(queues[byId[id]].inflight[id].consumer) else None
    }

    method Ack(id: Id, persist: bool) returns (r: E.AckResult)
      modifies `queues, `byId, `recentAcks, `journal
      ensures State() == E.Ack(old(State()), id, persist).0 && r == E.Ack(old(State()), id, persist).1
    {
      hide E.Trim;
      if id in recentAcks {
        return E.AlreadyAcked;
      }
      if id !in byId || byId[id] !in queues || id !in queues[byId[id]].inflight {
        return E.AckNotFound;
      }
      var n := byId[id];
      queues := queues[n := E.Discharge(queues[n], id)];
      byId := byId - {id};
      RememberAck(id);
      if persist {
        Log(MessageAck(id, n), []);
      }
      return E.AckOk;
    }

    method RememberAck(id: Id)
      modifies `recentAcks
      ensures recentAcks == E.Trim(old(recentAcks) + [id], cfg.recentAckLimit)
    {
      recentAcks := recentAcks + [id];
      while |recentAcks| > cfg.recentAckLimit
        invariant E.Trim(recentAcks, cfg.recentAckLimit) == E.Trim(old(recentAcks) + [id], cfg.recentAckLimit)
        decreases |recentAcks|
      {
        recentAcks := recentAcks[1..];
      }
    }

    // ----- retry and dead-lettering -----

    method MoveToDlq(n: QName, m: Message, persist: bool)
      requires n in queues
      modifies `queues, `byId, `lastOrd, `journal
      ensures State() == E.MoveToDlq(old(State()), n, m, persist)
    {
      hide Heaps.Push, E.Declare, IsDlq;
      var keepsDead := queues[n].spec.deadLetter;
      queues := queues[n := E.Bury(queues[n], m.id)];
      byId := byId - {m.id};
      if persist {
        Log(MessageDead(m.id, n, m.attempts), m.payload);
      }
      if !keepsDead {
        return;
      }
      var dn := DlqName(n);
      ghost var before := State();
      DeclareQueue(dn, E.DEFAULT_ARGS.(deadLetter := false), false);
      E.DeclareKeepsQueues(before, dn, E.DEFAULT_ARGS.(deadLetter := false), false);
      var dead := m.(queue := dn, availableAt := None);
      byId := byId[m.id := dn];
      var ord := NextSeq();
      queues := queues[dn := E.Inter(queues[dn], dead, ord)];
    }

    method RetryOrDead(n: QName, m: Message, now: Time, persist: bool)
      requires n in queues
      modifies this, delayed
      ensures delayed == old(delayed)
      ensures State() == E.RetryOrDead(old(State()), n, m, now, persist)
    {
      hide Heaps.Push, E.MoveToDlq, RetryDelay;
      var m1 := m.(attempts := m.attempts + 1);
      if m1.attempts >= m1.maxAttempts {
        MoveToDlq(n, m1, persist);
        return;
      }
      var at := now + RetryDelay(m1.attempts, cfg.backoff, cfg.baseDelay);
      m1 := m1.(availableAt := Some(at));
      var ord := NextSeq();
      delayed.Push(at, ord, Addr(n, m.id));
      queues := queues[n := E.Postpone(queues[n], m1)];
      if persist {
        Log(MessageRetry(m.id, n, at, m1.attempts), []);
      }
    }

    method Nack(id: Id, requeue: bool, now: Time, persist: bool) returns (r: E.NackResult)
      modifies this, delayed
      ensures delayed == old(delayed)
      ensures State() == E.Nack(old(State()), id, requeue, now, persist).0
      ensures r == E.Nack(old(State()), id, requeue, now, persist).1
    {
      hide E.RetryOrDead, E.MoveToDlq;
      if id !in byId {
        return if id in recentAcks then E.NackNotFound else E.UnknownDelivery;
      }
      var n := byId[id];
      if n !in queues {
        return E.NackNotFound;
      }
      if id !in queues[n].inflight {
        return E.UnknownDelivery;
      }
      queues := queues[n := E.TakeBack(queues[n], id)];
      if id !in queues[n].messages {
        return E.NackNotFound;
      }
      var m := queues[n].messages[id];
      queues := queues[n := E.CountNack(queues[n])];
      assert queues == old(queues)[n := queues[n]];
      if persist {
        Log(MessageNack(id, n, requeue), []);
      }
      if requeue {
        RetryOrDead(n, m, now, persist);
      } else {
        MoveToDlq(n, m, persist);
      }
      return E.NackOk;
    }

    method Expire(n: QName, id: Id, now: Time, persist: bool) returns (found: bool)
      requires n in queues
      modifies this, delayed
      ensures delayed == old(delayed)
      ensures State() == E.Expire(old(State()), n, id, now, persist) && found == (id in old(queues)[n].messages)
    {
      hide E.RetryOrDead;
      queues := queues[n := E.TakeBack(queues[n], id)];
      if id !in queues[n].messages {
        return false;
      }
      RetryOrDead(n, queues[n].messages[id], now, persist);
      return true;
    }

    /** recover_consumer. The dictionaries decide in which order queues and deliveries are visited; the
        order taken is returned for the specification, with the queues that were not visited. The loop over
        the queues raises an error once the queue map has grown, after the queue that made it grow. */
    method RecoverConsumer(consumer: ConsumerId, now: Time, persist: bool)
      returns (recovered: nat, raised: bool, ghost todo: seq<Addr>, ghost left: set<QName>)
      modifies this, delayed
      ensures delayed == old(delayed)
      ensures R.TakenBack(old(State()), consumer, todo, left, now, persist)
      ensures State() == E.Recover(old(State()), todo, now, persist)
      ensures recovered == E.RecoverCount(old(State()), todo, now, persist)
      ensures raised <==> R.Grows(old(State()), todo, now, persist)
      ensures R.DlqsPresent(old(State())) ==> !raised
    {
      hide E.Recover, E.RecoverCount, Progress, R.DlqsPresent, R.TakenBack, R.GrownByLast;
      recovered, raised, todo := 0, false, [];
      RecoverNone(State(), now, persist);
      ghost var s0 := State();
      var names := queues.Keys;
      var size := |queues|;
      NoProgress(s0, consumer);
      while names != {}
        invariant delayed == old(delayed) && !raised
        invariant names <= s0.queues.Keys == queues.Keys
        invariant Progress(s0, todo, names, consumer) && forall a :: a in todo ==> a.queue in s0.queues
        invariant State() == E.Recover(s0, todo, now, persist) && recovered == E.RecoverCount(s0, todo, now, persist)
        invariant forall n :: n in names ==> queues[n].inflight == s0.queues[n].inflight
        decreases |names|
      {
        var n :| n in names;
        assert names == names - {n} + {n};
        names := names - {n};
        ghost var before := todo;
        var more;
        more, todo := RecoverQueue(n, consumer, now, persist, s0, todo, names);
        recovered := recovered + more;
        if |queues| != size {
          GrownHere(s0, before, todo, n, now, persist);
          NoGrowth(s0, todo, now, persist);
          Visited(s0, todo, names, consumer, now, persist);
          return recovered, true, todo, names;
        }
        SameSize(s0.queues.Keys, queues.Keys);
      }
      NotGrown(s0, todo, now, persist);
      Visited(s0, todo, {}, consumer, now, persist);
      return recovered, false, todo, {};
    }

    static lemma SameSize(a: set<QName>, b: set<QName>)
      requires a <= b && |a| == |b|
      ensures a == b
    {
      if a != b {
        var x :| x in b && x !in a;
        assert a <= b - {x};
        assert |a| <= |b - {x}| by {
          Fewer(a, b - {x});
        }
      }
    }

    static lemma Fewer(a: set<QName>, b: set<QName>)
      requires a <= b
      ensures |a| <= |b|
    {
      assert b == a + (b - a);
    }

    static lemma NoProgress(s0: E.State, consumer: ConsumerId)
      ensures Progress(s0, [], s0.queues.Keys, consumer)
    {
    }

    static lemma Visited(s0: E.State, todo: seq<Addr>, left: set<QName>, consumer: ConsumerId, now: Time, persist: bool)
      requires Progress(s0, todo, left, consumer) && R.GrownByLast(s0, todo, now, persist)
      requires left == {} || R.Grows(s0, todo, now, persist)
      ensures R.TakenBack(s0, consumer, todo, left, now, persist)
    {
      hide R.Grows, R.GrownByLast;
    }

    static lemma GrownHere(s0: E.State, before: seq<Addr>, todo: seq<Addr>, n: QName, now: Time, persist: bool)
      requires (forall a :: a in todo ==> a.queue in s0.queues) && before <= todo
      requires E.Recover(s0, before, now, persist).queues.Keys == s0.queues.Keys
      requires forall i :: |before| <= i < |todo| ==> todo[i].queue == n
      ensures R.GrownByLast(s0, todo, now, persist)
    {
      hide E.Recover;
      assert todo[..|before|] == before;
      assert R.OneQueue(todo[|before|..]);
    }

    static lemma NotGrown(s0: E.State, todo: seq<Addr>, now: Time, persist: bool)
      requires forall a :: a in todo ==> a.queue in s0.queues
      requires E.Recover(s0, todo, now, persist).queues.Keys == s0.queues.Keys
      ensures R.GrownByLast(s0, todo, now, persist)
    {
      hide E.Recover;
      assert todo[..|todo|] == todo;
      assert R.OneQueue(todo[|todo|..]);
    }

    /** With all dead-letter queues in place the queue map does not grow. */
    static lemma NoGrowth(s: E.State, todo: seq<Addr>, now: Time, persist: bool)
      requires forall a :: a in todo ==> a.queue in s.queues
      ensures R.DlqsPresent(s) ==> E.Recover(s, todo, now, persist).queues.Keys == s.queues.Keys
      decreases |todo|
    {
      hide E.Expire, R.DlqsPresent;
      if todo != [] && R.DlqsPresent(s) {
        E.ExpireKeepsQueues(s, todo[0].queue, todo[0].id, now, persist);
        ExpireNoGrowth(s, todo[0].queue, todo[0].id, now, persist);
        NoGrowth(E.Expire(s, todo[0].queue, todo[0].id, now, persist), todo[1..], now, persist);
      }
    }

    static lemma ExpireNoGrowth(s: E.State, n: QName, id: Id, now: Time, persist: bool)
      requires R.DlqsPresent(s) && n in s.queues
      ensures E.Expire(s, n, id, now, persist).queues.Keys == s.queues.Keys && R.DlqsPresent(E.Expire(s, n, id, now, persist))
    {
      hide E.MoveToDlq, Heaps.Push, RetryDelay, DlqName, IsDlq;
      var q := E.TakeBack(s.queues[n], id);
      if id in q.messages {
        var m := q.messages[id];
        MoveNoGrowth(E.SetQueue(s, n, q), n, m.(attempts := m.attempts + 1), persist);
      }
    }

    static lemma MoveNoGrowth(s: E.State, n: QName, m: Message, persist: bool)
      requires R.DlqsPresent(s) && n in s.queues
      ensures
        var s' := E.MoveToDlq(s, n, m, persist);
        s'.queues.Keys == s.queues.Keys && forall x :: x in s.queues ==> s'.queues[x].spec == s.queues[x].spec
    {
      hide Heaps.Push, DlqName, IsDlq;
    }

    /** What has been recovered once only the given queues are left. */
    static ghost predicate Progress(s0: E.State, todo: seq<Addr>, names: set<QName>, consumer: ConsumerId) {
      && (forall a :: a in todo ==> a.queue in s0.queues)
      && (forall a :: a in todo <==> R.HeldBy(s0, a.queue, a.id, consumer) && a.queue !in names)
      && (forall i, j :: 0 <= i < j < |todo| ==> todo[i] != todo[j])
    }

    /** What has been recovered in the middle of a queue, once only the given deliveries are left. */
    static ghost predicate QueueProgress(s0: E.State, todo: seq<Addr>, names: set<QName>, n: QName, ids: set<Id>,
                                         consumer: ConsumerId) {
      && (forall a :: a in todo ==> a.queue in s0.queues)
      && (forall id :: id in ids ==> R.HeldBy(s0, n, id, consumer))
      && (forall a :: a in todo <==>
            R.HeldBy(s0, a.queue, a.id, consumer) && a.queue !in names && !(a.queue == n && a.id in ids))
      && (forall i, j :: 0 <= i < j < |todo| ==> todo[i] != todo[j])
    }

    method RecoverQueue(n: QName, consumer: ConsumerId, now: Time, persist: bool, ghost s0: E.State, ghost before: seq<Addr>,
                        ghost names: set<QName>)
      returns (recovered: nat, ghost todo: seq<Addr>)
      requires n in s0.queues && n in queues && queues[n].inflight == s0.queues[n].inflight
      requires n !in names && Progress(s0, before, names + {n}, consumer)
      requires State() == E.Recover(s0, before, now, persist)
      modifies this, delayed
      ensures delayed == old(delayed)
      ensures Progress(s0, todo, names, consumer) && State() == E.Recover(s0, todo, now, persist)
      ensures E.RecoverCount(s0, todo, now, persist) == E.RecoverCount(s0, before, now, persist) + recovered
      ensures before <= todo && forall i :: |before| <= i < |todo| ==> todo[i].queue == n
      ensures forall x :: x in old(queues) && x != n ==> x in queues && queues[x].inflight == old(queues)[x].inflight
      ensures old(queues).Keys <= queues.Keys
    {
      hide E.Recover, E.RecoverCount, E.Expire, Progress, QueueProgress;
      recovered, todo := 0, before;
      var held := queues[n].inflight;
      var ids := set id | id in held && held[id].consumer == consumer;
      ProgressInto(s0, todo, names, n, ids, consumer);
      while ids != {}
        invariant delayed == old(delayed)
        invariant QueueProgress(s0, todo, names, n, ids, consumer) && forall a :: a in todo ==> a.queue in s0.queues
        invariant State() == E.Recover(s0, todo, now, persist)
        invariant E.RecoverCount(s0, todo, now, persist) == E.RecoverCount(s0, before, now, persist) + recovered
        invariant before <= todo && forall i :: |before| <= i < |todo| ==> todo[i].queue == n
        invariant old(queues).Keys <= queues.Keys
        invariant forall x :: x in old(queues) && x != n ==> queues[x].inflight == old(queues)[x].inflight
        decreases |ids|
      {
        var id :| id in ids;
        ProgressOne(s0, todo, names, n, ids, id, consumer);
        ids := ids - {id};
        RecoverLast(s0, todo, Addr(n, id), now, persist);
        ExpireDeliveries(State(), n, id, now, persist);
        var found := Expire(n, id, now, persist);
        todo := todo + [Addr(n, id)];
        if found {
          recovered := recovered + 1;
        }
      }
      ProgressOut(s0, todo, names, n, consumer);
    }

    static lemma ProgressInto(s0: E.State, todo: seq<Addr>, names: set<QName>, n: QName, ids: set<Id>, consumer: ConsumerId)
      requires n in s0.queues && n !in names && Progress(s0, todo, names + {n}, consumer)
      requires ids == set id | id in s0.queues[n].inflight && s0.queues[n].inflight[id].consumer == consumer
      ensures QueueProgress(s0, todo, names, n, ids, consumer) && forall a :: a in todo ==> a.queue in s0.queues
    {
    }

    static lemma ProgressOne(s0: E.State, todo: seq<Addr>, names: set<QName>, n: QName, ids: set<Id>, id: Id,
                             consumer: ConsumerId)
      requires n in s0.queues && n !in names && id in ids && QueueProgress(s0, todo, names, n, ids, consumer)
      ensures forall a :: a in todo ==> a.queue in s0.queues
      ensures QueueProgress(s0, todo + [Addr(n, id)], names, n, ids - {id}, consumer)
    {
    }

    static lemma ProgressOut(s0: E.State, todo: seq<Addr>, names: set<QName>, n: QName, consumer: ConsumerId)
      requires QueueProgress(s0, todo, names, n, {}, consumer)
      ensures Progress(s0, todo, names, consumer)
    {
    }

    static lemma RecoverNone(s: E.State, now: Time, persist: bool)
      ensures E.Recover(s, [], now, persist) == s && E.RecoverCount(s, [], now, persist) == 0
    {
    }

    static lemma RecoverLast(s: E.State, todo: seq<Addr>, a: Addr, now: Time, persist: bool)
      requires a.queue in s.queues && forall b :: b in todo ==> b.queue in s.queues
      ensures s.queues.Keys <= E.Recover(s, todo, now, persist).queues.Keys
      ensures E.Recover(s, todo + [a], now, persist) == E.Expire(E.Recover(s, todo, now, persist), a.queue, a.id, now, persist)
      ensures E.RecoverCount(s, todo + [a], now, persist) ==
              E.RecoverCount(s, todo, now, persist)
              + if a.id in E.Recover(s, todo, now, persist).queues[a.queue].messages then 1 else 0
      decreases |todo|
    {
      hide E.Expire;
      if todo == [] {
        RecoverNone(E.Expire(s, a.queue, a.id, now, persist), now, persist);
        assert (todo + [a])[1..] == [];
      } else {
        E.ExpireKeepsQueues(s, todo[0].queue, todo[0].id, now, persist);
        assert (todo + [a])[1..] == todo[1..] + [a];
        RecoverLast(E.Expire(s, todo[0].queue, todo[0].id, now, persist), todo[1..], a, now, persist);
      }
    }

    /** Taking one delivery back leaves all others alone. */
    static lemma ExpireDeliveries(s: E.State, n: QName, id: Id, now: Time, persist: bool)
      requires n in s.queues
      ensures
        var s' := E.Expire(s, n, id, now, persist);
        && s.queues.Keys <= s'.queues.Keys
        && forall x :: x in s.queues && x != n ==> s'.queues[x].inflight == s.queues[x].inflight
    {
      hide E.RetryOrDead;
      var q := E.TakeBack(s.queues[n], id);
      var s1 := E.SetQueue(s, n, q);
      E.ExpireKeepsQueues(s, n, id, now, persist);
      if id in q.messages {
        O.RetryOrDeadFrame(s1, n, q.messages[id], now, persist);
      }
    }
  
    // ----- time -----

    method Tick(ts: Time, now: Time) returns (n: nat)
      modifies this, delayed
      ensures delayed == old(delayed)
      ensures State() == E.Tick(old(State()), ts, now) && n == E.TickCount(old(State()), ts, now)
    {
      hide E.ReleaseAll, E.ReleaseCount, E.TimeoutInflight, E.TimeoutCount, E.PopDue;
      n := ReleaseDelayed(ts);
      var m := TimeoutInflight(ts, now);
      n := n + m;
    }

    method ReleaseDelayed(ts: Time) returns (n: nat)
      modifies this, delayed
      ensures delayed == old(delayed)
      ensures State() == E.ReleaseDelayed(old(State()), ts)
      ensures
        var (due, rest) := E.PopDue(old(delayed.heap), ts);
        n == E.ReleaseCount(old(State()).(delayed := rest), due)
    {
      hide E.PopDue, E.ReleaseAll, E.ReleaseCount;
      n := 0;
      var due := delayed.PopDue(ts);
      ghost var s := State();
      var i := 0;
      assert due[i..] == due;
      while i < |due|
        invariant 0 <= i <= |due| && delayed == old(delayed)
        invariant E.ReleaseAll(State(), due[i..]) == E.ReleaseAll(s, due)
        invariant n + E.ReleaseCount(State(), due[i..]) == E.ReleaseCount(s, due)
      {
        ReleaseNext(State(), due[i..]);
        assert due[i..][1..] == due[i + 1..];
        var released := Release(due[i]);
        if released {
          n := n + 1;
        }
        i := i + 1;
      }
      ReleaseNext(State(), due[i..]);
    }

    static lemma ReleaseNext(s: E.State, due: seq<Addr>)
      ensures E.ReleaseAll(s, due) == if due == [] then s else E.ReleaseAll(E.ReleaseOne(s, due[0]), due[1..])
      ensures E.ReleaseCount(s, due) ==
              if due == [] then 0
              else (if E.Releasable(s, due[0]) then 1 else 0) + E.ReleaseCount(E.ReleaseOne(s, due[0]), due[1..])
    {
      hide E.ReleaseOne, E.Releasable;
    }

    method Release(a: Addr) returns (released: bool)
      modifies `queues, `lastOrd
      ensures State() == E.ReleaseOne(old(State()), a) && released == E.Releasable(old(State()), a)
    {
      hide Heaps.Push;
      if a.queue !in queues || a.id !in queues[a.queue].delayedIds {
        return false;
      }
      var q := E.Undelay(queues[a.queue], a.id);
      queues := queues[a.queue := q];
      if a.id !in q.messages || a.id in q.inflight {
        return false;
      }
      var m := q.messages[a.id].(availableAt := None);
      var ord := NextSeq();
      queues := queues[a.queue := E.Mature(q, m, ord)];
      assert queues == old(queues)[a.queue := E.Mature(q, m, ord)];
      return true;
    }

    method TimeoutInflight(ts: Time, now: Time) returns (n: nat)
      modifies this, delayed
      ensures delayed == old(delayed)
      ensures State() == E.TimeoutInflight(old(State()), ts, now) && n == E.TimeoutCount(old(State()), ts, now)
    {
      hide E.Expire, E.TimeoutInflight, E.TimeoutCount, E.Current;
      n := 0;
      while visibility != [] && visibility[0].key <= ts
        invariant delayed == old(delayed)
        invariant E.TimeoutInflight(State(), ts, now) == E.TimeoutInflight(old(State()), ts, now)
        invariant n + E.TimeoutCount(State(), ts, now) == E.TimeoutCount(old(State()), ts, now)
        decreases |visibility|
      {
        var e := visibility[0];
        TimeoutNext(State(), ts, now);
        visibility := visibility[1..];
        E.TimeoutKeepsHeap(State(), e, now);
        if IsCurrent(e) {
          CurrentQueue(State(), e);
          var found := Expire(e.item.queue, e.item.id, now, true);
          if found {
            n := n + 1;
          }
        }
      }
      TimeoutNext(State(), ts, now);
    }

    function IsCurrent(e: Entry<Addr>): (b: bool)
      reads this, delayed
      ensures b == E.Current(State(), e)
    {
      && e.item.queue in queues
      && e.item.id in queues[e.item.queue].inflight
      && queues[e.item.queue].inflight[e.item.id].deadline == e.key
    }

    static lemma CurrentQueue(s: E.State, e: Entry<Addr>)
      requires E.Current(s, e)
      ensures e.item.queue in s.queues
    {
    }

    static lemma TimeoutNext(s: E.State, ts: Time, now: Time)
      ensures E.TimeoutInflight(s, ts, now) ==
              if s.visibility == [] || s.visibility[0].key > ts then s
              else E.TimeoutInflight(E.TimeoutOne(s.(visibility := s.visibility[1..]), s.visibility[0], now), ts, now)
      ensures E.TimeoutCount(s, ts, now) ==
              if s.visibility == [] || s.visibility[0].key > ts then 0
              else
                var (s1, e) := (s.(visibility := s.visibility[1..]), s.visibility[0]);
                (if E.Current(s1, e) && e.item.id in s1.queues[e.item.queue].messages then 1 else 0)
                + E.TimeoutCount(E.TimeoutOne(s1, e, now), ts, now)
    {
      hide E.TimeoutOne;
      if s.visibility != [] {
        E.TimeoutKeepsHeap(s.(visibility := s.visibility[1..]), s.visibility[0], now);
      }
    }

    // ----- dead letters going back -----

    method DlqRequeue(name: QName, id: Id, now: Time, persist: bool) returns (ok: bool)
      modifies this, delayed
      ensures delayed == old(delayed)
      ensures State() == E.DlqRequeue(old(State()), name, id, now, persist).0
      ensures ok == E.DlqRequeue(old(State()), name, id, now, persist).1
    {
      hide Heaps.Push, Heaps.Drop, E.Without, E.Enqueue, E.Withdraw, E.Mature, E.Revived, IsDlq;
      var origin := OriginQueue(name);
      var dn := DlqName(origin);
      if dn !in queues || origin !in queues || id !in queues[dn].messages {
        return false;
      }
      var m := E.Revived(queues[dn].messages[id], origin);
      queues := queues[dn := E.Withdraw(queues[dn], id)];
      byId := byId - {id};
      ghost var s1 := State();
      var r := Enqueue(m, now, false);
      EnqueueQueues(s1, m, now);
      if r != E.EnqueueOk {
        byId := byId[id := dn];
        var ord := NextSeq();
        queues := queues[dn := E.Mature(queues[dn], m.(queue := dn), ord)];
        return false;
      }
      if persist {
        Log(MessageRequeue(id, dn, origin), []);
      }
      return true;
    }

    static lemma EnqueueQueues(s: E.State, m: Message, now: Time)
      ensures s.queues.Keys <= E.Enqueue(s, m, now, false).0.queues.Keys
    {
      hide Heaps.Push, E.Later, E.Stored, E.Full;
    }
  
    // ----- saving and restoring -----

    /** snapshot_state. The dictionaries decide in which order queues and messages are listed. */
    method SnapshotState() returns (saved: S.Saved)
      requires I.IndexOk(State())
      ensures S.IsSnapshot(State(), saved)
    {
      hide I.QueueIndexOk, S.Describes, S.Named, S.DistinctNames;
      var list: seq<S.SavedQueue> := [];
      NoneNamed();
      var names := queues.Keys;
      while names != {}
        invariant names <= queues.Keys && S.DistinctNames(list)
        invariant forall n :: S.Named(list, n) <==> n in queues && n !in names
        invariant forall sq :: sq in list ==> sq.spec.name in queues && S.Describes(queues[sq.spec.name], sq)
        decreases |names|
      {
        var n :| n in names;
        names := names - {n};
        QueueFacts(State(), n);
        var sq := SaveQueue(queues[n]);
        DescribedSpec(queues[n], sq);
        NamedMore(list, sq);
        list := list + [sq];
      }
      return S.Saved(list, lastOrd);
    }

    static method SaveQueue(q: E.Queue) returns (sq: S.SavedQueue)
      requires forall id :: id in q.messages ==> q.messages[id].id == id
      ensures S.Describes(q, sq)
    {
      hide S.InList, S.DistinctIds;
      var list: seq<S.SavedMessage> := [];
      NoneListed();
      var ids := q.messages.Keys;
      while ids != {}
        invariant ids <= q.messages.Keys && S.DistinctIds(list)
        invariant forall id :: S.InList(list, id) <==> id in q.messages && id !in ids
        invariant forall sm :: sm in list ==>
          sm.message.id in q.messages && sm.message == q.messages[sm.message.id] && sm.state == S.NameOf(q, sm.message.id)
        decreases |ids|
      {
        var id :| id in ids;
        ids := ids - {id};
        var sm := S.SavedMessage(q.messages[id], S.NameOf(q, id));
        ListedMore(list, sm);
        list := list + [sm];
      }
      return S.SavedQueue(q.spec, list, q.stats);
    }

    static lemma NoneNamed()
      ensures S.DistinctNames([]) && forall n :: !S.Named([], n)
    {
    }

    static lemma NoneListed()
      ensures S.DistinctIds([]) && forall id :: !S.InList([], id)
    {
    }

    static lemma NamedMore(list: seq<S.SavedQueue>, sq: S.SavedQueue)
      requires S.DistinctNames(list) && !S.Named(list, sq.spec.name)
      ensures S.DistinctNames(list + [sq])
      ensures forall n :: S.Named(list + [sq], n) <==> S.Named(list, n) || n == sq.spec.name
    {
      forall i | 0 <= i < |list|
        ensures list[i].spec.name != sq.spec.name
      {
        assert list[i] in list;
      }
      assert sq in list + [sq];
    }

    static lemma ListedMore(list: seq<S.SavedMessage>, sm: S.SavedMessage)
      requires S.DistinctIds(list) && !S.InList(list, sm.message.id)
      ensures S.DistinctIds(list + [sm])
      ensures forall id :: S.InList(list + [sm], id) <==> S.InList(list, id) || id == sm.message.id
    {
      forall i | 0 <= i < |list|
        ensures list[i].message.id != sm.message.id
      {
        assert list[i] in list;
      }
      assert sm in list + [sm];
    }

    static lemma QueueFacts(s: E.State, n: QName)
      requires I.IndexOk(s) && n in s.queues
      ensures s.queues[n].spec.name == n && forall id :: id in s.queues[n].messages ==> s.queues[n].messages[id].id == id
    {
      assert I.QueueIndexOk(s.byId, n, s.queues[n]);
    }

    static lemma DescribedSpec(q: E.Queue, sq: S.SavedQueue)
      requires S.Describes(q, sq)
      ensures sq.spec == q.spec
    {
      hide S.InList, S.DistinctIds;
    }

    method RestoreState(saved: S.Saved, now: Time)
      modifies this
      ensures fresh(delayed)
      ensures State() == S.Restore(old(State()), saved, now)
    {
      hide S.RestoreQueues, S.RestoreQueue;
      queues, byId, visibility, lastOrd := map[], map[], [], saved.lastOrd;
      delayed := new DelayedHeap();
      ghost var s := State();
      var i := 0;
      assert saved.queues[i..] == saved.queues;
      while i < |saved.queues|
        invariant 0 <= i <= |saved.queues| && fresh(delayed)
        invariant S.RestoreQueues(State(), saved.queues[i..], now) == S.RestoreQueues(s, saved.queues, now)
      {
        RestoreNext(State(), saved.queues[i..], now);
        assert saved.queues[i..][1..] == saved.queues[i + 1..];
        RestoreQueue(saved.queues[i], now);
        i := i + 1;
      }
      RestoreNext(State(), saved.queues[i..], now);
    }

    static lemma RestoreNext(s: E.State, list: seq<S.SavedQueue>, now: Time)
      ensures S.RestoreQueues(s, list, now) ==
              if list == [] then s else S.RestoreQueues(S.RestoreQueue(s, list[0], now), list[1..], now)
    {
      hide S.RestoreQueue;
    }

    method RestoreQueue(sq: S.SavedQueue, now: Time)
      modifies this, delayed
      ensures delayed == old(delayed)
      ensures State() == S.RestoreQueue(old(State()), sq, now)
    {
      hide S.RestoreMessages, S.RestoreMessage;
      var n := sq.spec.name;
      queues := queues[n := E.NewQueue(sq.spec).(stats := sq.stats)];
      ghost var s := State();
      var i := 0;
      assert sq.messages[i..] == sq.messages;
      while i < |sq.messages|
        invariant 0 <= i <= |sq.messages| && delayed == old(delayed) && n in queues
        invariant S.RestoreMessages(State(), n, sq.messages[i..], now) == S.RestoreMessages(s, n, sq.messages, now)
      {
        RestoreNextMessage(State(), n, sq.messages[i..], now);
        assert sq.messages[i..][1..] == sq.messages[i + 1..];
        RestoreOne(n, sq.messages[i], now);
        i := i + 1;
      }
      RestoreNextMessage(State(), n, sq.messages[i..], now);
    }

    static lemma RestoreNextMessage(s: E.State, n: QName, list: seq<S.SavedMessage>, now: Time)
      requires n in s.queues
      ensures S.RestoreMessages(s, n, list, now) ==
              if list == [] then s else S.RestoreMessages(S.RestoreMessage(s, n, list[0], now), n, list[1..], now)
    {
      hide Heaps.Push;
    }

    method RestoreOne(n: QName, sm: S.SavedMessage, now: Time)
      requires n in queues
      modifies this, delayed
      ensures delayed == old(delayed) && n in queues
      ensures State() == S.RestoreMessage(old(State()), n, sm, now)
    {
      hide Heaps.Push;
      var m := sm.message;
      var q := queues[n];
      q := q.(messages := q.messages[m.id := m]);
      byId := byId[m.id := m.queue];
      if sm.state == S.DELAYED {
        q := q.(delayedIds := q.delayedIds + {m.id});
        var ord := NextSeq();
        delayed.Push(S.DueOrNow(m.availableAt, now), ord, Addr(m.queue, m.id));
      } else {
        var ord := NextSeq();
        q := q.(ready := Heaps.Push(q.ready, E.ReadyEntry(m, ord)));
      }
      queues := queues[n := q];
    }
  }
}
