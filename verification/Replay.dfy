/** Replaying journal records into an engine, and what live operations write to the journal. */
module Replay {
  import opened Types
  import opened DlqNames
  import opened Heaps
  import opened Backoffs
  import opened Journal
  import opened Engine
  import opened Index
  import opened InvariantOps
  import opened Ticks
  import opened Runs

  /** apply_record, as far as the engine is concerned; exchanges and bindings do not hold messages. */
  function Apply(s: State, rec: Rec, now: Time): State {
    match rec.meta
    case QueueDeclare(n, durable, maxLength, visibilityTimeout, maxAttempts, deadLetter) =>
      Declare(s, n, DeclareArgs(durable, maxLength, Some(visibilityTimeout), Some(maxAttempts), deadLetter), false)
    case QueueDelete(n) => Delete(s, n, false).0
    case Bind(_, q, _) => Declare(s, q, DEFAULT_ARGS, false)
    case MessagePublish(id, q, attempts, maxAttempts, priority, availableAt, info) =>
      var s1 := Declare(s, q, DEFAULT_ARGS, false);
      if id in s1.byId then s1
      else Enqueue(s1, Message(id, q, rec.payload, attempts, maxAttempts, priority, availableAt, info), now, false).0
    case MessageAck(id, _) => Ack(s, id, false).0
    case MessageNack(id, _, requeue) => Nack(s, id, requeue, now, false).0
    case MessageRequeue(id, _, target) => DlqRequeue(s, target, id, now, false).0
    case _ => s
  }

  function ReplayAll(s: State, recs: seq<Rec>, clock: seq<Time>): State
    requires |clock| == |recs|
    decreases |recs|
  {
    if recs == [] then s else ReplayAll(Apply(s, recs[0], clock[0]), recs[1..], clock[1..])
  }

  lemma ReplayConcat(s: State, a: seq<Rec>, b: seq<Rec>, clock: seq<Time>)
    requires |clock| == |a| + |b|
    ensures ReplayAll(s, a + b, clock) == ReplayAll(ReplayAll(s, a, clock[..|a|]), b, clock[|a|..])
    decreases |a|
  {
    hide Apply;
    if a == [] {
      assert a + b == b && clock[|a|..] == clock;
    } else {
      assert (a + b)[1..] == a[1..] + b;
      ReplayConcat(Apply(s, a[0], clock[0]), a[1..], b, clock[1..]);
      assert clock[1..][..|a[1..]|] == clock[..|a|][1..];
      assert clock[1..][|a[1..]|..] == clock[|a|..];
    }
  }

  /** The message stored under an id. */
  function Letter(s: State, id: Id): Option<Message> {
    if id in s.byId && Holds(s, s.byId[id], id) then Some(s.queues[s.byId[id]].messages[id]) else None
  }

  /** What is never rewritten while a message lives. */
  predicate SameLetter(m: Message, m': Message) {
    && m'.id == m.id && m'.payload == m.payload && m'.maxAttempts == m.maxAttempts
    && m'.priority == m.priority && m'.info == m.info
  }

  /** Records that change nothing in an engine without deliveries. */
  predicate Quiet(meta: Meta) {
    meta.MessageAck? || meta.MessageNack? || meta.MessageRetry? || meta.MessageDead?
  }

  ghost predicate QuietGrowth(j: seq<Rec>, j': seq<Rec>) {
    j <= j' && forall i :: |j| <= i < |j'| ==> Quiet(j'[i].meta)
  }

  /** Queues stay, with their specifications; new ones are dead-letter queues of the default length. */
  ghost predicate SameNames(queues: map<QName, Queue>, queues': map<QName, Queue>, limit: Option<int>) {
    && (forall n :: n in queues ==> n in queues' && queues'[n].spec == queues[n].spec)
    && (forall n :: n in queues' && n !in queues ==> IsDlq(n) && queues'[n].spec.maxLength == limit)
  }

  /** A message is kept in its queue, moved to that queue's dead-letter queue, or gone. */
  predicate Decay(queues: map<QName, Queue>, o: Option<Message>, o': Option<Message>) {
    o' == None ||
    (o.Some? && SameLetter(o.value, o'.value) &&
     (o'.value.queue == o.value.queue ||
      (o.value.queue in queues && queues[o.value.queue].spec.deadLetter && o'.value.queue == DlqName(o.value.queue))))
  }

  /** What reserving, settling, retrying and the passing of time can do, and what they journal. */
  ghost predicate Wane(s: State, s': State) {
    && SameNames(s.queues, s'.queues, s.cfg.maxLength)
    && s'.cfg == s.cfg
    && QuietGrowth(s.journal, s'.journal)
    && forall id :: Decay(s.queues, Letter(s, id), Letter(s', id))
  }

  lemma WaneItself(s: State)
    ensures Wane(s, s)
  {
    hide Letter, DlqName, IsDlq;
  }

  lemma WaneTrans(a: State, b: State, c: State)
    requires Wane(a, b) && Wane(b, c) && IndexOk(b)
    ensures Wane(a, c)
  {
    hide Letter, IsDlq, SameLetter, QuietGrowth, SameNames, TablesAgree;
    QuietTrans(a.journal, b.journal, c.journal);
    NamesTrans(a.queues, b.queues, c.queues, a.cfg.maxLength);
    forall id
      ensures Decay(a.queues, Letter(a, id), Letter(c, id))
    {
      DecayTrans(a, b, Letter(a, id), Letter(b, id), Letter(c, id));
    }
  }

  lemma QuietTrans(a: seq<Rec>, b: seq<Rec>, c: seq<Rec>)
    requires QuietGrowth(a, b) && QuietGrowth(b, c)
    ensures QuietGrowth(a, c)
  {
    hide Quiet;
  }

  lemma NamesTrans(a: map<QName, Queue>, b: map<QName, Queue>, c: map<QName, Queue>, limit: Option<int>)
    requires SameNames(a, b, limit) && SameNames(b, c, limit)
    ensures SameNames(a, c, limit)
  {
    hide IsDlq;
  }

  lemma DecayTrans(a: State, b: State, o: Option<Message>, o': Option<Message>, o'': Option<Message>)
    requires SameNames(a.queues, b.queues, a.cfg.maxLength) && IndexOk(b)
    requires Decay(a.queues, o, o') && Decay(b.queues, o', o'')
    ensures Decay(a.queues, o, o'')
  {
    hide TablesAgree;
    if o''.Some? && o'.Some? && o'.value.queue in b.queues {
      SpecIndex(b, o'.value.queue);
    }
  }

  // ----- letters, by the index alone -----

  ghost predicate SameLetters(s: State, s': State, id: Id) {
    forall x :: x != id ==> Letter(s', x) == Letter(s, x)
  }

  lemma SetLetters(s: State, s': State, n: QName, id: Id)
    requires IndexOk(s) && n in s.queues && s.queues.Keys <= s'.queues.Keys
    requires forall n' :: n' in s.queues && n' != n ==> s'.queues[n'] == s.queues[n']
    requires s'.queues[n].messages - {id} == s.queues[n].messages - {id} && s'.byId - {id} == s.byId - {id}
    ensures SameLetters(s, s', id)
  {
    hide QueueIndexOk;
    forall x | x != id
      ensures Letter(s', x) == Letter(s, x)
    {
      if x in s.byId {
        assert x in s'.byId - {id} && (s'.byId - {id})[x] == (s.byId - {id})[x];
        if s.byId[x] == n {
          assert x in s.queues[n].messages - {id};
          assert x in s'.queues[n].messages - {id};
          assert (s'.queues[n].messages - {id})[x] == (s.queues[n].messages - {id})[x];
        }
      } else {
        assert x !in s'.byId - {id};
      }
    }
  }

  lemma LettersTrans(a: State, b: State, c: State, id: Id)
    requires SameLetters(a, b, id) && SameLetters(b, c, id)
    ensures SameLetters(a, c, id)
  {
    hide Letter;
  }

  /** One message changed, everything else is the same. */
  lemma OneWane(s: State, s': State, id: Id)
    requires SameLetters(s, s', id) && Decay(s.queues, Letter(s, id), Letter(s', id))
    requires SameNames(s.queues, s'.queues, s.cfg.maxLength) && s'.cfg == s.cfg && QuietGrowth(s.journal, s'.journal)
    ensures Wane(s, s')
  {
    hide Letter, SameNames, QuietGrowth, IsDlq, DlqName;
    forall x
      ensures Decay(s.queues, Letter(s, x), Letter(s', x))
    {
    }
  }

  lemma LetterAt(s: State, n: QName, id: Id)
    requires IndexOk(s) && Holds(s, n, id)
    ensures Letter(s, id) == Some(s.queues[n].messages[id])
    ensures s.queues[n].messages[id].id == id && s.queues[n].messages[id].queue == n
  {
    hide TablesAgree, IsDlq;
    IndexAt(s, n, id);
  }

  lemma LetterQueue(s: State, id: Id)
    requires IndexOk(s)
    ensures Letter(s, id).Some? <==> id in s.byId
    ensures Letter(s, id).Some? ==>
      && Letter(s, id).value.queue == s.byId[id] && Letter(s, id).value.id == id
      && s.byId[id] in s.queues && Holds(s, s.byId[id], id)
  {
    hide IsDlq;
  }

  /** Same messages, same index. */
  lemma SameTablesWane(s: State, s': State)
    requires s'.byId == s.byId && s'.cfg == s.cfg && QuietGrowth(s.journal, s'.journal)
    requires s'.queues.Keys == s.queues.Keys
    requires forall n :: n in s.queues ==> s'.queues[n].spec == s.queues[n].spec && s'.queues[n].messages == s.queues[n].messages
    ensures Wane(s, s')
  {
    hide QuietGrowth, IsDlq, DlqName;
  }

  lemma ReserveWane(s: State, n: QName, c: ConsumerId, now: Time)
    ensures Wane(s, Reserve(s, n, c, now).0)
  {
    ReserveTables(s, n, c, now);
    hide Reserve, Wane;
    SameTablesWane(s, Reserve(s, n, c, now).0);
  }

  lemma ReserveTables(s: State, n: QName, c: ConsumerId, now: Time)
    ensures
      var s' := Reserve(s, n, c, now).0;
      && s'.byId == s.byId && s'.cfg == s.cfg && s'.journal == s.journal && s'.queues.Keys == s.queues.Keys
      && forall n :: n in s.queues ==> s'.queues[n].spec == s.queues[n].spec && s'.queues[n].messages == s.queues[n].messages
    decreases if n in s.queues then |s.queues[n].ready| else 0
  {
    hide Push;
    if n in s.queues && s.queues[n].ready != [] {
      var q := PopReady(s.queues[n]);
      if Stale(q, s.queues[n].ready[0].item) {
        ReserveTables(SetQueue(s, n, q), n, c, now);
      }
    }
  }

  lemma OneMoreQuiet(j: seq<Rec>, rec: Rec, persist: bool)
    requires Quiet(rec.meta)
    ensures QuietGrowth(j, if persist then j + [rec] else j)
  {
  }

  lemma AckWane(s: State, id: Id, persist: bool)
    requires IndexOk(s)
    ensures Wane(s, Ack(s, id, persist).0)
  {
    hide TablesAgree, Wane, Letter, SameLetters, QuietGrowth, IsDlq, DlqName, Trim;
    if id !in s.recentAcks && InFlight(s, id) {
      var n := s.byId[id];
      var s' := Ack(s, id, persist).0;
      SetLetters(s, s', n, id);
      GoneLetter(s', id);
      OneMoreQuiet(s.journal, Rec(MessageAck(id, n), []), persist);
      OneWane(s, s', id);
    } else {
      WaneItself(s);
    }
  }

  lemma GoneLetter(s: State, id: Id)
    requires id !in s.byId
    ensures Letter(s, id) == None
  {
  }

  lemma DlqDeclare(s: State, dn: QName, a: DeclareArgs)
    requires IsDlq(dn) && a.maxLength == None
    ensures
      var s' := Declare(s, dn, a, false);
      && dn in s'.queues && s'.byId == s.byId && s'.journal == s.journal && s'.cfg == s.cfg
      && SameNames(s.queues, s'.queues, s.cfg.maxLength)
      && (forall n :: n in s.queues ==> s'.queues[n] == s.queues[n])
      && (dn !in s.queues ==> s'.queues[dn].messages == map[] && !s'.queues[dn].spec.deadLetter)
  {
    hide IsDlq;
  }

  lemma RemoveLetters(s: State, n: QName, m: Message, persist: bool)
    requires IndexOk(s) && Holds(s, n, m.id)
    ensures
      var s' := Remove(s, n, m, persist);
      && IndexOk(s') && SameLetters(s, s', m.id) && Letter(s', m.id) == None && m.id !in s'.byId
      && SameNames(s.queues, s'.queues, s.cfg.maxLength) && s'.cfg == s.cfg && QuietGrowth(s.journal, s'.journal)
  {
    hide TablesAgree, Letter, SameLetters, QuietGrowth, IsDlq;
    var s' := Remove(s, n, m, persist);
    RemoveIndex(s, n, m.id, Bury(s.queues[n], m.id));
    SetLetters(s, s', n, m.id);
    GoneLetter(s', m.id);
    OneMoreQuiet(s.journal, Rec(MessageDead(m.id, n, m.attempts), m.payload), persist);
  }

  lemma LayLetters(s: State, m: Message)
    requires IndexOk(s) && m.queue in s.queues && m.id !in s.byId
    ensures SameLetters(s, Lay(s, m), m.id) && Letter(Lay(s, m), m.id) == Some(m)
    ensures SameNames(s.queues, Lay(s, m).queues, s.cfg.maxLength) && Lay(s, m).cfg == s.cfg && Lay(s, m).journal == s.journal
  {
    hide TablesAgree, SameLetters, IsDlq, Push;
    FreshInQueue(s, m.queue, m.id);
    SetLetters(s, Lay(s, m), m.queue, m.id);
  }

  lemma DlqDeclareLetters(s: State, dn: QName, a: DeclareArgs, id: Id)
    requires IndexOk(s) && IsDlq(dn) && a.maxLength == None
    ensures SameLetters(s, Declare(s, dn, a, false), id)
  {
    hide Declare, IsDlq, QueueIndexOk;
    DlqDeclare(s, dn, a);
  }

  lemma MoveToDlqWane(s: State, n: QName, m: Message, persist: bool)
    requires IndexOk(s) && Holds(s, n, m.id) && SameLetter(s.queues[n].messages[m.id], m)
    ensures Wane(s, MoveToDlq(s, n, m, persist))
  {
    hide TablesAgree, Wane, Letter, SameLetters, QuietGrowth, IsDlq, SameNames, Remove, Declare, Lay;
    var s1 := Remove(s, n, m, persist);
    RemoveLetters(s, n, m, persist);
    LetterAt(s, n, m.id);
    if s.queues[n].spec.deadLetter {
      var a := DEFAULT_ARGS.(deadLetter := false);
      var dn := DlqName(n);
      var m1 := DeadMessage(m, n);
      var s2 := Declare(s1, dn, a, false);
      DlqDeclare(s1, dn, a);
      DeclareIndex(s1, dn, a, false);
      DlqDeclareLetters(s1, dn, a, m.id);
      LayLetters(s2, m1);
      LettersTrans(s, s1, s2, m.id);
      LettersTrans(s, s2, Lay(s2, m1), m.id);
      NamesTrans(s.queues, s1.queues, s2.queues, s.cfg.maxLength);
      NamesTrans(s.queues, s2.queues, Lay(s2, m1).queues, s.cfg.maxLength);
      SpecIndex(s, n);
      OneWane(s, Lay(s2, m1), m.id);
    } else {
      OneWane(s, s1, m.id);
    }
  }

  lemma RetryWane(s: State, n: QName, m: Message, at: Time, persist: bool)
    requires IndexOk(s) && Holds(s, n, m.id) && SameLetter(s.queues[n].messages[m.id], m) && m.queue == n
    ensures Wane(s, Retry(s, n, m, at, persist))
  {
    hide TablesAgree, Wane, SameLetters, QuietGrowth, IsDlq, DlqName, Push;
    var s' := Retry(s, n, m, at, persist);
    LetterAt(s, n, m.id);
    IndexAt(s, n, m.id);
    SetLetters(s, s', n, m.id);
    OneMoreQuiet(s.journal, Rec(MessageRetry(m.id, n, at, m.attempts), []), persist);
    OneWane(s, s', m.id);
  }

  lemma RetryOrDeadWane(s: State, n: QName, m: Message, now: Time, persist: bool)
    requires IndexOk(s) && Holds(s, n, m.id) && s.queues[n].messages[m.id] == m
    ensures Wane(s, RetryOrDead(s, n, m, now, persist))
  {
    hide TablesAgree, Wane, RetryDelay, Retry, MoveToDlq, IsDlq;
    IndexAt(s, n, m.id);
    var m1 := m.(attempts := m.attempts + 1);
    if m1.attempts >= m1.maxAttempts {
      MoveToDlqWane(s, n, m1, persist);
    } else {
      RetryWane(s, n, m1, now + RetryDelay(m1.attempts, s.cfg.backoff, s.cfg.baseDelay), persist);
    }
  }

  lemma NackWane(s: State, id: Id, requeue: bool, now: Time, persist: bool)
    requires IndexOk(s)
    ensures Wane(s, Nack(s, id, requeue, now, persist).0)
  {
    hide TablesAgree, Wane, RetryOrDead, MoveToDlq, IsDlq, QuietGrowth;
    if InFlight(s, id) {
      var n := s.byId[id];
      var q := CountNack(TakeBack(s.queues[n], id));
      var s1 := Log(SetQueue(s, n, q), MessageNack(id, n, requeue), [], persist);
      IndexHolds(s, id);
      IndexAt(s, n, id);
      KeepIndex(s, n, q);
      OneMoreQuiet(s.journal, Rec(MessageNack(id, n, requeue), []), persist);
      SameTablesWane(s, s1);
      if requeue {
        RetryOrDeadWane(s1, n, q.messages[id], now, persist);
      } else {
        MoveToDlqWane(s1, n, q.messages[id], persist);
      }
      WaneTrans(s, s1, Nack(s, id, requeue, now, persist).0);
    } else {
      WaneItself(s);
    }
  }

  lemma IndexHolds(s: State, id: Id)
    requires IndexOk(s) && id in s.byId
    ensures Holds(s, s.byId[id], id)
  {
  }

  lemma ExpireWane(s: State, n: QName, id: Id, now: Time, persist: bool)
    requires IndexOk(s) && n in s.queues
    ensures Wane(s, Expire(s, n, id, now, persist))
  {
    hide TablesAgree, Wane, RetryOrDead, IsDlq, QuietGrowth;
    var q := TakeBack(s.queues[n], id);
    var s1 := SetQueue(s, n, q);
    KeepIndex(s, n, q);
    QuietItself(s.journal);
    SameTablesWane(s, s1);
    if id in q.messages {
      IndexAt(s, n, id);
      RetryOrDeadWane(s1, n, q.messages[id], now, persist);
      WaneTrans(s, s1, Expire(s, n, id, now, persist));
    }
  }

  lemma QuietItself(j: seq<Rec>)
    ensures QuietGrowth(j, j)
  {
  }

  lemma RecoverWane(s: State, todo: seq<Addr>, now: Time, persist: bool)
    requires IndexOk(s) && forall a :: a in todo ==> a.queue in s.queues
    ensures Wane(s, Recover(s, todo, now, persist))
    decreases |todo|
  {
    hide TablesAgree, Wane, Expire;
    if todo == [] {
      WaneItself(s);
    } else {
      var s1 := Expire(s, todo[0].queue, todo[0].id, now, persist);
      ExpireKeepsQueues(s, todo[0].queue, todo[0].id, now, persist);
      ExpireIndex(s, todo[0].queue, todo[0].id, now, persist);
      ExpireWane(s, todo[0].queue, todo[0].id, now, persist);
      RecoverWane(s1, todo[1..], now, persist);
      WaneTrans(s, s1, Recover(s1, todo[1..], now, persist));
    }
  }

  lemma ReleaseOneWane(s: State, a: Addr)
    requires IndexOk(s)
    ensures Wane(s, ReleaseOne(s, a))
  {
    hide TablesAgree, Wane, SameLetters, QuietGrowth, IsDlq, DlqName, Push;
    QuietItself(s.journal);
    if Waiting(s, a) {
      var s' := ReleaseOne(s, a);
      if a.id in s.queues[a.queue].messages {
        LetterAt(s, a.queue, a.id);
        IndexAt(s, a.queue, a.id);
        SetLetters(s, s', a.queue, a.id);
        OneWane(s, s', a.id);
      } else {
        SameTablesWane(s, s');
      }
    } else {
      WaneItself(s);
    }
  }

  lemma ReleaseAllWane(s: State, due: seq<Addr>)
    requires IndexOk(s)
    ensures Wane(s, ReleaseAll(s, due))
    decreases |due|
  {
    hide TablesAgree, Wane, ReleaseOne;
    if due == [] {
      WaneItself(s);
    } else {
      var s1 := ReleaseOne(s, due[0]);
      ReleaseOneIndex(s, due[0]);
      ReleaseOneWane(s, due[0]);
      ReleaseAllWane(s1, due[1..]);
      WaneTrans(s, s1, ReleaseAll(s1, due[1..]));
    }
  }

  lemma TimeoutWane(s: State, ts: Time, now: Time)
    requires IndexOk(s)
    ensures Wane(s, TimeoutInflight(s, ts, now))
    decreases |s.visibility|
  {
    hide TablesAgree, Wane, Expire, QuietGrowth;
    if s.visibility == [] || s.visibility[0].key > ts {
      WaneItself(s);
    } else {
      var e := s.visibility[0];
      var s1 := s.(visibility := s.visibility[1..]);
      var s2 := TimeoutOne(s1, e, now);
      QuietItself(s.journal);
      SameTablesWane(s, s1);
      TimeoutKeepsHeap(s1, e, now);
      if Current(s1, e) {
        ExpireIndex(s1, e.item.queue, e.item.id, now, true);
        ExpireWane(s1, e.item.queue, e.item.id, now, true);
        WaneTrans(s, s1, s2);
      }
      TimeoutWane(s2, ts, now);
      WaneTrans(s, s2, TimeoutInflight(s2, ts, now));
    }
  }

  lemma TickWane(s: State, ts: Time, now: Time)
    requires IndexOk(s)
    ensures Wane(s, Tick(s, ts, now))
  {
    hide TablesAgree, Wane, ReleaseAll, TimeoutInflight, PopDue, QuietGrowth;
    var (due, rest) := PopDue(s.delayed, ts);
    var s1 := s.(delayed := rest);
    var s2 := ReleaseDelayed(s, ts);
    QuietItself(s.journal);
    SameTablesWane(s, s1);
    ReleaseAllIndex(s1, due);
    ReleaseAllWane(s1, due);
    WaneTrans(s, s1, s2);
    TimeoutWane(s2, ts, now);
    WaneTrans(s, s2, Tick(s, ts, now));
  }
}
