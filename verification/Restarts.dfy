/** Replaying records, whatever they are: what every replay keeps, and why the clock does not matter. */
module Restarts {
  import opened Types
  import opened DlqNames
  import opened Heaps
  import opened Journal
  import opened Engine
  import opened Index
  import opened Ticks
  import opened Requeue
  import opened Runs
  import opened Replay
  import opened Recovery

  /** No queue has a bound on its length, and none will be created with one. */
  ghost predicate Roomy(s: State) {
    s.cfg.maxLength == None && forall n :: n in s.queues ==> s.queues[n].spec.maxLength == None
  }

  predicate Unlimited(rec: Rec) {
    rec.meta.QueueDeclare? ==> rec.meta.maxLength == None
  }

  function RecIds(rec: Rec): set<Id> {
    if rec.meta.MessagePublish? then {rec.meta.id} else {}
  }

  /** What replaying one record keeps. */
  ghost predicate Continues(s: State, s': State, rec: Rec) {
    && IndexOk(s') && Idle(s'.queues) && s'.cfg == s.cfg
    && s'.byId.Keys <= s.byId.Keys + RecIds(rec)
    && (Roomy(s) && Unlimited(rec) ==> Roomy(s'))
  }

  lemma DlqDeclareRoomy(s: State, n: QName, a: DeclareArgs, persist: bool)
    requires Roomy(s) && a.maxLength == None && IsDlq(n)
    ensures Roomy(Declare(s, n, a, persist))
  {
    hide IsDlq;
  }

  lemma DeclareRoomy(s: State, n: QName, a: DeclareArgs, persist: bool)
    requires Roomy(s) && a.maxLength == None
    ensures Roomy(Declare(s, n, a, persist))
  {
    hide IsDlq, Declare;
    if n in s.queues {
      DeclareThere(s, n, a, persist);
    } else {
      var spec := MakeSpec(s.cfg, n, a);
      DeclareForm(s, n, a, persist);
      if spec.deadLetter {
        DlqDeclareRoomy(SetQueue(s, n, NewQueue(spec)), DlqName(n), DlqArgs(spec), persist);
      }
    }
  }

  lemma DeclareContinues(s: State, n: QName, a: DeclareArgs)
    requires IndexOk(s) && Idle(s.queues)
    ensures
      var s' := Declare(s, n, a, false);
      && IndexOk(s') && Idle(s'.queues) && s'.cfg == s.cfg && s'.byId == s.byId && n in s'.queues
      && (Roomy(s) && a.maxLength == None ==> Roomy(s'))
  {
    hide TablesAgree, Idle, IsDlq, Declare, Roomy;
    var spec := MakeSpec(s.cfg, n, a);
    DeclareIndex(s, n, a, false);
    DeclareTables(s, n, a, false);
    DeclaredIdle(s, Declare(s, n, a, false), n, spec);
    if Roomy(s) && a.maxLength == None {
      DeclareRoomy(s, n, a, false);
    }
  }

  lemma DeleteContinues(s: State, n: QName)
    requires IndexOk(s) && Idle(s.queues)
    ensures
      var s' := Delete(s, n, false).0;
      && IndexOk(s') && Idle(s'.queues) && s'.cfg == s.cfg && s'.byId.Keys <= s.byId.Keys && (Roomy(s) ==> Roomy(s'))
  {
    hide TablesAgree, IsDlq, Delete, Deleted;
    DeleteIndex(s, n, false);
    DeletePlace(s, n, false);
    DeleteCfg(s, n, false);
    DeletedLetters(s, Delete(s, n, false).0, n);
  }

  lemma HousesRoomy(s: State, s': State)
    requires Roomy(s) && SameHouses(s.queues, s'.queues) && s'.cfg == s.cfg
    ensures Roomy(s')
  {
  }

  lemma EnqueueContinues(s: State, m: Message, now: Time)
    requires IndexOk(s) && Idle(s.queues) && m.id !in s.byId
    ensures
      var s' := Enqueue(s, m, now, false).0;
      && IndexOk(s') && Idle(s'.queues) && s'.cfg == s.cfg && s'.byId.Keys <= s.byId.Keys + {m.id} && (Roomy(s) ==> Roomy(s'))
  {
    hide TablesAgree, Idle, Enqueue, Roomy, SameHouses, SameLetters, Letter;
    var s' := Enqueue(s, m, now, false).0;
    EnqueueIndex(s, m, now, false);
    EnqueueLetters(s, m, now, false);
    EnqueueSpecs(s, m, now, false);
    HousesIdle(s.queues, s'.queues);
    if Roomy(s) {
      HousesRoomy(s, s');
    }
  }

  lemma RequeueContinues(s: State, n: QName, id: Id, now: Time)
    requires IndexOk(s) && Idle(s.queues)
    ensures
      var s' := DlqRequeue(s, n, id, now, false).0;
      && IndexOk(s') && Idle(s'.queues) && s'.cfg == s.cfg && s'.byId.Keys <= s.byId.Keys && (Roomy(s) ==> Roomy(s'))
  {
    hide TablesAgree, Idle, DlqRequeue, Roomy, SameHouses, SameLetters, Letter, Found;
    var s' := DlqRequeue(s, n, id, now, false).0;
    RequeueSame(s, n, id, now, false);
    RequeueForm(s, n, id, now, false);
    RequeueSpecs(s, n, id, now, false);
    HousesIdle(s.queues, s'.queues);
    if Found(s, n, id) {
      FoundKnown(s, n, id);
    }
    if Roomy(s) {
      HousesRoomy(s, s');
    }
  }

  lemma FoundKnown(s: State, n: QName, id: Id)
    requires IndexOk(s) && Found(s, n, id)
    ensures id in s.byId
  {
    hide IsDlq;
  }

  lemma ApplyContinues(s: State, rec: Rec, now: Time)
    requires IndexOk(s) && Idle(s.queues)
    ensures Continues(s, Apply(s, rec, now), rec)
  {
    hide TablesAgree, Idle, Declare, Delete, Enqueue, DlqRequeue, Roomy, Ack, Nack, IsDlq;
    match rec.meta
    case QueueDeclare(n, durable, maxLength, visibilityTimeout, maxAttempts, deadLetter) =>
      DeclareContinues(s, n, DeclareArgs(durable, maxLength, Some(visibilityTimeout), Some(maxAttempts), deadLetter));
    case QueueDelete(n) => DeleteContinues(s, n);
    case Bind(_, q, _) => DeclareContinues(s, q, DEFAULT_ARGS);
    case MessagePublish(id, q, attempts, maxAttempts, priority, availableAt, info) =>
      DeclareContinues(s, q, DEFAULT_ARGS);
      var s1 := Declare(s, q, DEFAULT_ARGS, false);
      if id !in s1.byId {
        EnqueueContinues(s1, Message(id, q, rec.payload, attempts, maxAttempts, priority, availableAt, info), now);
      }
    case MessageAck(_, _) => QuietApply(s, rec, now);
    case MessageNack(_, _, _) => QuietApply(s, rec, now);
    case MessageRequeue(id, _, target) => RequeueContinues(s, target, id, now);
    case _ =>
  }

  // ----- two replays of the same records, at different times -----

  ghost predicate Alike(q: Queue, q': Queue) {
    && q'.spec == q.spec
    && q'.messages.Keys == q.messages.Keys
    && forall id :: id in q.messages && id in q'.messages ==> SameLetter(q.messages[id], q'.messages[id])
  }

  /** The same queues and messages, up to which of the messages are delayed, and until when. */
  ghost predicate Twins(a: State, b: State) {
    && b.cfg == a.cfg && b.byId == a.byId && b.queues.Keys == a.queues.Keys
    && forall n :: n in a.queues && n in b.queues ==> Alike(a.queues[n], b.queues[n])
  }

  lemma TwinsSet(a: State, b: State, n: QName, q: Queue, q': Queue)
    requires Twins(a, b) && Alike(q, q')
    ensures Twins(SetQueue(a, n, q), SetQueue(b, n, q'))
  {
    hide Alike;
  }

  lemma AlikeItself(q: Queue)
    ensures Alike(q, q)
  {
  }

  lemma DlqDeclareTwins(a: State, b: State, n: QName, args: DeclareArgs)
    requires Twins(a, b) && IsDlq(n)
    ensures Twins(Declare(a, n, args, false), Declare(b, n, args, false))
  {
    hide IsDlq, Alike, NewQueue;
    AlikeItself(NewQueue(MakeSpec(a.cfg, n, args)));
  }

  lemma DeclareTwins(a: State, b: State, n: QName, args: DeclareArgs)
    requires Twins(a, b)
    ensures Twins(Declare(a, n, args, false), Declare(b, n, args, false))
  {
    hide IsDlq, Alike, NewQueue, Declare, MakeSpec;
    if n in a.queues {
      DeclareThere(a, n, args, false);
      DeclareThere(b, n, args, false);
    } else {
      var spec := MakeSpec(a.cfg, n, args);
      DeclareForm(a, n, args, false);
      DeclareForm(b, n, args, false);
      AlikeItself(NewQueue(spec));
      if spec.deadLetter {
        DlqDeclareTwins(SetQueue(a, n, NewQueue(spec)), SetQueue(b, n, NewQueue(spec)), DlqName(n), DlqArgs(spec));
      }
    }
  }

  lemma DeleteOneTwins(a: State, b: State, n: QName)
    requires Twins(a, b) && n in a.queues
    ensures Twins(DeleteOne(a, n), DeleteOne(b, n)) && b.queues[n].spec == a.queues[n].spec
  {
    assert Alike(a.queues[n], b.queues[n]);
    hide Alike;
  }

  lemma DeleteTwins(a: State, b: State, n: QName)
    requires Twins(a, b)
    ensures Twins(Delete(a, n, false).0, Delete(b, n, false).0)
    decreases |a.queues|
  {
    hide Twins, IsDlq, Delete;
    TwinsKeys(a, b);
    if n in a.queues {
      DeleteForm(a, n, false);
      DeleteForm(b, n, false);
      DeleteOneTwins(a, b, n);
      if a.queues[n].spec.deadLetter {
        assert a.queues.Keys == DeleteOne(a, n).queues.Keys + {n};
        DeleteTwins(DeleteOne(a, n), DeleteOne(b, n), DlqName(n));
      }
    } else {
      DeleteNothing(a, n, false);
      DeleteNothing(b, n, false);
    }
  }

  lemma TwinsKeys(a: State, b: State)
    requires Twins(a, b)
    ensures a.queues.Keys == b.queues.Keys && a.byId == b.byId && a.cfg == b.cfg
  {
    hide Alike;
  }

  lemma AlikeAdd(q: Queue, q': Queue, d: Queue, d': Queue, m: Message, m': Message)
    requires Alike(q, q') && m.id == m'.id && SameLetter(m, m')
    requires d.spec == q.spec && d'.spec == q'.spec
    requires d.messages == q.messages[m.id := m] && d'.messages == q'.messages[m'.id := m']
    ensures Alike(d, d')
  {
  }

  lemma TwinsAlike(a: State, b: State, n: QName)
    requires Twins(a, b) && n in a.queues
    ensures n in b.queues && Alike(a.queues[n], b.queues[n])
  {
    hide Alike;
  }

  lemma NeverFull(s: State, n: QName)
    requires Roomy(s) && n in s.queues
    ensures !Full(s.queues[n])
  {
  }

  lemma TwinsArrive(a: State, b: State, a': State, b': State, n: QName, q: Queue, q': Queue, id: Id)
    requires Twins(a, b) && Alike(q, q')
    requires a'.queues == a.queues[n := q] && b'.queues == b.queues[n := q'] && a'.cfg == a.cfg && b'.cfg == b.cfg
    requires a'.byId == a.byId[id := n] && b'.byId == b.byId[id := n]
    ensures Twins(a', b')
  {
    hide Alike;
  }

  lemma EnqueueTables(s: State, m: Message, now: Time)
    requires m.queue in s.queues && !Full(s.queues[m.queue])
    ensures
      var (s', r) := Enqueue(s, m, now, false);
      && r == EnqueueOk && s'.cfg == s.cfg && s'.byId == s.byId[m.id := m.queue]
      && s'.queues == s.queues[m.queue := Admit(s.queues[m.queue], m, now, s.lastOrd + 1)]
  {
    hide Full, Admit, Push, Later, Stored;
  }

  lemma AdmitAlike(q: Queue, q': Queue, m: Message, m': Message, t: Time, t': Time, ord: nat, ord': nat)
    requires Alike(q, q') && SameLetter(m, m')
    ensures Alike(Admit(q, m, t, ord), Admit(q', m', t', ord'))
  {
    hide Push;
    AlikeAdd(q, q', Admit(q, m, t, ord), Admit(q', m', t', ord'), Stored(m, t), Stored(m', t'));
  }

  lemma EnqueueTwins(a: State, b: State, m: Message, m': Message, t: Time, t': Time)
    requires Twins(a, b) && Roomy(a) && Roomy(b) && m'.queue == m.queue && SameLetter(m, m')
    ensures Twins(Enqueue(a, m, t, false).0, Enqueue(b, m', t', false).0)
    ensures Enqueue(a, m, t, false).1 == Enqueue(b, m', t', false).1 == (if m.queue in a.queues then EnqueueOk else EnqueueNotFound)
  {
    hide Alike, Roomy, Full, Admit, Twins, Enqueue;
    var n := m.queue;
    TwinsKeys(a, b);
    if n in a.queues {
      NeverFull(a, n);
      NeverFull(b, n);
      TwinsAlike(a, b, n);
      var d, d' := Admit(a.queues[n], m, t, a.lastOrd + 1), Admit(b.queues[n], m', t', b.lastOrd + 1);
      AdmitAlike(a.queues[n], b.queues[n], m, m', t, t', a.lastOrd + 1, b.lastOrd + 1);
      EnqueueTables(a, m, t);
      EnqueueTables(b, m', t');
      TwinsArrive(a, b, Enqueue(a, m, t, false).0, Enqueue(b, m', t', false).0, n, d, d', m.id);
    } else {
      EnqueueNowhere(a, m, t);
      EnqueueNowhere(b, m', t');
    }
  }

  lemma EnqueueNowhere(s: State, m: Message, now: Time)
    requires m.queue !in s.queues
    ensures Enqueue(s, m, now, false) == (s, EnqueueNotFound)
  {
  }

  lemma WithdrawAlike(q: Queue, q': Queue, id: Id)
    requires Alike(q, q')
    ensures Alike(Withdraw(q, id), Withdraw(q', id))
  {
    hide Drop, Without;
  }

  lemma WithdrawTwins(a: State, b: State, dn: QName, id: Id)
    requires Twins(a, b) && dn in a.queues
    ensures Twins(Withdrawn(a, dn, id), Withdrawn(b, dn, id))
  {
    hide Alike, Withdraw;
    TwinsAlike(a, b, dn);
    WithdrawAlike(a.queues[dn], b.queues[dn], id);
    TwinsSet(a, b, dn, Withdraw(a.queues[dn], id), Withdraw(b.queues[dn], id));
  }

  lemma WithdrawRoomy(s: State, dn: QName, id: Id)
    requires Roomy(s) && dn in s.queues
    ensures Roomy(Withdrawn(s, dn, id))
  {
    hide Drop, Without;
  }

  lemma FoundTwins(a: State, b: State, n: QName, id: Id)
    requires Twins(a, b)
    ensures Found(a, n, id) <==> Found(b, n, id)
    ensures Found(a, n, id) ==> SameLetter(BackMessage(a, n, id), BackMessage(b, n, id))
    ensures Found(a, n, id) ==> BackMessage(a, n, id).queue == BackMessage(b, n, id).queue == OriginQueue(n)
  {
    hide IsDlq, DlqName;
    var dn := DlqName(OriginQueue(n));
    if dn in a.queues {
      assert Alike(a.queues[dn], b.queues[dn]);
    }
  }

  lemma RequeueTwins(a: State, b: State, n: QName, id: Id, t: Time, t': Time)
    requires Twins(a, b) && Roomy(a) && Roomy(b) && IndexOk(a) && IndexOk(b)
    ensures Twins(DlqRequeue(a, n, id, t, false).0, DlqRequeue(b, n, id, t', false).0)
  {
    hide TablesAgree, IsDlq, DlqRequeue, Enqueue, Twins, Roomy, Withdrawn, BackMessage, Found;
    RequeueForm(a, n, id, t, false);
    RequeueForm(b, n, id, t', false);
    FoundTwins(a, b, n, id);
    if Found(a, n, id) {
      FoundQueues(a, n, id);
      FoundQueues(b, n, id);
      var dn := DlqName(OriginQueue(n));
      WithdrawTwins(a, b, dn, id);
      WithdrawRoomy(a, dn, id);
      WithdrawRoomy(b, dn, id);
      WithdrawnQueues(a, n, id);
      EnqueueTwins(Withdrawn(a, dn, id), Withdrawn(b, dn, id), BackMessage(a, n, id), BackMessage(b, n, id), t, t');
    }
  }

  lemma FoundQueues(s: State, n: QName, id: Id)
    requires Found(s, n, id)
    ensures OriginQueue(n) in s.queues && DlqName(OriginQueue(n)) in s.queues
  {
    hide IsDlq;
  }

  lemma PublishTwins(a: State, b: State, m: Message, t: Time, t': Time)
    requires Twins(a, b) && Roomy(a) && Roomy(b) && IndexOk(a) && IndexOk(b) && Idle(a.queues) && Idle(b.queues)
    ensures Twins(Apply(a, PublishRec(m), t), Apply(b, PublishRec(m), t'))
  {
    hide TablesAgree, IsDlq, Declare, Enqueue, Twins, Roomy, Apply, Idle;
    var a1, b1 := Declare(a, m.queue, DEFAULT_ARGS, false), Declare(b, m.queue, DEFAULT_ARGS, false);
    DeclareContinues(a, m.queue, DEFAULT_ARGS);
    DeclareContinues(b, m.queue, DEFAULT_ARGS);
    DeclareTwins(a, b, m.queue, DEFAULT_ARGS);
    TwinsKeys(a, b);
    if m.id in a.byId {
      PublishKnown(a, m, t);
      PublishKnown(b, m, t');
    } else {
      PublishApply(a, m, t);
      PublishApply(b, m, t');
      EnqueueTwins(a1, b1, m, m, t, t');
    }
  }

  lemma PublishKnown(s: State, m: Message, t: Time)
    requires m.id in s.byId
    ensures Apply(s, PublishRec(m), t) == Declare(s, m.queue, DEFAULT_ARGS, false)
  {
    hide Declare, Enqueue;
    DeclareIds(s, m.queue, DEFAULT_ARGS, false);
  }

  /** One record, applied at two different times. */
  lemma ApplyTwins(a: State, b: State, rec: Rec, t: Time, t': Time)
    requires Twins(a, b) && Roomy(a) && Roomy(b) && IndexOk(a) && IndexOk(b) && Idle(a.queues) && Idle(b.queues)
    ensures Twins(Apply(a, rec, t), Apply(b, rec, t'))
  {
    hide TablesAgree, Idle, Declare, Delete, Enqueue, DlqRequeue, Roomy, Ack, Nack, IsDlq, Twins;
    match rec.meta
    case QueueDeclare(n, durable, maxLength, visibilityTimeout, maxAttempts, deadLetter) =>
      DeclareTwins(a, b, n, DeclareArgs(durable, maxLength, Some(visibilityTimeout), Some(maxAttempts), deadLetter));
    case QueueDelete(n) => DeleteTwins(a, b, n);
    case Bind(_, q, _) => DeclareTwins(a, b, q, DEFAULT_ARGS);
    case MessagePublish(id, q, attempts, maxAttempts, priority, availableAt, info) =>
      var m := Message(id, q, rec.payload, attempts, maxAttempts, priority, availableAt, info);
      assert rec == PublishRec(m);
      PublishTwins(a, b, m, t, t');
    case MessageAck(_, _) =>
      QuietApply(a, rec, t);
      QuietApply(b, rec, t');
    case MessageNack(_, _, _) =>
      QuietApply(a, rec, t);
      QuietApply(b, rec, t');
    case MessageRequeue(id, _, target) => RequeueTwins(a, b, target, id, t, t');
    case _ =>
  }

  lemma {:induction false} ReplayTwins(a: State, b: State, recs: seq<Rec>, clock: seq<Time>, clock': seq<Time>)
    requires Twins(a, b) && Roomy(a) && Roomy(b) && IndexOk(a) && IndexOk(b) && Idle(a.queues) && Idle(b.queues)
    requires |clock| == |clock'| == |recs| && forall rec :: rec in recs ==> Unlimited(rec)
    ensures Twins(ReplayAll(a, recs, clock), ReplayAll(b, recs, clock'))
    decreases |recs|
  {
    hide IndexOk, Idle, Roomy, Twins, Apply, Unlimited;
    if recs != [] {
      assert recs[0] in recs && forall rec :: rec in recs[1..] ==> rec in recs;
      ApplyContinues(a, recs[0], clock[0]);
      ApplyContinues(b, recs[0], clock'[0]);
      ApplyTwins(a, b, recs[0], clock[0], clock'[0]);
      ReplayTwins(Apply(a, recs[0], clock[0]), Apply(b, recs[0], clock'[0]), recs[1..], clock[1..], clock'[1..]);
    }
  }

  lemma ReplayContinues(s: State, recs: seq<Rec>, clock: seq<Time>)
    requires IndexOk(s) && Idle(s.queues) && Roomy(s) && |clock| == |recs|
    requires forall rec :: rec in recs ==> Unlimited(rec)
    ensures
      var s' := ReplayAll(s, recs, clock);
      IndexOk(s') && Idle(s'.queues) && Roomy(s') && s'.cfg == s.cfg
    decreases |recs|
  {
    hide IndexOk, Idle, Roomy, Apply, Unlimited;
    if recs != [] {
      assert recs[0] in recs && forall rec :: rec in recs[1..] ==> rec in recs;
      ApplyContinues(s, recs[0], clock[0]);
      ReplayContinues(Apply(s, recs[0], clock[0]), recs[1..], clock[1..]);
    }
  }

  lemma TwinsBack(a: State, b: State)
    requires Twins(a, b)
    ensures Twins(b, a)
  {
  }

  lemma AlikeTrans(a: Queue, b: Queue, c: Queue)
    requires Alike(a, b) && Alike(b, c)
    ensures Alike(a, c)
  {
  }

  lemma TwinsTrans(a: State, b: State, c: State)
    requires Twins(a, b) && Twins(b, c)
    ensures Twins(a, c)
  {
    hide Alike;
    forall n | n in a.queues
      ensures Alike(a.queues[n], c.queues[n])
    {
      AlikeTrans(a.queues[n], b.queues[n], c.queues[n]);
    }
  }

  lemma TwinsLetter(a: State, b: State, id: Id)
    requires Twins(a, b) && IndexOk(a) && IndexOk(b)
    ensures Letter(a, id).Some? <==> Letter(b, id).Some?
    ensures Letter(a, id).Some? ==>
      SameLetter(Letter(a, id).value, Letter(b, id).value) && Letter(b, id).value.queue == Letter(a, id).value.queue
  {
    hide TablesAgree, IsDlq, Alike;
    LetterQueue(a, id);
    LetterQueue(b, id);
    if id in a.byId {
      assert Alike(a.queues[a.byId[id]], b.queues[a.byId[id]]);
      AlikeAt(a.queues[a.byId[id]], b.queues[a.byId[id]], id);
    }
  }

  lemma AlikeAt(q: Queue, q': Queue, id: Id)
    requires Alike(q, q') && id in q.messages
    ensures id in q'.messages && SameLetter(q.messages[id], q'.messages[id])
  {
    assert id in q'.messages.Keys;
  }

  lemma TwinsSim(a: State, b: State, used: set<Id>)
    requires Twins(a, b) && IndexOk(a) && IndexOk(b) && Idle(b.queues) && b.byId.Keys <= used
    ensures Sim(a, b, used)
  {
    hide TablesAgree, IsDlq, Letter, Idle, DlqName, SameLetter;
    TwinsShape(a, b);
    forall id
      ensures Kept(a.queues, Letter(a, id), Letter(b, id))
    {
      TwinsLetter(a, b, id);
    }
  }

  lemma TwinsShape(a: State, b: State)
    requires Twins(a, b)
    ensures SameShape(a.queues, b.queues)
  {
    hide IsDlq;
  }

  // ----- the tick that ends recovery -----

  lemma ReleaseOneTwins(s: State, a: Addr)
    requires IndexOk(s) && Idle(s.queues)
    ensures Twins(s, ReleaseOne(s, a)) && Idle(ReleaseOne(s, a).queues)
  {
    hide TablesAgree, Push, IsDlq;
    if Waiting(s, a) && a.id in s.queues[a.queue].messages {
      IndexAt(s, a.queue, a.id);
    }
  }

  lemma ReleaseAllTwins(s: State, due: seq<Addr>)
    requires IndexOk(s) && Idle(s.queues)
    ensures Twins(s, ReleaseAll(s, due)) && Idle(ReleaseAll(s, due).queues) && IndexOk(ReleaseAll(s, due))
    decreases |due|
  {
    hide IndexOk, Idle, Twins, ReleaseOne;
    if due == [] {
      TwinsItself(s);
    } else {
      ReleaseOneTwins(s, due[0]);
      ReleaseOneIndex(s, due[0]);
      ReleaseAllTwins(ReleaseOne(s, due[0]), due[1..]);
      TwinsTrans(s, ReleaseOne(s, due[0]), ReleaseAll(s, due));
    }
  }

  lemma TwinsItself(s: State)
    ensures Twins(s, s)
  {
  }

  lemma IdleTimeout(s: State, ts: Time, now: Time)
    requires Idle(s.queues)
    ensures TimeoutInflight(s, ts, now).queues == s.queues && TimeoutInflight(s, ts, now).byId == s.byId
    ensures TimeoutInflight(s, ts, now).cfg == s.cfg
    decreases |s.visibility|
  {
    hide Expire;
    if s.visibility != [] && s.visibility[0].key <= ts {
      var s1 := s.(visibility := s.visibility[1..]);
      assert !Current(s1, s.visibility[0]);
      IdleTimeout(s1, ts, now);
    }
  }

  lemma SameTablesTwins(a: State, b: State, b': State)
    requires Twins(a, b) && b'.queues == b.queues && b'.byId == b.byId && b'.cfg == b.cfg
    ensures Twins(a, b')
  {
  }

  /** With nothing in flight a tick only makes delayed messages ready. */
  lemma IdleTick(s: State, ts: Time, now: Time)
    requires IndexOk(s) && Idle(s.queues)
    ensures Twins(s, Tick(s, ts, now)) && Idle(Tick(s, ts, now).queues) && IndexOk(Tick(s, ts, now))
  {
    hide TablesAgree, Idle, Twins, TimeoutInflight, ReleaseAll, PopDue;
    var (due, rest) := PopDue(s.delayed, ts);
    var s1 := s.(delayed := rest);
    var s2 := ReleaseDelayed(s, ts);
    ReleaseAllTwins(s1, due);
    TwinsItself(s);
    SameTablesTwins(s, s, s1);
    TwinsTrans(s, s1, s2);
    IdleTimeout(s2, ts, now);
    SameTablesTwins(s, s2, Tick(s, ts, now));
  }
}
