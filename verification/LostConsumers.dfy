/** A short run of a new broker in which a consumer is cancelled with an error and keeps a delivery. */
module LostConsumers {
  import opened Types
  import opened DlqNames
  import opened Heaps
  import opened Engine
  import opened Runs
  import opened Counts
  import opened Consumers
  import opened Deliveries
  import opened Prefetch
  import opened BrokerRuns

  const NO_LETTERS := DeclareArgs(true, None, None, None, false)

  // ----- runs of a few events -----

  lemma RunNext(b: Broker, ev: BrokerEvent, rest: seq<BrokerEvent>)
    requires BrokerAllowed(b, ev) && BrokerRunOk(BrokerStep(b, ev), rest)
    ensures BrokerRunOk(b, [ev] + rest) && BrokerRun(b, [ev] + rest) == BrokerRun(BrokerStep(b, ev), rest)
  {
    hide BrokerAllowed, BrokerStep;
    assert ([ev] + rest)[1..] == rest;
  }

  // ----- the queues -----

  predicate Empty(q: Queue) {
    q.ready == [] && q.delayedIds == {} && q.inflight == map[] && q.messages == map[] && q.consumerIds == [] && q.rrIndex == 0
    && (q.spec.maxLength.Some? ==> q.spec.maxLength.value > 0)
  }

  /** Two empty queues; the dead-letter queue of the first was deleted. */
  predicate TwoQueues(s: State, n: QName, k: QName) {
    && n != k && n in s.queues && k in s.queues && s.byId == map[]
    && s.queues[n].spec.deadLetter && DlqName(n) !in s.queues
    && forall x :: x in s.queues ==> Empty(s.queues[x])
  }

  lemma DeclareFirst(cfg: Config, n: QName)
    requires !IsDlq(n) && (cfg.maxLength.Some? ==> cfg.maxLength.value > 0)
    ensures
      var s := Declare(Init(cfg), n, DEFAULT_ARGS, true);
      && s.byId == map[] && s.cfg == cfg && n in s.queues && s.queues[n].spec.deadLetter
      && DlqName(n) in s.queues && !s.queues[DlqName(n)].spec.deadLetter
      && forall x :: x in s.queues ==> Empty(s.queues[x]) && (x == n || x == DlqName(n))
  {
    hide IsDlq, DeclareMeta;
  }

  lemma DeleteLetters(s: State, dn: QName)
    requires dn in s.queues && !s.queues[dn].spec.deadLetter && s.queues[dn].messages == map[] && s.byId == map[]
    ensures Delete(s, dn, true).0.queues == s.queues - {dn} && Delete(s, dn, true).0.byId == map[]
    ensures Delete(s, dn, true).0.cfg == s.cfg
  {
    assert s.byId - s.queues[dn].messages.Keys == map[];
  }

  lemma DeclareSecond(s: State, k: QName)
    requires k !in s.queues && (s.cfg.maxLength.Some? ==> s.cfg.maxLength.value > 0)
    ensures
      var s' := Declare(s, k, NO_LETTERS, true);
      && s'.queues == s.queues[k := NewQueue(MakeSpec(s.cfg, k, NO_LETTERS))] && s'.byId == s.byId
      && Empty(s'.queues[k])
  {
    hide IsDlq;
  }

  lemma StartTwo(cfg: Config, n: QName, k: QName)
    requires !IsDlq(n) && !IsDlq(k) && n != k && (cfg.maxLength.Some? ==> cfg.maxLength.value > 0)
    ensures
      TwoQueues(Declare(Delete(Declare(Init(cfg), n, DEFAULT_ARGS, true), DlqName(n), true).0, k, NO_LETTERS, true), n, k)
  {
    hide IsDlq, Declare, Delete, Empty, MakeSpec;
    var s1 := Declare(Init(cfg), n, DEFAULT_ARGS, true);
    DeclareFirst(cfg, n);
    DeleteEmpty(s1, DlqName(n));
    DeleteLetters(s1, DlqName(n));
    DeclareSecond(Delete(s1, DlqName(n), true).0, k);
  }

  lemma DeleteEmpty(s: State, dn: QName)
    requires dn in s.queues && Empty(s.queues[dn])
    ensures s.queues[dn].messages == map[]
  {
  }

  // ----- a consumer of both -----

  /** The queue has one consumer, and one message that is ready. */
  predicate OneReady(q: Queue, c: ConsumerId, m: Message) {
    && q.consumerIds == [c] && q.delayedIds == {} && q.inflight == map[]
    && |q.ready| == 1 && q.ready[0].item == m.id && m.id in q.messages && q.messages[m.id] == m
  }

  /** The consumer holds one message of the queue. */
  predicate OneHeld(q: Queue, c: ConsumerId, m: Message) {
    && m.id in q.messages && q.messages[m.id] == m
    && q.inflight.Keys == {m.id} && q.inflight[m.id].consumer == c
  }

  predicate Joined(q: Queue, c: ConsumerId) {
    Empty(q.(consumerIds := [])) && q.consumerIds == [c]
  }

  lemma JoinOne(s: State, n: QName, c: ConsumerId)
    requires n in s.queues && Empty(s.queues[n])
    ensures
      var s' := Join(s, n, c);
      && s'.queues == s.queues[n := s'.queues[n]] && n in s'.queues && Joined(s'.queues[n], c)
      && s'.queues[n].spec == s.queues[n].spec && s'.byId == s.byId
  {
  }

  lemma JoinAllTwo(s: State, n: QName, k: QName, c: ConsumerId)
    ensures JoinAll(s, [n, k], c) == Join(Join(s, n, c), k, c)
  {
    hide Join;
    assert [n, k][1..] == [k] && [k][1..] == [];
    assert JoinAll(Join(s, n, c), [k], c) == JoinAll(Join(Join(s, n, c), k, c), [], c);
  }

  lemma JoinBoth(s: State, n: QName, k: QName, c: ConsumerId)
    requires TwoQueues(s, n, k)
    ensures
      var s' := JoinAll(s, [n, k], c);
      && s'.queues.Keys == s.queues.Keys && s'.byId == map[] && Joined(s'.queues[n], c) && Joined(s'.queues[k], c)
      && s'.queues[n].spec == s.queues[n].spec
      && forall x :: x in s.queues && x != n && x != k ==> Empty(s'.queues[x])
  {
    hide Join, Empty, Joined;
    var s1 := Join(s, n, c);
    JoinOne(s, n, c);
    JoinOne(s1, k, c);
    JoinAllTwo(s, n, k, c);
    assert s1.queues.Keys == s.queues.Keys && Join(s1, k, c).queues.Keys == s1.queues.Keys;
  }

  lemma PublishOne(s: State, m: Message, c: ConsumerId, now: Time)
    requires m.queue in s.queues && Joined(s.queues[m.queue], c) && m.availableAt == None
    ensures
      var s' := Enqueue(s, m, now, true).0;
      && s'.queues == s.queues[m.queue := s'.queues[m.queue]] && m.queue in s'.queues && OneReady(s'.queues[m.queue], c, m)
      && s'.queues[m.queue].spec == s.queues[m.queue].spec && s'.byId.Keys == s.byId.Keys + {m.id}
  {
  }

  lemma GetOne(b: Broker, n: QName, c: ConsumerId, m: Message, now: Time)
    requires n in b.engine.queues && OneReady(b.engine.queues[n], c, m) && c in b.consumers && b.consumers[c].prefetch <= 0
    ensures
      var b' := TryReserve(b, n, now).0;
      && b'.engine.queues == b.engine.queues[n := b'.engine.queues[n]] && n in b'.engine.queues
      && OneHeld(b'.engine.queues[n], c, m) && b'.engine.queues[n].spec == b.engine.queues[n].spec
      && c in b'.consumers && b'.consumers[c].prefetch <= 0 && b'.consumers[c].queues == b.consumers[c].queues
  {
    hide Reserve;
    var b1 := Advance(b, n);
    ServeOne(b1.engine, n, c, m, now);
    assert b.engine.queues[n].consumerIds[b.engine.queues[n].rrIndex % 1] == c;
    assert TryRounds(b, n, now, 1) == Serve(b1, n, c, now);
  }

  lemma ServeOne(s: State, n: QName, c: ConsumerId, m: Message, now: Time)
    requires n in s.queues && OneReady(s.queues[n], c, m)
    ensures
      var (s', r) := Reserve(s, n, c, now);
      && r == Some(m) && s'.queues == s.queues[n := s'.queues[n]] && n in s'.queues && OneHeld(s'.queues[n], c, m)
      && s'.queues[n].spec == s.queues[n].spec
  {
    hide Push;
  }

  // ----- cancelling it -----

  /** The consumer holds one message in each of the two queues, and nothing else is held; the first message dies
      with its next failure. */
  predicate TwoHeld(s: State, n: QName, k: QName, c: ConsumerId, m: Message, x: Message) {
    && n != k && n in s.queues && k in s.queues && OneHeld(s.queues[n], c, m) && OneHeld(s.queues[k], c, x)
    && s.queues[n].spec.deadLetter && DlqName(n) !in s.queues && m.attempts + 1 >= m.maxAttempts
    && forall y :: y in s.queues && y != n && y != k ==> s.queues[y].inflight == map[]
  }

  lemma TwoHeldBy(s: State, n: QName, k: QName, c: ConsumerId, m: Message, x: Message, a: Addr)
    requires TwoHeld(s, n, k, c, m, x)
    ensures HeldBy(s, a.queue, a.id, c) <==> a == Addr(n, m.id) || a == Addr(k, x.id)
    ensures Orphaned(s, Addr(n, m.id))
  {
    assert a.queue in s.queues && a.queue == n ==> (a.id in s.queues[n].inflight <==> a.id in s.queues[n].inflight.Keys);
    assert a.queue in s.queues && a.queue == k ==> (a.id in s.queues[k].inflight <==> a.id in s.queues[k].inflight.Keys);
  }

  lemma RecoverOne(s: State, a: Addr, now: Time)
    requires a.queue in s.queues
    ensures Recover(s, [a], now, true) == Expire(s, a.queue, a.id, now, true) && Recover(s, [], now, true) == s
  {
    hide Expire;
    assert [a][1..] == [];
  }

  lemma TakenOne(s: State, n: QName, k: QName, c: ConsumerId, m: Message, x: Message, now: Time)
    requires TwoHeld(s, n, k, c, m, x)
    ensures TakenBack(s, c, [Addr(n, m.id)], {k}, now, true) && Grows(s, [Addr(n, m.id)], now, true)
  {
    hide TwoHeld, HeldBy, Orphaned, Recover;
    var a := Addr(n, m.id);
    TwoHeldQueues(s, n, k, c, m, x);
    RecoverOne(s, a, now);
    ExpireGrows(s, a, now, true);
    forall b: Addr
      ensures HeldBy(s, b.queue, b.id, c) <==> b == a || b == Addr(k, x.id)
      ensures Orphaned(s, a)
    {
      TwoHeldBy(s, n, k, c, m, x, b);
    }
    TwoHeldBy(s, n, k, c, m, x, a);
    assert [a][..0] == [] && [a][0..] == [a];
    assert !Grows(s, [a][..0], now, true) && OneQueue([a][0..]);
  }

  lemma TwoHeldQueues(s: State, n: QName, k: QName, c: ConsumerId, m: Message, x: Message)
    requires TwoHeld(s, n, k, c, m, x)
    ensures n != k && n in s.queues && k in s.queues
  {
  }

  lemma CoreTwo(s: State, s': State, n: QName, k: QName, c: ConsumerId, m: Message, x: Message)
    requires SameCore(s, s') && TwoHeld(s, n, k, c, m, x)
    ensures TwoHeld(s', n, k, c, m, x)
  {
    hide DlqName;
    assert forall y :: y in s.queues <==> y in s'.queues.Keys;
    assert Plain(s'.queues[n]) == Plain(s.queues[n]) && Plain(s'.queues[k]) == Plain(s.queues[k]);
    forall y | y in s'.queues && y != n && y != k
      ensures s'.queues[y].inflight == map[]
    {
      assert Plain(s'.queues[y]) == Plain(s.queues[y]);
    }
  }

  /** Cancelling the consumer ends in an error if its first delivery is visited first, and it keeps the other. */
  lemma CancelStops(b: Broker, n: QName, k: QName, c: ConsumerId, m: Message, x: Message, now: Time)
    requires TwoHeld(b.engine, n, k, c, m, x) && c in b.consumers
    ensures
      var ev := BrokerEvent(DoCancel(c, [Addr(n, m.id)], {k}), now);
      && BrokerAllowed(b, ev) && Stops(b, ev, c)
      && c !in BrokerStep(b, ev).consumers && HeldSet(BrokerStep(b, ev).engine, c) == {Addr(k, x.id)}
  {
    hide TwoHeld, HeldBy, Orphaned, Recover, TakenBack, Grows, LeaveAll, SameCore, HeldSet;
    var s1 := Dismiss(b, c).engine;
    LeaveAllCore(b.engine, b.consumers[c].queues, c);
    CoreTwo(b.engine, s1, n, k, c, m, x);
    TakenOne(s1, n, k, c, m, x, now);
    TakenFacts(s1, c, [Addr(n, m.id)], {k}, now, true);
    CancelLeaves(b, c, [Addr(n, m.id)], {k}, now);
    TwoHeldQueues(b.engine, n, k, c, m, x);
    forall a: Addr
      ensures a in HeldSet(b.engine, c) && a.queue in {k} <==> a == Addr(k, x.id)
    {
      TwoHeldBy(b.engine, n, k, c, m, x, a);
      HeldMeaning(b.engine, a, c);
    }
  }

  // ----- the whole run -----

  /** What the run needs of the names and the messages. */
  predicate Suitable(cfg: Config, n: QName, k: QName, m: Message, x: Message) {
    && !IsDlq(n) && !IsDlq(k) && n != k && m.queue == n && x.queue == k && m.id != x.id
    && m.availableAt == None && x.availableAt == None && m.attempts + 1 >= m.maxAttempts
    && (cfg.maxLength.Some? ==> cfg.maxLength.value > 0)
  }

  function Setup(n: QName, k: QName, c: ConsumerId, conn: ConnId, now: Time): seq<BrokerEvent> {
    [BrokerEvent(DoEngine(DoDeclare(n, DEFAULT_ARGS)), now), BrokerEvent(DoEngine(DoDelete(DlqName(n))), now),
     BrokerEvent(DoEngine(DoDeclare(k, NO_LETTERS)), now), BrokerEvent(DoRegister(c, conn, [n, k], 0), now)]
  }

  function Delivering(n: QName, k: QName, m: Message, x: Message, now: Time): seq<BrokerEvent> {
    [BrokerEvent(DoEngine(DoPublish(m)), now), BrokerEvent(DoEngine(DoPublish(x)), now),
     BrokerEvent(DoGet(n), now), BrokerEvent(DoGet(k), now)]
  }

  /** A consumer of two queues, the dead-letter queue of the first deleted. */
  predicate TwoJoined(b: Broker, n: QName, k: QName, c: ConsumerId) {
    && n != k && n in b.engine.queues && k in b.engine.queues && b.engine.byId == map[]
    && Joined(b.engine.queues[n], c) && Joined(b.engine.queues[k], c)
    && b.engine.queues[n].spec.deadLetter && DlqName(n) !in b.engine.queues
    && (forall y :: y in b.engine.queues && y != n && y != k ==> b.engine.queues[y].inflight == map[])
    && c in b.consumers && b.consumers[c].prefetch <= 0
  }

  lemma RunConcat(b: Broker, first: seq<BrokerEvent>, rest: seq<BrokerEvent>)
    requires BrokerRunOk(b, first) && BrokerRunOk(BrokerRun(b, first), rest)
    ensures BrokerRunOk(b, first + rest) && BrokerRun(b, first + rest) == BrokerRun(BrokerRun(b, first), rest)
    decreases |first|
  {
    hide BrokerAllowed, BrokerStep;
    if first == [] {
      assert first + rest == rest;
    } else {
      assert (first + rest)[1..] == first[1..] + rest;
      RunConcat(BrokerStep(b, first[0]), first[1..], rest);
    }
  }

  lemma RunFour(b: Broker, b1: Broker, b2: Broker, b3: Broker, b4: Broker, run: seq<BrokerEvent>)
    requires |run| == 4
    requires BrokerAllowed(b, run[0]) && b1 == BrokerStep(b, run[0]) && BrokerAllowed(b1, run[1]) && b2 == BrokerStep(b1, run[1])
    requires BrokerAllowed(b2, run[2]) && b3 == BrokerStep(b2, run[2]) && BrokerAllowed(b3, run[3]) && b4 == BrokerStep(b3, run[3])
    ensures BrokerRunOk(b, run) && BrokerRun(b, run) == b4
  {
    hide BrokerAllowed, BrokerStep;
    RunNext(b3, run[3], []);
    RunNext(b2, run[2], [run[3]]);
    assert [run[2]] + [run[3]] == [run[2], run[3]] && [run[3]] + [] == [run[3]];
    RunNext(b1, run[1], [run[2], run[3]]);
    assert [run[1]] + [run[2], run[3]] == [run[1], run[2], run[3]];
    RunNext(b, run[0], [run[1], run[2], run[3]]);
    assert [run[0]] + [run[1], run[2], run[3]] == run;
  }

  lemma SetupJoined(cfg: Config, n: QName, k: QName, c: ConsumerId, conn: ConnId, now: Time)
    requires !IsDlq(n) && !IsDlq(k) && n != k && (cfg.maxLength.Some? ==> cfg.maxLength.value > 0)
    ensures BrokerRunOk(Start(cfg), Setup(n, k, c, conn, now))
    ensures TwoJoined(BrokerRun(Start(cfg), Setup(n, k, c, conn, now)), n, k, c)
  {
    hide IsDlq, Declare, Delete, JoinAll, DlqName, Empty, Joined;
    var b := Start(cfg);
    var s1 := Declare(Init(cfg), n, DEFAULT_ARGS, true);
    var s2 := Delete(s1, DlqName(n), true).0;
    var s3 := Declare(s2, k, NO_LETTERS, true);
    StartTwo(cfg, n, k);
    JoinBoth(s3, n, k, c);
    var run := Setup(n, k, c, conn, now);
    var b4 := Register(b.(engine := s3), c, conn, [n, k], 0);
    RunFour(b, b.(engine := s1), b.(engine := s2), b.(engine := s3), b4, run);
    forall y | y in b4.engine.queues && y != n && y != k
      ensures b4.engine.queues[y].inflight == map[]
    {
      assert y in s3.queues.Keys;
      EmptyIdle(b4.engine.queues[y]);
    }
    assert DlqName(n) !in b4.engine.queues.Keys;
  }

  lemma EmptyIdle(q: Queue)
    requires Empty(q)
    ensures q.inflight == map[]
  {
  }

  /** A message is ready in each of the two queues. */
  predicate TwoReady(b: Broker, n: QName, k: QName, c: ConsumerId, m: Message, x: Message) {
    && n != k && n in b.engine.queues && k in b.engine.queues
    && OneReady(b.engine.queues[n], c, m) && OneReady(b.engine.queues[k], c, x)
    && b.engine.queues[n].spec.deadLetter && DlqName(n) !in b.engine.queues
    && (forall y :: y in b.engine.queues && y != n && y != k ==> b.engine.queues[y].inflight == map[])
    && c in b.consumers && b.consumers[c].prefetch <= 0
  }

  lemma BothReady(cfg: Config, b: Broker, n: QName, k: QName, c: ConsumerId, m: Message, x: Message, now: Time)
    requires Suitable(cfg, n, k, m, x) && TwoJoined(b, n, k, c)
    ensures
      var s1 := Enqueue(b.engine, m, now, true).0;
      var b2 := b.(engine := Enqueue(s1, x, now, true).0);
      x.id !in s1.byId && TwoReady(b2, n, k, c, m, x)
  {
    hide IsDlq, Enqueue, DlqName, Joined, OneReady;
    var s1 := Enqueue(b.engine, m, now, true).0;
    PublishOne(b.engine, m, c, now);
    PublishOne(s1, x, c, now);
  }

  lemma BothGot(cfg: Config, b: Broker, n: QName, k: QName, c: ConsumerId, m: Message, x: Message, now: Time)
    requires Suitable(cfg, n, k, m, x) && TwoReady(b, n, k, c, m, x)
    ensures
      var b' := TryReserve(TryReserve(b, n, now).0, k, now).0;
      TwoHeld(b'.engine, n, k, c, m, x) && c in b'.consumers
  {
    hide IsDlq, TryReserve, DlqName, OneReady, OneHeld;
    GetOne(b, n, c, m, now);
    GetOne(TryReserve(b, n, now).0, k, c, x, now);
  }

  lemma BothHeld(cfg: Config, b: Broker, n: QName, k: QName, c: ConsumerId, m: Message, x: Message, now: Time)
    requires Suitable(cfg, n, k, m, x) && TwoJoined(b, n, k, c)
    ensures BrokerRunOk(b, Delivering(n, k, m, x, now))
    ensures
      var b' := BrokerRun(b, Delivering(n, k, m, x, now));
      TwoHeld(b'.engine, n, k, c, m, x) && c in b'.consumers
  {
    hide IsDlq, Enqueue, TryReserve, DlqName, Joined, TwoReady, TwoHeld;
    var b1 := b.(engine := Enqueue(b.engine, m, now, true).0);
    var b2 := b.(engine := Enqueue(b1.engine, x, now, true).0);
    var b3 := TryReserve(b2, n, now).0;
    BothReady(cfg, b, n, k, c, m, x, now);
    BothGot(cfg, b2, n, k, c, m, x, now);
    RunFour(b, b1, b2, b3, TryReserve(b3, k, now).0, Delivering(n, k, m, x, now));
  }

  /** From a new broker: a queue whose dead-letter queue is deleted, a second queue, a consumer of both that gets a
      message from each, of which the first dies with its next failure. If the first queue is visited first,
      cancelling the consumer raises an error, and the consumer, which is not registered any more, still holds
      the second message. */
  lemma CancelStopsReached(cfg: Config, n: QName, k: QName, c: ConsumerId, conn: ConnId, m: Message, x: Message, now: Time)
    requires Suitable(cfg, n, k, m, x)
    ensures
      var cancel := BrokerEvent(DoCancel(c, [Addr(n, m.id)], {k}), now);
      var run := Setup(n, k, c, conn, now) + Delivering(n, k, m, x, now) + [cancel];
      && BrokerRunOk(Start(cfg), run)
      && var b := BrokerRun(Start(cfg), run);
      c !in b.consumers && HeldSet(b.engine, c) == {Addr(k, x.id)}
  {
    hide BrokerAllowed, BrokerStep, BrokerRunOk, BrokerRun, TwoJoined, TwoHeld, HeldSet, Setup, Delivering, IsDlq;
    var first, second := Setup(n, k, c, conn, now), Delivering(n, k, m, x, now);
    var cancel := BrokerEvent(DoCancel(c, [Addr(n, m.id)], {k}), now);
    SetupJoined(cfg, n, k, c, conn, now);
    var b4 := BrokerRun(Start(cfg), first);
    BothHeld(cfg, b4, n, k, c, m, x, now);
    var b8 := BrokerRun(b4, second);
    RunConcat(Start(cfg), first, second);
    CancelStops(b8, n, k, c, m, x, now);
    RunLast(b8, cancel);
    RunConcat(Start(cfg), first + second, [cancel]);
  }

  lemma RunLast(b: Broker, ev: BrokerEvent)
    requires BrokerAllowed(b, ev)
    ensures BrokerRunOk(b, [ev]) && BrokerRun(b, [ev]) == BrokerStep(b, ev)
  {
    hide BrokerAllowed, BrokerStep;
    RunNext(b, ev, []);
    assert [ev] + [] == [ev];
  }
}
