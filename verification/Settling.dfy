/** What pumping a queue and settling a delivery do to every consumer's account and to every message. */
module Settling {
  import opened Types
  import opened Engine
  import opened Invariant
  import opened InvariantOps
  import opened Places
  import opened Consumers
  import opened Deliveries
  import opened Prefetch
  import opened BrokerInv
  import opened Rooms

  /** Nothing is ready in the queue, or no listed consumer has room. */
  ghost predicate Quiet(b: Broker, n: QName) {
    n in b.engine.queues ==> b.engine.queues[n].ready == [] || !SomeRoom(b, n)
  }

  /** Every send succeeds. */
  ghost predicate AllGoOut(send: (ConsumerId, Id) -> bool) {
    forall c, id :: send(c, id)
  }

  // ----- pumping one queue -----

  /** A message that pumping a queue may touch: ready in it before, and then in flight at a consumer that it was
      sent to. */
  ghost predicate Handed(s: State, s': State, n: QName, x: Id, now: Time, send: (ConsumerId, Id) -> bool) {
    var (p, p') := (PlaceOf(s, x), PlaceOf(s', x));
    && p.ReadyIn? && p.queue == n && n in s.queues && p'.InflightIn? && send(p'.delivery.consumer, x)
    && p' == InflightIn(n, p.message, Delivery(x, n, p'.delivery.consumer, now, now + s.queues[n].spec.visibilityTimeout))
  }

  /** A message that was ready and could not be sent to a consumer: its delivery has failed. */
  ghost predicate SentBack(s: State, s': State, n: QName, x: Id, now: Time, send: (ConsumerId, Id) -> bool) {
    var p := PlaceOf(s, x);
    && p.ReadyIn? && p.queue == n && n in s.queues && (exists c :: !send(c, x))
    && PlaceOf(s', x) == AfterFailure(s.cfg, s.queues[n].spec.deadLetter, n, p.message, now)
  }

  ghost predicate PumpedBut(s: State, s': State, n: QName, now: Time, send: (ConsumerId, Id) -> bool, bad: Option<Id>) {
    && (bad.Some? ==> SentBack(s, s', n, bad.value, now, send))
    && forall x :: bad != Some(x) ==> PlaceOf(s', x) == PlaceOf(s, x) || Handed(s, s', n, x, now, send)
  }

  lemma PumpNext(b: Broker, n: QName, now: Time, send: (ConsumerId, Id) -> bool)
    ensures
      var (b1, r) := TryReserve(b, n, now);
      Pump(b, n, now, send) ==
      if r == None then b1
      else if send(r.value.consumer, r.value.message.id) then Pump(b1, n, now, send)
      else OnAck(b1.(engine := Nack(b1.engine, r.value.message.id, true, now, true).0), r.value.consumer)
    ensures TryReserve(b, n, now).1.Some? ==> ReadyCount(TryReserve(b, n, now).0, n) < ReadyCount(b, n)
  {
    hide TryReserve, Nack, OnAck;
    TryReserveShortens(b, n, now);
  }

  lemma SentFirst(s: State, s1: State, s': State, n: QName, id: Id, c: ConsumerId, m: Message, now: Time,
                  send: (ConsumerId, Id) -> bool, bad: Option<Id>)
    requires OnlyQueue(s, s1, n) && n in s.queues && SameElsewhere(s, s1, id) && send(c, id)
    requires PlaceOf(s, id) == ReadyIn(n, m)
    requires PlaceOf(s1, id) == InflightIn(n, m, Delivery(id, n, c, now, now + s.queues[n].spec.visibilityTimeout))
    requires PumpedBut(s1, s', n, now, send, bad)
    ensures PumpedBut(s, s', n, now, send, bad)
  {
    hide PlaceOf, AfterFailure;
    FailureSpec(s, s1, n);
  }

  lemma SentTrans(a: Broker, b: Broker, c: Broker, send: (ConsumerId, Id) -> bool)
    requires AllSent(a, b, send) && AllSent(b, c, send)
    ensures AllSent(a, c, send)
  {
    hide HeldSet;
  }

  lemma FirstSent(b: Broker, b1: Broker, n: QName, id: Id, c: ConsumerId, send: (ConsumerId, Id) -> bool)
    requires HeldSet(b1.engine, c) == HeldSet(b.engine, c) + {Addr(n, id)} && send(c, id)
    requires forall x :: x != c ==> HeldSet(b1.engine, x) == HeldSet(b.engine, x)
    ensures AllSent(b, b1, send)
  {
    hide HeldSet;
  }

  lemma NoneSent(b: Broker, b': Broker, send: (ConsumerId, Id) -> bool)
    requires forall c :: HeldSet(b'.engine, c) == HeldSet(b.engine, c)
    ensures AllSent(b, b', send)
  {
    hide HeldSet;
  }

  lemma AttemptQuiet(b: Broker, n: QName, now: Time)
    requires Inv(b.engine) && TryReserve(b, n, now).1 == None
    ensures Quiet(TryReserve(b, n, now).0, n)
  {
    hide Inv, TryReserve, PlaceOf, Room, FirstInTurn;
    var b' := TryReserve(b, n, now).0;
    TryReserveRule(b, n, now);
    TryQueues(b, n, now);
    if n in b'.engine.queues {
      assert n in b.engine.queues.Keys;
      forall id
        ensures Room(b', id) <==> Room(b, id)
      {
        SameRoom(b, b', id);
      }
    }
  }

  lemma SameRoom(b: Broker, b': Broker, id: ConsumerId)
    requires b'.consumers == b.consumers
    ensures Room(b', id) <==> Room(b, id)
  {
  }

  /** pump_queue. Every account grows by the deliveries that its consumer got, each of which was sent; every other
      message stays where it is. Pumping ends when nothing is ready or nobody has room, or with the first message
      that cannot be sent: that one counts as a failed delivery, and as none in any account. */
  lemma {:induction false} PumpEffect(b: Broker, n: QName, now: Time, send: (ConsumerId, Id) -> bool) returns (bad: Option<Id>)
    requires Inv(b.engine) && now > 0 && b.engine.cfg.baseDelay >= 0
    ensures
      var b' := Pump(b, n, now, send);
      && Inv(b'.engine) && b'.engine.cfg == b.engine.cfg
      && Gave(b, b') && AllSent(b, b', send)
      && PumpedBut(b.engine, b'.engine, n, now, send, bad)
      && (bad == None ==> Quiet(b', n))
      && (AllGoOut(send) ==> bad == None && OnlyQueue(b.engine, b'.engine, n))
    decreases ReadyCount(b, n)
  {
    hide Inv, TryReserve, PlaceOf, HeldSet, Gave, AllSent, Nack, OnAck, AfterFailure, FirstInTurn, SomeRoom, Pump, Quiet,
      SameElsewhere, ReadyCount;
    var (b1, r) := TryReserve(b, n, now);
    PumpNext(b, n, now, send);
    TryReserveRule(b, n, now);
    TryQueues(b, n, now);
    TryGives(b, n, now);
    TryInv(b, n, now);
    if r == None {
      bad := None;
      AttemptQuiet(b, n, now);
      NoneSent(b, b1, send);
    } else {
      var (c, id) := (r.value.consumer, r.value.message.id);
      if send(c, id) {
        bad := PumpEffect(b1, n, now, send);
        var b' := Pump(b1, n, now, send);
        GaveTrans(b, b1, b');
        FirstSent(b, b1, n, id, c, send);
        SentTrans(b, b1, b', send);
        SentFirst(b.engine, b1.engine, b'.engine, n, id, c, r.value.message, now, send, bad);
        OnlyTrans(b.engine, b1.engine, b'.engine, n);
      } else {
        bad := Some(id);
        GivenBack(b, n, now);
        var b' := Pump(b, n, now, send);
        SameAccounts(b, b');
        NoneSent(b, b', send);
        OneSentBack(b.engine, b'.engine, n, id, c, now, send);
      }
    }
  }

  lemma OnlyTrans(a: State, b: State, c: State, n: QName)
    requires OnlyQueue(a, b, n)
    ensures OnlyQueue(b, c, n) ==> OnlyQueue(a, c, n)
  {
    if OnlyQueue(b, c, n) {
      forall x | x in a.queues && x in c.queues
        ensures x in b.queues
      {
        assert x in a.queues.Keys && x in b.queues.Keys;
      }
    }
  }

  lemma OneSentBack(s: State, s': State, n: QName, id: Id, c: ConsumerId, now: Time, send: (ConsumerId, Id) -> bool)
    requires SameElsewhere(s, s', id) && !send(c, id) && n in s.queues
    requires var p := PlaceOf(s, id); p.ReadyIn? && p.queue == n
    requires PlaceOf(s', id) == AfterFailure(s.cfg, s.queues[n].spec.deadLetter, n, PlaceOf(s, id).message, now)
    ensures PumpedBut(s, s', n, now, send, Some(id))
  {
    hide PlaceOf, AfterFailure;
  }

  // ----- pumping all queues of a consumer -----

  /** Accounts only grow, so nobody gains room. */
  lemma QuietStays(b: Broker, b': Broker, n: QName, m: QName)
    requires Gave(b, b') && OnlyQueue(b.engine, b'.engine, n) && Quiet(b', n) && Quiet(b, m)
    ensures Quiet(b', m)
  {
    hide HeldSet, Room;
    if m != n && m in b'.engine.queues {
      assert m in b.engine.queues.Keys;
      forall id | Room(b', id)
        ensures Room(b, id)
      {
        LessRoom(b, b', id);
      }
    }
  }

  lemma LessRoom(b: Broker, b': Broker, id: ConsumerId)
    requires Gave(b, b') && Room(b', id)
    ensures Room(b, id)
  {
    hide HeldSet;
    assert id in b'.consumers.Keys;
  }

  /** A message that is not ready stays where it is. */
  ghost predicate Untouched(s: State, s': State) {
    forall x :: !PlaceOf(s, x).ReadyIn? ==> PlaceOf(s', x) == PlaceOf(s, x)
  }

  lemma PumpUntouched(s: State, s': State, n: QName, now: Time, send: (ConsumerId, Id) -> bool, bad: Option<Id>)
    requires PumpedBut(s, s', n, now, send, bad)
    ensures Untouched(s, s')
  {
    hide PlaceOf, AfterFailure;
  }

  lemma UntouchedTrans(a: State, b: State, c: State)
    requires Untouched(a, b) && Untouched(b, c)
    ensures Untouched(a, c)
  {
    hide PlaceOf;
  }

  lemma {:induction false} PumpAllEffect(b: Broker, names: seq<QName>, now: Time, send: (ConsumerId, Id) -> bool)
    requires Inv(b.engine) && now > 0 && b.engine.cfg.baseDelay >= 0
    ensures
      var b' := PumpAll(b, names, now, send);
      && Inv(b'.engine) && b'.engine.cfg == b.engine.cfg
      && Gave(b, b') && AllSent(b, b', send) && Untouched(b.engine, b'.engine)
      && (AllGoOut(send) ==> forall m :: m in names || Quiet(b, m) ==> Quiet(b', m))
    decreases |names|
  {
    hide Inv, PlaceOf, HeldSet, Gave, AllSent, Pump, Quiet, OnlyQueue, PumpedBut, Untouched;
    if names == [] {
      GaveItself(b);
      NoneSent(b, b, send);
      SameUntouched(b.engine);
    } else {
      var b1 := Pump(b, names[0], now, send);
      var b' := PumpAll(b1, names[1..], now, send);
      var bad := PumpEffect(b, names[0], now, send);
      PumpAllEffect(b1, names[1..], now, send);
      GaveTrans(b, b1, b');
      SentTrans(b, b1, b', send);
      PumpUntouched(b.engine, b1.engine, names[0], now, send, bad);
      UntouchedTrans(b.engine, b1.engine, b'.engine);
      if AllGoOut(send) {
        forall m | m in names || Quiet(b, m)
          ensures Quiet(b', m)
        {
          if m !in names[1..] {
            if m != names[0] {
              QuietStays(b, b1, names[0], m);
            }
          }
        }
      }
    }
  }

  lemma SameUntouched(s: State)
    ensures Untouched(s, s)
  {
    hide PlaceOf;
  }

  // ----- settling a delivery -----

  /** One delivery of a consumer less. */
  ghost predicate GaveUp(b: Broker, b': Broker, a: Addr, c: ConsumerId) {
    && (forall x: ConsumerId :: HeldSet(b'.engine, x) == if x == c then HeldSet(b.engine, x) - {a} else HeldSet(b.engine, x))
    && b'.byConnection == b.byConnection && b'.consumers.Keys == b.consumers.Keys
    && forall x :: x in b.consumers && x in b'.consumers ==>
         b'.consumers[x] ==
         if x == c && b.consumers[x].unacked > 0 then b.consumers[x].(unacked := b.consumers[x].unacked - 1) else b.consumers[x]
  }

  lemma OneTaken(s: State, s': State, id: Id)
    requires Inv(s) && Inv(s') && SameElsewhere(s, s', id) && PlaceOf(s, id).InflightIn? && !PlaceOf(s', id).InflightIn?
    ensures
      var (c, a) := (PlaceOf(s, id).delivery.consumer, Addr(PlaceOf(s, id).queue, id));
      forall x: ConsumerId :: HeldSet(s', x) == if x == c then HeldSet(s, x) - {a} else HeldSet(s, x)
  {
    hide Inv, PlaceOf, HeldSet;
    var (c, n) := (PlaceOf(s, id).delivery.consumer, PlaceOf(s, id).queue);
    forall x: ConsumerId
      ensures HeldSet(s', x) == if x == c then HeldSet(s, x) - {Addr(n, id)} else HeldSet(s, x)
    {
      forall a: Addr
        ensures a in HeldSet(s', x) <==> a in HeldSet(s, x) && !(x == c && a == Addr(n, id))
      {
        HeldByPlace(s, a, x);
        HeldByPlace(s', a, x);
      }
    }
  }

  lemma TakenFrom(b: Broker, engine: State, id: Id)
    requires Inv(b.engine) && Inv(engine) && SameElsewhere(b.engine, engine, id)
    requires PlaceOf(b.engine, id).InflightIn? && !PlaceOf(engine, id).InflightIn?
    ensures
      var p := PlaceOf(b.engine, id);
      GaveUp(b, OnAck(b.(engine := engine), p.delivery.consumer), Addr(p.queue, id), p.delivery.consumer)
  {
    hide Inv, PlaceOf, HeldSet, SameElsewhere;
    OneTaken(b.engine, engine, id);
    var c := PlaceOf(b.engine, id).delivery.consumer;
    assert OnAck(b.(engine := engine), c).consumers.Keys == b.consumers.Keys;
  }

  /** What a command that settles delivery "a" of consumer "c" leaves, if "s1" is the engine right after: no other
      delivery is taken back, every new one was sent, and every account is the old one, less one for the delivery
      that was settled, plus one for each new delivery of its consumer. The messages that are not ready after the
      settling stay where they are. If every send succeeds, then each queue of the consumer has nothing ready, or
      none of its consumers has room. */
  ghost predicate Settled(b: Broker, s1: State, b': Broker, a: Addr, c: ConsumerId, send: (ConsumerId, Id) -> bool) {
    && b'.consumers.Keys == b.consumers.Keys && b'.byConnection == b.byConnection
    && (forall x: ConsumerId :: HeldSet(b.engine, x) - {a} <= HeldSet(b'.engine, x))
    && (forall x: ConsumerId :: x in b.consumers && x in b'.consumers ==>
          b'.consumers[x] ==
          b.consumers[x].(unacked := (if x == c && b.consumers[x].unacked > 0 then b.consumers[x].unacked - 1
                                      else b.consumers[x].unacked)
                                     + |HeldSet(b'.engine, x) - (HeldSet(b.engine, x) - {a})|))
    && (forall x: ConsumerId, d: Addr :: d in HeldSet(b'.engine, x) && d !in HeldSet(b.engine, x) ==> send(x, d.id))
    && Untouched(s1, b'.engine)
    && (c in b.consumers && AllGoOut(send) ==> forall n :: n in b.consumers[c].queues ==> Quiet(b', n))
    && (c !in b.consumers ==> b'.consumers == b.consumers && b'.engine == s1)
  }

  lemma OthersHold(b: Broker, a: Addr, c: ConsumerId, x: ConsumerId)
    requires Inv(b.engine) && a in HeldSet(b.engine, c) && x != c
    ensures a !in HeldSet(b.engine, x)
  {
    hide Inv, PlaceOf;
  }

  lemma SettledHeld(b: Broker, b1: Broker, a: Addr, c: ConsumerId, x: ConsumerId)
    requires Inv(b.engine) && a in HeldSet(b.engine, c) && GaveUp(b, b1, a, c)
    ensures HeldSet(b1.engine, x) == HeldSet(b.engine, x) - {a}
  {
    hide Inv, HeldSet;
    if x != c {
      OthersHold(b, a, c, x);
    }
  }

  /** The account of one consumer. */
  lemma SettledAccount(b: Broker, b1: Broker, b': Broker, a: Addr, c: ConsumerId, x: ConsumerId)
    requires Inv(b.engine) && a in HeldSet(b.engine, c) && GaveUp(b, b1, a, c) && Gave(b1, b')
    ensures HeldSet(b.engine, x) - {a} <= HeldSet(b'.engine, x) && HeldSet(b1.engine, x) == HeldSet(b.engine, x) - {a}
    ensures x in b.consumers && x in b'.consumers ==>
      b'.consumers[x] ==
      b.consumers[x].(unacked := (if x == c && b.consumers[x].unacked > 0 then b.consumers[x].unacked - 1
                                  else b.consumers[x].unacked)
                                 + |HeldSet(b'.engine, x) - (HeldSet(b.engine, x) - {a})|)
  {
    hide Inv, HeldSet;
    SettledHeld(b, b1, a, c, x);
    assert x in b1.consumers.Keys <==> x in b.consumers.Keys;
  }

  lemma SettledKeys(b: Broker, b1: Broker, b': Broker, a: Addr, c: ConsumerId)
    requires GaveUp(b, b1, a, c) && Gave(b1, b')
    ensures b'.consumers.Keys == b.consumers.Keys && b'.byConnection == b.byConnection
  {
    hide HeldSet;
  }

  lemma SettledThen(b: Broker, b1: Broker, b': Broker, a: Addr, c: ConsumerId, send: (ConsumerId, Id) -> bool)
    requires Inv(b.engine) && a in HeldSet(b.engine, c) && GaveUp(b, b1, a, c) && Gave(b1, b') && AllSent(b1, b', send)
    requires Untouched(b1.engine, b'.engine)
    requires c in b.consumers && AllGoOut(send) ==> forall n :: n in b.consumers[c].queues ==> Quiet(b', n)
    requires c !in b.consumers ==> b' == b1 && b1.consumers == b.consumers
    ensures Settled(b, b1.engine, b', a, c, send)
  {
    hide Inv, HeldSet, Quiet, Untouched, AllGoOut, GaveUp, Gave;
    SettledKeys(b, b1, b', a, c);
    forall x: ConsumerId
      ensures HeldSet(b.engine, x) - {a} <= HeldSet(b'.engine, x) && HeldSet(b1.engine, x) == HeldSet(b.engine, x) - {a}
      ensures x in b.consumers && x in b'.consumers ==>
        b'.consumers[x] ==
        b.consumers[x].(unacked := (if x == c && b.consumers[x].unacked > 0 then b.consumers[x].unacked - 1
                                    else b.consumers[x].unacked)
                                   + |HeldSet(b'.engine, x) - (HeldSet(b.engine, x) - {a})|)
    {
      SettledAccount(b, b1, b', a, c, x);
    }
  }

  /** The holder of a message in flight. */
  lemma HolderKnown(s: State, id: Id)
    requires Inv(s) && PlaceOf(s, id).InflightIn?
    ensures InflightConsumer(s, id) == Some(PlaceOf(s, id).delivery.consumer)
    ensures Addr(PlaceOf(s, id).queue, id) in HeldSet(s, PlaceOf(s, id).delivery.consumer)
  {
    hide PartsOk, HeapsOk, Index.TablesAgree;
    var p := PlaceOf(s, id);
    HeldByPlace(s, Addr(p.queue, id), p.delivery.consumer);
  }

  /** cmd_ack: a delivery that is acknowledged frees one place of its consumer's account, which is filled again at
      once from the consumer's queues, as far as messages are ready and sends succeed. */
  lemma CmdAckEffect(b: Broker, id: Id, now: Time, send: (ConsumerId, Id) -> bool)
    requires Inv(b.engine) && now > 0 && b.engine.cfg.baseDelay >= 0
    ensures
      var (b', r) := CmdAck(b, id, now, send);
      var p := PlaceOf(b.engine, id);
      && (r == AckOk <==> id !in b.engine.recentAcks && p.InflightIn?)
      && (r != AckOk ==> b' == b)
      && (r == AckOk ==>
            && Settled(b, Ack(b.engine, id, true).0, b', Addr(p.queue, id), p.delivery.consumer, send)
            && PlaceOf(b'.engine, id) == Gone)
  {
    hide Inv, Ack, PlaceOf, HeldSet, PumpAll, OnAck, Settled, GaveUp, Gave, AllSent, Untouched, Quiet, AllGoOut,
      InflightConsumer, SameElsewhere;
    var s1 := Ack(b.engine, id, true).0;
    AckPlace(b.engine, id, true);
    AckInv(b.engine, id, true);
    AckCfg(b.engine, id);
    if Ack(b.engine, id, true).1 == AckOk {
      HolderKnown(b.engine, id);
      TakenFrom(b, s1, id);
      SettleEffect(b, s1, id, now, send);
      StillGone(s1, CmdAck(b, id, now, send).0.engine, id);
    }
  }

  lemma StillGone(s1: State, s': State, id: Id)
    requires Untouched(s1, s') && PlaceOf(s1, id) == Gone
    ensures PlaceOf(s', id) == Gone
  {
    hide PlaceOf;
  }

  lemma OnAckEngine(b: Broker, c: ConsumerId)
    ensures OnAck(b, c).engine == b.engine && (c in OnAck(b, c).consumers <==> c in b.consumers)
    ensures c in b.consumers ==> OnAck(b, c).consumers[c].queues == b.consumers[c].queues
    ensures c !in b.consumers ==> OnAck(b, c) == b
  {
  }

  lemma SettleEffect(b: Broker, s1: State, id: Id, now: Time, send: (ConsumerId, Id) -> bool)
    requires Inv(b.engine) && Inv(s1) && s1.cfg == b.engine.cfg && now > 0 && b.engine.cfg.baseDelay >= 0
    requires SameElsewhere(b.engine, s1, id) && PlaceOf(b.engine, id).InflightIn? && !PlaceOf(s1, id).InflightIn?
    ensures
      var p := PlaceOf(b.engine, id);
      var c := p.delivery.consumer;
      var b1 := OnAck(b.(engine := s1), c);
      var b' := if c in b1.consumers then PumpAll(b1, b1.consumers[c].queues, now, send) else b1;
      Settled(b, s1, b', Addr(p.queue, id), c, send) && Untouched(s1, b'.engine)
  {
    hide Inv, PlaceOf, HeldSet, PumpAll, OnAck, Settled, GaveUp, Gave, AllSent, Untouched, Quiet, AllGoOut, SameElsewhere;
    var p := PlaceOf(b.engine, id);
    var c := p.delivery.consumer;
    var b1 := OnAck(b.(engine := s1), c);
    HolderKnown(b.engine, id);
    TakenFrom(b, s1, id);
    OnAckEngine(b.(engine := s1), c);
    if c in b1.consumers {
      PumpAllEffect(b1, b1.consumers[c].queues, now, send);
      SettledThen(b, b1, PumpAll(b1, b1.consumers[c].queues, now, send), Addr(p.queue, id), c, send);
    } else {
      GaveItself(b1);
      NoneSent(b1, b1, send);
      SameUntouched(s1);
      SettledThen(b, b1, b1, Addr(p.queue, id), c, send);
    }
  }

  /** cmd_nack: the same for a refusal, which sends the message where a failed or dead message goes. */
  lemma CmdNackEffect(b: Broker, id: Id, requeue: bool, now: Time, send: (ConsumerId, Id) -> bool)
    requires Inv(b.engine) && now > 0 && b.engine.cfg.baseDelay >= 0
    ensures
      var (b', r) := CmdNack(b, id, requeue, now, send);
      var (p, s1) := (PlaceOf(b.engine, id), Nack(b.engine, id, requeue, now, true).0);
      && (r == NackOk <==> p.InflightIn?)
      && (r != NackOk ==> b' == b)
      && (r == NackOk ==>
            && Settled(b, s1, b', Addr(p.queue, id), p.delivery.consumer, send)
            && SameElsewhere(b.engine, s1, id) && p.queue in b.engine.queues
            && PlaceOf(s1, id) ==
               (if requeue then AfterFailure(b.engine.cfg, b.engine.queues[p.queue].spec.deadLetter, p.queue, p.message, now)
                else AfterDeath(b.engine.queues[p.queue].spec.deadLetter, p.queue, p.message)))
  {
    hide Inv, Nack, PlaceOf, HeldSet, PumpAll, OnAck, Settled, GaveUp, Gave, AllSent, Untouched, Quiet, AllGoOut,
      InflightConsumer, SameElsewhere, Backoffs.RetryDelay, DeadMessage;
    var s1 := Nack(b.engine, id, requeue, now, true).0;
    NackPlace(b.engine, id, requeue, now, true);
    NackInv(b.engine, id, requeue, now, true);
    NackCfg(b.engine, id, requeue, now);
    if Nack(b.engine, id, requeue, now, true).1 == NackOk {
      HolderKnown(b.engine, id);
      TakenFrom(b, s1, id);
      SettleEffect(b, s1, id, now, send);
    }
  }
}
