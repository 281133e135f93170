/** Who is served, and what that does to the accounts: the prefetch rule, spelled out, and the effect of the
    delivery paths on every consumer and every message. */
module Rooms {
  import opened Types
  import opened Heaps
  import opened Engine
  import opened Index
  import opened Invariant
  import opened InvariantOps
  import opened Places
  import opened Ticks
  import opened Consumers
  import opened Deliveries
  import opened Prefetch
  import opened BrokerRuns
  import opened BrokerInv

  /** A registered consumer without a limit, or with fewer unacknowledged messages than its limit. */
  predicate Room(b: Broker, id: ConsumerId) {
    id in b.consumers && (b.consumers[id].prefetch <= 0 || b.consumers[id].unacked < b.consumers[id].prefetch)
  }

  lemma EligibleRoom(b: Broker, id: ConsumerId)
    ensures Eligible(b, id) <==> Room(b, id)
  {
  }

  /** The consumer lists and every other queue are as they were. */
  ghost predicate OnlyQueue(s: State, s': State, n: QName) {
    && s'.queues.Keys == s.queues.Keys && s'.cfg == s.cfg
    && (forall x :: x in s.queues && x in s'.queues && x != n ==> s'.queues[x] == s.queues[x])
    && (n in s.queues && n in s'.queues ==>
          s'.queues[n].consumerIds == s.queues[n].consumerIds && s'.queues[n].spec == s.queues[n].spec)
  }

  // ----- serving -----

  lemma ServeRule(b: Broker, n: QName, id: ConsumerId, now: Time)
    requires Inv(b.engine) && n in b.engine.queues && Room(b, id) && b.engine.queues[n].ready != []
    ensures
      var (b', r) := Serve(b, n, id, now);
      var q := b.engine.queues[n];
      && r.Some? && r.value.consumer == id && r.value.message.id == q.ready[0].item
      && b'.consumers == b.consumers[id := b.consumers[id].(unacked := b.consumers[id].unacked + 1)]
      && b'.byConnection == b.byConnection
      && OnlyQueue(b.engine, b'.engine, n) && b'.engine.queues[n].ready == q.ready[1..]
      && b'.engine.queues[n].rrIndex == q.rrIndex
  {
    hide PartsOk, HeapsOk, TablesAgree, Reserve, Partition.QueueOk, Push;
    ReserveHead(b.engine, n, id, now);
    HeadId(b.engine, n);
    assert Serve(b, n, id, now).0.engine.queues.Keys == b.engine.queues.Keys;
  }

  lemma ServePlace(b: Broker, n: QName, id: ConsumerId, now: Time)
    requires Inv(b.engine) && n in b.engine.queues && Room(b, id) && b.engine.queues[n].ready != []
    ensures
      var (b', r) := Serve(b, n, id, now);
      var q := b.engine.queues[n];
      && r.Some? && PlaceOf(b.engine, r.value.message.id) == ReadyIn(n, r.value.message)
      && PlaceOf(b'.engine, r.value.message.id) ==
         InflightIn(n, r.value.message, Delivery(r.value.message.id, n, id, now, now + q.spec.visibilityTimeout))
      && SameElsewhere(b.engine, b'.engine, r.value.message.id)
  {
    hide Inv, Reserve, PlaceOf, SameElsewhere, Items;
    ServeRule(b, n, id, now);
    ReservePlace(b.engine, n, id, now);
  }

  /** The place in the list that the index points to after some rounds. */
  function Position(q: Queue, round: nat): (p: nat)
    requires q.consumerIds != []
    ensures p < |q.consumerIds|
  {
    (q.rrIndex + round) % |q.consumerIds|
  }

  /** The consumers asked before this one in turn have no room. */
  ghost predicate FirstInTurn(b: Broker, n: QName, c: ConsumerId, k: nat)
    requires n in b.engine.queues && k < |b.engine.queues[n].consumerIds|
  {
    var q := b.engine.queues[n];
    && c == q.consumerIds[Position(q, k)] && Room(b, c)
    && forall j: nat :: j < k ==> !Room(b, q.consumerIds[Position(q, j)])
  }

  lemma RotatedRule(b: Broker, n: QName, rounds: nat)
    requires n in b.engine.queues
    ensures
      var b1 := Rotated(b, n, rounds);
      && OnlyQueue(b.engine, b1.engine, n) && b1.consumers == b.consumers && b1.byConnection == b.byConnection
      && b1.engine.queues[n] == b.engine.queues[n].(rrIndex := b.engine.queues[n].rrIndex + rounds)
      && (forall id :: Room(b1, id) <==> Room(b, id)) && forall x :: PlaceOf(b1.engine, x) == PlaceOf(b.engine, x)
  {
    hide PlaceOf, SameCore;
    RotatedCore(b, n, rounds);
    assert Rotated(b, n, rounds).engine.queues.Keys == b.engine.queues.Keys;
    forall x
      ensures PlaceOf(Rotated(b, n, rounds).engine, x) == PlaceOf(b.engine, x)
    {
      CorePlace(b.engine, Rotated(b, n, rounds).engine, x);
    }
  }

  ghost predicate SomeRoom(b: Broker, n: QName) {
    n in b.engine.queues && exists id :: id in b.engine.queues[n].consumerIds && Room(b, id)
  }

  lemma SomeEligibleRoom(b: Broker, n: QName)
    ensures SomeEligible(b, n) <==> SomeRoom(b, n)
  {
    hide Eligible, Room;
    forall id
      ensures Eligible(b, id) <==> Room(b, id)
    {
      EligibleRoom(b, id);
    }
  }

  lemma AskedPosition(b: Broker, n: QName, round: nat)
    requires n in b.engine.queues && b.engine.queues[n].consumerIds != []
    ensures Asked(b, n, round) == b.engine.queues[n].consumerIds[Position(b.engine.queues[n], round)]
  {
  }

  lemma SkipsFirst(b: Broker, n: QName)
    requires SomeRoom(b, n)
    ensures n in b.engine.queues && b.engine.queues[n].consumerIds != []
    ensures
      var k := Skips(b, n, 0, |b.engine.queues[n].consumerIds|);
      k < |b.engine.queues[n].consumerIds| && FirstInTurn(b, n, Asked(b, n, k), k)
  {
    hide Eligible, Room, Skips, Asked, Position;
    SomeEligibleRoom(b, n);
    SkipsAll(b, n);
    var ids := b.engine.queues[n].consumerIds;
    var k := Skips(b, n, 0, |ids|);
    AskedPosition(b, n, k);
    EligibleRoom(b, Asked(b, n, k));
    forall j: nat | j < k
      ensures !Room(b, ids[Position(b.engine.queues[n], j)])
    {
      AskedPosition(b, n, j);
      assert !Eligible(b, Asked(b, n, 0 + j));
      EligibleRoom(b, Asked(b, n, j));
    }
  }

  /** The state that an attempt ends in: the index has moved on, and the consumer whose turn it is, if any, is
      served. */
  lemma TryForm(b: Broker, n: QName, now: Time)
    ensures !SomeRoom(b, n) ==>
      var len := if n in b.engine.queues then |b.engine.queues[n].consumerIds| else 0;
      TryReserve(b, n, now) == (if len == 0 then b else Rotated(b, n, len), None)
    ensures SomeRoom(b, n) ==>
      && n in b.engine.queues && b.engine.queues[n].consumerIds != []
      && var k := Skips(b, n, 0, |b.engine.queues[n].consumerIds|);
      && k < |b.engine.queues[n].consumerIds| && FirstInTurn(b, n, Asked(b, n, k), k)
      && TryReserve(b, n, now) == Serve(Rotated(b, n, k + 1), n, Asked(b, n, k), now)
  {
    hide Eligible, Serve, TryRounds, SomeRoom, SomeEligible, Skips, Asked, FirstInTurn, Rotated;
    SomeEligibleRoom(b, n);
    if SomeRoom(b, n) {
      SkipsFirst(b, n);
    }
    if n in b.engine.queues && b.engine.queues[n].consumerIds != [] {
      var len := |b.engine.queues[n].consumerIds|;
      RoundsServe(b, n, now, 0, len);
      RotatedNext(b, n, 0);
      SkipsAll(b, n);
      if Skips(b, n, 0, len) < len {
        TurnRegistered(b, n, Skips(b, n, 0, len));
      }
    }
  }

  lemma TurnRegistered(b: Broker, n: QName, k: nat)
    requires n in b.engine.queues && b.engine.queues[n].consumerIds != [] && Eligible(b, Asked(b, n, k))
    ensures Asked(b, n, k) in b.consumers && Asked(b, n, k) in Rotated(b, n, k + 1).consumers
  {
  }

  // ----- one attempt -----

  /** try_reserve. It gives a message if and only if one is ready and some listed consumer is registered and has no
      limit or is below it. It goes to the first such consumer in turn, whose account goes up by one; it is the
      first ready message, and is in flight at that consumer until the visibility timeout is over. No other account
      changes, and no other message moves. */
  lemma TryReserveRule(b: Broker, n: QName, now: Time)
    requires Inv(b.engine)
    ensures
      var (b', r) := TryReserve(b, n, now);
      && (r.Some? <==> SomeRoom(b, n) && b.engine.queues[n].ready != [])
      && (r == None ==> b'.consumers == b.consumers && forall x :: PlaceOf(b'.engine, x) == PlaceOf(b.engine, x))
      && (r.Some? ==>
            var (q, c, m) := (b.engine.queues[n], r.value.consumer, r.value.message);
            && (exists k: nat :: k < |q.consumerIds| && FirstInTurn(b, n, c, k) && n in b'.engine.queues
                                 && b'.engine.queues[n].rrIndex == q.rrIndex + k + 1)
            && c in b.consumers
            && b'.consumers == b.consumers[c := b.consumers[c].(unacked := b.consumers[c].unacked + 1)]
            && m.id == q.ready[0].item && PlaceOf(b.engine, m.id) == ReadyIn(n, m)
            && PlaceOf(b'.engine, m.id) ==
               InflightIn(n, m, Delivery(m.id, n, c, now, now + q.spec.visibilityTimeout))
            && SameElsewhere(b.engine, b'.engine, m.id))
  {
    hide Inv, Serve, TryReserve, Skips, Asked, Rotated, PlaceOf, SameElsewhere, FirstInTurn, Room;
    TryForm(b, n, now);
    if SomeRoom(b, n) {
      var k := Skips(b, n, 0, |b.engine.queues[n].consumerIds|);
      var c := Asked(b, n, k);
      var b1 := Rotated(b, n, k + 1);
      RotatedRule(b, n, k + 1);
      RotatedSound(b, n, k + 1);
      FirstRegistered(b, n, c, k);
      if b.engine.queues[n].ready != [] {
        ServeRule(b1, n, c, now);
        ServePlace(b1, n, c, now);
        Elsewhere(b.engine, b1.engine, Serve(b1, n, c, now).0.engine, b.engine.queues[n].ready[0].item);
      } else {
        ServeNothing(b1, n, c, now);
      }
    } else {
      NobodyServed(b, n);
    }
  }

  lemma FirstRegistered(b: Broker, n: QName, c: ConsumerId, k: nat)
    requires n in b.engine.queues && k < |b.engine.queues[n].consumerIds| && FirstInTurn(b, n, c, k)
    ensures c in b.consumers && Room(b, c)
  {
  }

  lemma RotatedSound(b: Broker, n: QName, rounds: nat)
    requires n in b.engine.queues && Inv(b.engine)
    ensures Inv(Rotated(b, n, rounds).engine)
  {
    hide Inv, SameCore;
    RotatedCore(b, n, rounds);
    CoreInv(b.engine, Rotated(b, n, rounds).engine);
  }

  lemma Elsewhere(s: State, s1: State, s2: State, id: Id)
    requires (forall x :: PlaceOf(s1, x) == PlaceOf(s, x)) && SameElsewhere(s1, s2, id)
    ensures SameElsewhere(s, s2, id)
  {
    hide PlaceOf;
  }

  lemma ServeNothing(b: Broker, n: QName, id: ConsumerId, now: Time)
    requires id in b.consumers && n in b.engine.queues && b.engine.queues[n].ready == []
    ensures Serve(b, n, id, now) == (b, None)
  {
  }

  lemma NobodyServed(b: Broker, n: QName)
    requires !SomeRoom(b, n)
    ensures n in b.engine.queues ==>
              Rotated(b, n, |b.engine.queues[n].consumerIds|).consumers == b.consumers
              && forall x :: PlaceOf(Rotated(b, n, |b.engine.queues[n].consumerIds|).engine, x) == PlaceOf(b.engine, x)
  {
    hide PlaceOf;
    if n in b.engine.queues {
      RotatedRule(b, n, |b.engine.queues[n].consumerIds|);
    }
  }

  /** An attempt leaves the other queues, and the lists, alone. */
  lemma TryQueues(b: Broker, n: QName, now: Time)
    requires Inv(b.engine)
    ensures
      var (b', r) := TryReserve(b, n, now);
      && OnlyQueue(b.engine, b'.engine, n) && b'.byConnection == b.byConnection
      && (n in b.engine.queues && n in b'.engine.queues ==>
            b'.engine.queues[n].ready == if r.Some? && b.engine.queues[n].ready != [] then b.engine.queues[n].ready[1..]
                                         else b.engine.queues[n].ready)
  {
    hide Inv, Serve, TryReserve, Skips, Asked, Rotated, FirstInTurn, Room, PlaceOf;
    TryForm(b, n, now);
    if SomeRoom(b, n) {
      var k := Skips(b, n, 0, |b.engine.queues[n].consumerIds|);
      RotatedRule(b, n, k + 1);
      RotatedSound(b, n, k + 1);
      FirstRegistered(b, n, Asked(b, n, k), k);
      if b.engine.queues[n].ready != [] {
        ServeRule(Rotated(b, n, k + 1), n, Asked(b, n, k), now);
      } else {
        ServeNothing(Rotated(b, n, k + 1), n, Asked(b, n, k), now);
      }
    } else if n in b.engine.queues {
      RotatedRule(b, n, |b.engine.queues[n].consumerIds|);
    }
  }

  // ----- accounts and deliveries -----

  lemma HeldByPlace(s: State, a: Addr, c: ConsumerId)
    requires Inv(s)
    ensures a in HeldSet(s, c) <==>
            var p := PlaceOf(s, a.id);
            p.InflightIn? && p.queue == a.queue && p.delivery.consumer == c
  {
    hide Inv, PlaceOf;
    PlaceMeaning(s, a.queue, a.id);
    PlaceQueue(s, a.id);
  }

  /** Deliveries were made and none was taken back: every account has grown by the number of new deliveries that its
      consumer holds, and nothing else about the consumers has changed. */
  ghost predicate Gave(b: Broker, b': Broker) {
    && b'.consumers.Keys == b.consumers.Keys && b'.byConnection == b.byConnection
    && (forall c :: HeldSet(b.engine, c) <= HeldSet(b'.engine, c))
    && (forall c :: c in b.consumers && c in b'.consumers ==>
          b'.consumers[c] ==
          b.consumers[c].(unacked := b.consumers[c].unacked + |HeldSet(b'.engine, c) - HeldSet(b.engine, c)|))
    && (forall c :: c !in b.consumers ==> HeldSet(b'.engine, c) == HeldSet(b.engine, c))
  }

  /** Every new delivery was sent. */
  ghost predicate AllSent(b: Broker, b': Broker, send: (ConsumerId, Id) -> bool) {
    forall c: ConsumerId, a: Addr :: a in HeldSet(b'.engine, c) && a !in HeldSet(b.engine, c) ==> send(c, a.id)
  }

  lemma GaveItself(b: Broker)
    ensures Gave(b, b)
  {
    hide HeldSet;
    forall c
      ensures HeldSet(b.engine, c) - HeldSet(b.engine, c) == {}
    {
    }
  }

  lemma SetsBetween(a: set<Addr>, b: set<Addr>, c: set<Addr>)
    requires a <= b <= c
    ensures |c - a| == |b - a| + |c - b|
  {
    assert c - a == (b - a) + (c - b);
  }

  lemma GaveTrans(a: Broker, b: Broker, c: Broker)
    requires Gave(a, b) && Gave(b, c)
    ensures Gave(a, c)
  {
    hide HeldSet;
    forall x
      ensures x in b.consumers <==> x in a.consumers
      ensures x in c.consumers <==> x in b.consumers
      ensures |HeldSet(c.engine, x) - HeldSet(a.engine, x)| ==
              |HeldSet(b.engine, x) - HeldSet(a.engine, x)| + |HeldSet(c.engine, x) - HeldSet(b.engine, x)|
    {
      assert x in b.consumers.Keys <==> x in a.consumers.Keys;
      assert x in c.consumers.Keys <==> x in b.consumers.Keys;
      SetsBetween(HeldSet(a.engine, x), HeldSet(b.engine, x), HeldSet(c.engine, x));
    }
  }

  /** One message became a delivery of a consumer. */
  lemma OneGiven(s: State, s': State, n: QName, id: Id, c: ConsumerId)
    requires Inv(s) && Inv(s') && SameElsewhere(s, s', id) && PlaceOf(s, id).ReadyIn?
    requires var p := PlaceOf(s', id); p.InflightIn? && p.queue == n && p.delivery.consumer == c
    ensures Addr(n, id) !in HeldSet(s, c) && HeldSet(s', c) == HeldSet(s, c) + {Addr(n, id)}
    ensures forall x :: x != c ==> HeldSet(s', x) == HeldSet(s, x)
  {
    hide Inv, PlaceOf, HeldSet;
    forall a: Addr, x: ConsumerId
      ensures a in HeldSet(s', x) <==> a in HeldSet(s, x) || (x == c && a == Addr(n, id))
      ensures a == Addr(n, id) ==> a !in HeldSet(s, x)
    {
      HeldByPlace(s, a, x);
      HeldByPlace(s', a, x);
    }
    assert HeldSet(s', c) == HeldSet(s, c) + {Addr(n, id)};
    forall x | x != c
      ensures HeldSet(s', x) == HeldSet(s, x)
    {
    }
  }

  lemma SamePlacesHeld(s: State, s': State)
    requires Inv(s) && Inv(s') && forall x :: PlaceOf(s', x) == PlaceOf(s, x)
    ensures forall c :: HeldSet(s', c) == HeldSet(s, c)
  {
    hide Inv, PlaceOf, HeldSet;
    forall c
      ensures HeldSet(s', c) == HeldSet(s, c)
    {
      forall a: Addr
        ensures a in HeldSet(s', c) <==> a in HeldSet(s, c)
      {
        HeldByPlace(s, a, c);
        HeldByPlace(s', a, c);
      }
    }
  }

  lemma OneMore(b: Broker, b': Broker, c: ConsumerId, a: Addr)
    requires c in b.consumers && b'.byConnection == b.byConnection
    requires b'.consumers == b.consumers[c := b.consumers[c].(unacked := b.consumers[c].unacked + 1)]
    requires a !in HeldSet(b.engine, c) && HeldSet(b'.engine, c) == HeldSet(b.engine, c) + {a}
    requires forall x :: x != c ==> HeldSet(b'.engine, x) == HeldSet(b.engine, x)
    ensures Gave(b, b')
  {
    hide HeldSet;
    assert HeldSet(b'.engine, c) - HeldSet(b.engine, c) == {a};
    forall x | x != c
      ensures HeldSet(b'.engine, x) - HeldSet(b.engine, x) == {}
    {
    }
    assert b'.consumers.Keys == b.consumers.Keys;
  }

  lemma SameAccounts(b: Broker, b': Broker)
    requires b'.consumers == b.consumers && b'.byConnection == b.byConnection
    requires forall c :: HeldSet(b'.engine, c) == HeldSet(b.engine, c)
    ensures Gave(b, b')
  {
    hide HeldSet;
    forall c
      ensures HeldSet(b'.engine, c) - HeldSet(b.engine, c) == {}
    {
    }
  }

  lemma TryGives(b: Broker, n: QName, now: Time)
    requires Inv(b.engine)
    ensures
      var (b', r) := TryReserve(b, n, now);
      && Gave(b, b')
      && (r == None ==> forall c :: HeldSet(b'.engine, c) == HeldSet(b.engine, c))
      && (r.Some? ==>
            var (c, a) := (r.value.consumer, Addr(n, r.value.message.id));
            && a !in HeldSet(b.engine, c) && HeldSet(b'.engine, c) == HeldSet(b.engine, c) + {a}
            && forall x :: x != c ==> HeldSet(b'.engine, x) == HeldSet(b.engine, x))
  {
    hide Inv, TryReserve, PlaceOf, HeldSet, Gave, SameElsewhere, FirstInTurn, SomeRoom;
    var (b', r) := TryReserve(b, n, now);
    TryReserveRule(b, n, now);
    TryQueues(b, n, now);
    TryInv(b, n, now);
    if r.Some? {
      OneGiven(b.engine, b'.engine, n, r.value.message.id, r.value.consumer);
      OneMore(b, b', r.value.consumer, Addr(n, r.value.message.id));
    } else {
      SamePlacesHeld(b.engine, b'.engine);
      SameAccounts(b, b');
    }
  }

  // ----- a send that fails -----

  /** A delivery that could not be sent: the account is as before, no delivery is left of it, and the message goes
      where a failed delivery goes. */
  lemma GivenBack(b: Broker, n: QName, now: Time)
    requires Inv(b.engine) && now > 0 && b.engine.cfg.baseDelay >= 0 && TryReserve(b, n, now).1.Some?
    ensures
      var (b1, r) := TryReserve(b, n, now);
      var id := r.value.message.id;
      var b2 := OnAck(b1.(engine := Nack(b1.engine, id, true, now, true).0), r.value.consumer);
      && Inv(b2.engine) && b2.engine.cfg == b.engine.cfg && b2.consumers == b.consumers && b2.byConnection == b.byConnection
      && n in b.engine.queues && PlaceOf(b.engine, id) == ReadyIn(n, r.value.message)
      && PlaceOf(b2.engine, id) == AfterFailure(b.engine.cfg, b.engine.queues[n].spec.deadLetter, n, r.value.message, now)
      && SameElsewhere(b.engine, b2.engine, id)
      && forall c :: HeldSet(b2.engine, c) == HeldSet(b.engine, c)
  {
    hide Inv, TryReserve, PlaceOf, HeldSet, Gave, Nack, AfterFailure, FirstInTurn, SomeRoom;
    var (b1, r) := TryReserve(b, n, now);
    var id := r.value.message.id;
    var s2 := Nack(b1.engine, id, true, now, true).0;
    TryReserveRule(b, n, now);
    TryQueues(b, n, now);
    TryInv(b, n, now);
    NackPlace(b1.engine, id, true, now, true);
    NackInv(b1.engine, id, true, now, true);
    NackCfg(b1.engine, id, true, now);
    FailureSpec(b.engine, b1.engine, n);
    NothingHeld(b.engine, s2, n, id, r.value.message, now);
    var c := r.value.consumer;
    assert b.consumers[c := b.consumers[c].(unacked := b.consumers[c].unacked + 1)][c := b.consumers[c]] == b.consumers;
  }

  lemma FailureSpec(s: State, s': State, n: QName)
    requires OnlyQueue(s, s', n) && n in s.queues
    ensures n in s'.queues && s'.queues[n].spec == s.queues[n].spec && s'.cfg == s.cfg
  {
    assert n in s'.queues.Keys;
  }

  lemma NothingHeld(s: State, s': State, n: QName, id: Id, m: Message, now: Time)
    requires Inv(s) && Inv(s') && SameElsewhere(s, s', id) && n in s.queues && PlaceOf(s, id) == ReadyIn(n, m)
    requires PlaceOf(s', id) == AfterFailure(s.cfg, s.queues[n].spec.deadLetter, n, m, now)
    ensures forall c :: HeldSet(s', c) == HeldSet(s, c)
  {
    hide Inv, PlaceOf, HeldSet, Backoffs.RetryDelay, DeadMessage;
    forall c
      ensures HeldSet(s', c) == HeldSet(s, c)
    {
      forall a: Addr
        ensures a in HeldSet(s', c) <==> a in HeldSet(s, c)
      {
        HeldByPlace(s, a, c);
        HeldByPlace(s', a, c);
      }
    }
  }

  // ----- registering and limits -----

  /** The list as it was, with the consumer at its end if it was not listed. */
  predicate ListedLast(ids: seq<ConsumerId>, ids': seq<ConsumerId>, id: ConsumerId) {
    ids' == ids || (id !in ids && ids' == ids + [id])
  }

  lemma DeclareLists(s: State, n: QName, x: QName)
    ensures
      var s' := Declare(s, n, DEFAULT_ARGS, true);
      x in s'.queues ==> if x in s.queues then s'.queues[x] == s.queues[x] else s'.queues[x].consumerIds == []
  {
    hide DlqNames.IsDlq;
  }

  lemma JoinLists(s: State, n: QName, id: ConsumerId, x: QName)
    requires Inv(s)
    ensures
      var s' := Join(s, n, id);
      && Inv(s') && s.queues.Keys <= s'.queues.Keys && n in s'.queues && id in s'.queues[n].consumerIds
      && (x in s'.queues ==>
            ListedLast(if x in s.queues then s.queues[x].consumerIds else [], s'.queues[x].consumerIds, id))
      && (x in s.queues && id in s.queues[x].consumerIds ==> id in s'.queues[x].consumerIds)
      && forall m :: PlaceOf(s', m) == PlaceOf(s, m)
  {
    hide Inv, Declare, PlaceOf, SameCore;
    JoinInv(s, n, id);
    DeclaredNow(s, n, DEFAULT_ARGS);
    DeclareKeepsQueues(s, n, DEFAULT_ARGS, true);
    DeclarePlaces(s, n, DEFAULT_ARGS, true);
    DeclareLists(s, n, x);
    var s1 := Declare(s, n, DEFAULT_ARGS, true);
    if id !in s1.queues[n].consumerIds {
      var ids := s1.queues[n].consumerIds + [id];
      ListCore(s1, n, ids);
      forall m
        ensures PlaceOf(SetList(s1, n, ids), m) == PlaceOf(s1, m)
      {
        CorePlace(s1, SetList(s1, n, ids), m);
      }
    }
  }

  lemma {:induction false} JoinAllLists(s: State, names: seq<QName>, id: ConsumerId, x: QName)
    requires Inv(s)
    ensures
      var s' := JoinAll(s, names, id);
      && Inv(s') && s.queues.Keys <= s'.queues.Keys
      && (x in names ==> x in s'.queues && id in s'.queues[x].consumerIds)
      && (x in s'.queues ==>
            ListedLast(if x in s.queues then s.queues[x].consumerIds else [], s'.queues[x].consumerIds, id))
      && (x in s.queues && id in s.queues[x].consumerIds ==> id in s'.queues[x].consumerIds)
      && forall m :: PlaceOf(s', m) == PlaceOf(s, m)
    decreases |names|
  {
    hide Inv, Join, PlaceOf;
    if names != [] {
      JoinLists(s, names[0], id, x);
      JoinAllLists(Join(s, names[0], id), names[1..], id, x);
      assert x in names ==> x == names[0] || x in names[1..];
    }
  }

  /** A registered consumer can be served at once: it is listed in each of its queues, which exist, behind those
      listed before; it has room, and nothing counts against it yet. No other consumer's room changes, and no
      message moves. */
  lemma RegisterEffect(b: Broker, id: ConsumerId, conn: ConnId, names: seq<QName>, prefetch: int, n: QName)
    requires Inv(b.engine)
    ensures
      var b' := Register(b, id, conn, names, prefetch);
      && Room(b', id) && b'.consumers[id].unacked == 0 && b'.consumers[id].prefetch == prefetch
      && b'.consumers[id].queues == names && b'.consumers[id].connection == conn && id in Members(b', conn)
      && (forall x :: x != id ==> (Room(b', x) <==> Room(b, x)))
      && (n in names ==> n in b'.engine.queues && id in b'.engine.queues[n].consumerIds)
      && (n in b'.engine.queues ==>
            ListedLast(if n in b.engine.queues then b.engine.queues[n].consumerIds else [], b'.engine.queues[n].consumerIds, id))
      && forall m :: PlaceOf(b'.engine, m) == PlaceOf(b.engine, m)
  {
    hide Inv, JoinAll, PlaceOf;
    JoinAllLists(b.engine, names, id, n);
  }

  /** A new limit decides from now on, whatever the old one was: a positive one lets the consumer have that many
      messages, any other one lets it have as many as there are. */
  lemma QosEffect(b: Broker, id: ConsumerId, count: int)
    ensures
      var (b', ok) := Qos(b, id, count);
      && (ok <==> id in b.consumers) && b'.engine == b.engine
      && (ok ==> id in b'.consumers && b'.consumers[id].unacked == b.consumers[id].unacked
                 && (Room(b', id) <==> count <= 0 || b.consumers[id].unacked < count))
      && forall x :: x != id || !ok ==> (Room(b', x) <==> Room(b, x))
  {
  }

  /** The same for all consumers of a connection at once. */
  lemma QosOfEffect(b: Broker, conn: ConnId, count: int, x: ConsumerId)
    ensures
      var b' := QosOf(b, conn, count);
      && b'.engine == b.engine && (x in b'.consumers <==> x in b.consumers)
      && (x in b.consumers ==>
            && b'.consumers[x].unacked == b.consumers[x].unacked
            && (Room(b', x) <==>
                  if b.consumers[x].connection == conn then count <= 0 || b.consumers[x].unacked < count else Room(b, x)))
  {
  }
}
