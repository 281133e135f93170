/** Round-robin delivery is complete and fair, and pumping a queue ends. */
module Deliveries {
  import opened Types
  import opened Heaps
  import opened Engine
  import opened Index
  import opened Partition
  import opened Invariant
  import opened InvariantOps
  import opened Places
  import opened Consumers

  // ----- consumer lists and indices are no business of the engine's -----

  function Plain(q: Queue): Queue {
    q.(consumerIds := [], rrIndex := 0)
  }

  /** The same state, up to consumer lists and round-robin indices. */
  ghost predicate SameCore(s: State, s': State) {
    && s'.(queues := map[]) == s.(queues := map[])
    && s'.queues.Keys == s.queues.Keys
    && forall n :: n in s.queues && n in s'.queues ==> Plain(s'.queues[n]) == Plain(s.queues[n])
  }

  lemma CoreTrans(a: State, b: State, c: State)
    requires SameCore(a, b) && SameCore(b, c)
    ensures SameCore(a, c)
  {
    hide Plain;
  }

  lemma CoreIndex(s: State, s': State)
    requires SameCore(s, s') && IndexOk(s)
    ensures IndexOk(s')
  {
    forall n | n in s'.queues
      ensures QueueIndexOk(s'.byId, n, s'.queues[n])
    {
      assert Plain(s'.queues[n]) == Plain(s.queues[n]) && QueueIndexOk(s.byId, n, s.queues[n]);
    }
    forall id | id in s'.byId
      ensures s'.byId[id] in s'.queues && id in s'.queues[s'.byId[id]].messages
    {
      var n := s.byId[id];
      assert n in s.queues.Keys;
      assert Plain(s'.queues[n]) == Plain(s.queues[n]);
    }
  }

  lemma CoreParts(s: State, s': State)
    requires SameCore(s, s') && PartsOk(s.queues)
    ensures PartsOk(s'.queues)
  {
    hide HeapOk, Split, Items, DeliveriesOk, TimesOk;
    forall n | n in s'.queues
      ensures QueueOk(n, s'.queues[n])
    {
      assert n in s.queues.Keys;
      assert Plain(s'.queues[n]) == Plain(s.queues[n]) && QueueOk(n, s.queues[n]);
    }
  }

  lemma CoreHeaps(s: State, s': State)
    requires SameCore(s, s') && HeapsOk(s)
    ensures HeapsOk(s')
  {
    hide IsHeap, HasEntry;
    forall n | n in s'.queues
      ensures VisibleOf(n, s'.queues[n].inflight, s'.visibility) && DelayedOf(n, s'.queues[n], s'.delayed)
    {
      assert n in s.queues.Keys;
      assert Plain(s'.queues[n]) == Plain(s.queues[n]);
      assert VisibleOf(n, s.queues[n].inflight, s.visibility) && DelayedOf(n, s.queues[n], s.delayed);
    }
    forall e | e in s'.delayed
      ensures EntryOk(s'.queues, s'.byId, e)
    {
      assert EntryOk(s.queues, s.byId, e);
      var n := e.item.queue;
      if n in s.queues {
        assert n in s'.queues.Keys;
        assert Plain(s'.queues[n]) == Plain(s.queues[n]);
      }
    }
  }

  lemma CoreInv(s: State, s': State)
    requires SameCore(s, s') && Inv(s)
    ensures Inv(s')
  {
    hide SameCore, IndexOk, PartsOk, HeapsOk;
    CoreIndex(s, s');
    CoreParts(s, s');
    CoreHeaps(s, s');
  }

  lemma CoreCfg(s: State, s': State)
    requires SameCore(s, s')
    ensures s'.cfg == s.cfg
  {
  }

  lemma CorePlace(s: State, s': State, id: Id)
    requires SameCore(s, s')
    ensures PlaceOf(s', id) == PlaceOf(s, id)
  {
    if id in s.byId && s.byId[id] in s.queues {
      var n := s.byId[id];
      assert n in s'.queues.Keys;
      assert Plain(s'.queues[n]) == Plain(s.queues[n]);
    } else if id in s.byId {
      assert s.byId[id] !in s.queues.Keys;
    }
  }

  lemma RotatedCore(b: Broker, n: QName, rounds: nat)
    requires n in b.engine.queues
    ensures SameCore(b.engine, Rotated(b, n, rounds).engine)
  {
  }

  // ----- completeness -----

  /** Some listed consumer may be given a message. */
  ghost predicate SomeEligible(b: Broker, n: QName) {
    n in b.engine.queues && exists id :: id in b.engine.queues[n].consumerIds && Eligible(b, id)
  }

  lemma SkipsAll(b: Broker, n: QName)
    requires n in b.engine.queues && b.engine.queues[n].consumerIds != []
    ensures
      var len := |b.engine.queues[n].consumerIds|;
      Skips(b, n, 0, len) == len <==> !SomeEligible(b, n)
  {
    hide Eligible, Skips;
    var ids := b.engine.queues[n].consumerIds;
    var k := Skips(b, n, 0, |ids|);
    if SomeEligible(b, n) {
      var id :| id in ids && Eligible(b, id);
      var i :| 0 <= i < |ids| && ids[i] == id;
      var j := OneTurn(b, n, i);
      assert Eligible(b, Asked(b, n, j));
    }
    if k < |ids| {
      assert Asked(b, n, k) in ids;
    }
  }

  lemma ServeAnswer(b: Broker, n: QName, id: ConsumerId, now: Time)
    requires Inv(b.engine) && n in b.engine.queues && id in b.consumers
    ensures Serve(b, n, id, now).1.Some? <==> b.engine.queues[n].ready != []
    ensures Serve(b, n, id, now).1.Some? ==>
      && Serve(b, n, id, now).1.value.consumer == id
      && Serve(b, n, id, now).1.value.message.id == b.engine.queues[n].ready[0].item
  {
    hide Reserve, PartsOk, HeapsOk, TablesAgree, QueueOk;
    if b.engine.queues[n].ready != [] {
      ReserveHead(b.engine, n, id, now);
      HeadId(b.engine, n);
    } else {
      ReserveEmpty(b.engine, n, id, now);
    }
  }

  lemma HeadId(s: State, n: QName)
    requires IndexOk(s) && n in s.queues && s.queues[n].ready != [] && s.queues[n].ready[0].item in s.queues[n].messages
    ensures s.queues[n].messages[s.queues[n].ready[0].item].id == s.queues[n].ready[0].item
  {
    hide TablesAgree;
    IndexAt(s, n, s.queues[n].ready[0].item);
  }

  lemma ReserveEmpty(s: State, n: QName, c: ConsumerId, now: Time)
    requires n in s.queues && s.queues[n].ready == []
    ensures Reserve(s, n, c, now) == (s, None)
  {
  }

  /** try_reserve gives nothing exactly when no listed consumer may be given a message or none is ready; the
      modular index asks every listed consumer once. What it gives is the first ready message, to the first
      consumer in turn that may be given one. */
  lemma TryReserveComplete(b: Broker, n: QName, now: Time)
    requires Inv(b.engine)
    ensures
      var r := TryReserve(b, n, now).1;
      && (r.Some? <==> SomeEligible(b, n) && b.engine.queues[n].ready != [])
      && (r.Some? ==>
            var k := Skips(b, n, 0, |b.engine.queues[n].consumerIds|);
            && k < |b.engine.queues[n].consumerIds|
            && r.value.consumer == Asked(b, n, k) && Eligible(b, r.value.consumer)
            && (forall j :: 0 <= j < k ==> !Eligible(b, Asked(b, n, j)))
            && r.value.message.id == b.engine.queues[n].ready[0].item)
  {
    hide Inv, Eligible, Skips, Serve, TryRounds, SameCore;
    if n in b.engine.queues && b.engine.queues[n].consumerIds != [] {
      var len := |b.engine.queues[n].consumerIds|;
      var k := Skips(b, n, 0, len);
      RoundsServe(b, n, now, 0, len);
      RotatedNext(b, n, 0);
      SkipsAll(b, n);
      if k < len {
        RotatedCore(b, n, k + 1);
        CoreInv(b.engine, Rotated(b, n, k + 1).engine);
        EligibleKnown(b, Asked(b, n, k));
        ServeAnswer(Rotated(b, n, k + 1), n, Asked(b, n, k), now);
      }
    } else {
      NobodyListed(b, n);
    }
  }

  lemma EligibleKnown(b: Broker, id: ConsumerId)
    requires Eligible(b, id)
    ensures id in b.consumers && CanDeliver(b.consumers[id])
  {
  }

  lemma NobodyListed(b: Broker, n: QName)
    requires n !in b.engine.queues || b.engine.queues[n].consumerIds == []
    ensures !SomeEligible(b, n)
  {
  }

  // ----- termination -----

  lemma ReserveShortens(s: State, n: QName, c: ConsumerId, now: Time)
    ensures
      var (s', r) := Reserve(s, n, c, now);
      && (n in s.queues <==> n in s'.queues)
      && (n in s.queues ==>
            |s'.queues[n].ready| <= |s.queues[n].ready|
            && (r.Some? ==> |s'.queues[n].ready| < |s.queues[n].ready|)
            && s'.queues[n].consumerIds == s.queues[n].consumerIds && s'.queues[n].rrIndex == s.queues[n].rrIndex)
    decreases if n in s.queues then |s.queues[n].ready| else 0
  {
    hide Push;
    if n in s.queues && s.queues[n].ready != [] {
      var q := PopReady(s.queues[n]);
      if Stale(q, s.queues[n].ready[0].item) {
        ReserveShortens(SetQueue(s, n, q), n, c, now);
      }
    }
  }

  lemma ServeShortens(b: Broker, n: QName, id: ConsumerId, now: Time)
    requires id in b.consumers
    ensures Serve(b, n, id, now).1.Some? ==> ReadyCount(Serve(b, n, id, now).0, n) < ReadyCount(b, n)
  {
    hide Reserve;
    ReserveShortens(b.engine, n, id, now);
    ReserveNowhere(b.engine, n, id, now);
    var (engine, r) := Reserve(b.engine, n, id, now);
    if r.Some? {
      assert Serve(b, n, id, now).0.engine == engine;
      assert n in engine.queues;
      assert |engine.queues[n].ready| < |b.engine.queues[n].ready|;
    }
  }

  lemma ReserveNowhere(s: State, n: QName, c: ConsumerId, now: Time)
    ensures n !in s.queues ==> Reserve(s, n, c, now).1 == None
  {
  }

  /** Every delivery uses up a ready entry. */
  lemma TryReserveShortens(b: Broker, n: QName, now: Time)
    ensures TryReserve(b, n, now).1.Some? ==> ReadyCount(TryReserve(b, n, now).0, n) < ReadyCount(b, n)
  {
    hide Serve, Skips, TryRounds, Eligible;
    if n in b.engine.queues && b.engine.queues[n].consumerIds != [] {
      var len := |b.engine.queues[n].consumerIds|;
      var k := Skips(b, n, 0, len);
      RoundsServe(b, n, now, 0, len);
      RotatedNext(b, n, 0);
      if k < len {
        EligibleKnown(b, Asked(b, n, k));
        ServeShortens(Rotated(b, n, k + 1), n, Asked(b, n, k), now);
      }
    }
  }

  /** drain_queue: deliveries until an attempt gives nothing. */
  function Drain(b: Broker, n: QName, now: Time): (Broker, seq<Item>)
    decreases ReadyCount(b, n)
  {
    var (b1, r) := TryReserve(b, n, now);
    if r == None then (b1, [])
    else
      TryReserveShortens(b, n, now);
      var (b2, rest) := Drain(b1, n, now);
      (b2, [r.value] + rest)
  }

  /** pump_queue: the same with each message sent; one that cannot be sent goes back and ends the pumping.
      "send" says whether the consumer's connection takes the message. */
  function Pump(b: Broker, n: QName, now: Time, send: (ConsumerId, Id) -> bool): Broker
    decreases ReadyCount(b, n)
  {
    var (b1, r) := TryReserve(b, n, now);
    if r == None then b1
    else
      var item := r.value;
      TryReserveShortens(b, n, now);
      if send(item.consumer, item.message.id) then Pump(b1, n, now, send)
      else OnAck(b1.(engine := Nack(b1.engine, item.message.id, true, now, true).0), item.consumer)
  }

  function PumpAll(b: Broker, names: seq<QName>, now: Time, send: (ConsumerId, Id) -> bool): Broker
    decreases |names|
  {
    if names == [] then b else PumpAll(Pump(b, names[0], now, send), names[1..], now, send)
  }

  /** cmd_ack, on the state. */
  function CmdAck(b: Broker, id: Id, now: Time, send: (ConsumerId, Id) -> bool): (Broker, AckResult) {
    var c := InflightConsumer(b.engine, id);
    var (engine, r) := Ack(b.engine, id, true);
    var b1 := b.(engine := engine);
    if r != AckOk || c == None then (b1, r)
    else
      var b2 := OnAck(b1, c.value);
      (if c.value in b2.consumers then PumpAll(b2, b2.consumers[c.value].queues, now, send) else b2, r)
  }

  /** cmd_nack, on the state. */
  function CmdNack(b: Broker, id: Id, requeue: bool, now: Time, send: (ConsumerId, Id) -> bool): (Broker, NackResult) {
    var c := InflightConsumer(b.engine, id);
    var (engine, r) := Nack(b.engine, id, requeue, now, true);
    var b1 := b.(engine := engine);
    if r != NackOk || c == None then (b1, r)
    else
      var b2 := OnAck(b1, c.value);
      (if c.value in b2.consumers then PumpAll(b2, b2.consumers[c.value].queues, now, send) else b2, r)
  }
}
