/** The consumer registry over whole runs, and what a lost connection leaves behind. */
module Disconnects {
  import opened Types
  import opened DlqNames
  import Backoffs
  import opened Engine
  import opened Index
  import opened Invariant
  import opened InvariantOps
  import opened Places
  import opened Ticks
  import opened Runs
  import Replay
  import opened Consumers
  import opened Deliveries
  import opened Prefetch
  import opened BrokerRuns
  import opened Counts

  ghost predicate NoRepeats(ids: seq<ConsumerId>) {
    forall i, j :: 0 <= i < j < |ids| ==> ids[i] != ids[j]
  }

  /** Consumer lists name registered consumers of the queue, each once. */
  ghost predicate ListsOk(queues: map<QName, Queue>, consumers: map<ConsumerId, Consumer>) {
    forall n :: n in queues ==>
      NoRepeats(queues[n].consumerIds)
      && forall id :: id in queues[n].consumerIds ==> id in consumers && n in consumers[id].queues
  }

  /** Consumers and connections refer to each other. */
  ghost predicate ConnectionsOk(consumers: map<ConsumerId, Consumer>, byConnection: map<ConnId, set<ConsumerId>>) {
    && (forall id :: id in consumers ==>
          consumers[id].connection in byConnection && id in byConnection[consumers[id].connection])
    && (forall conn, id :: conn in byConnection && id in byConnection[conn] ==>
          id in consumers && consumers[id].connection == conn)
    && (forall conn :: conn in byConnection ==> byConnection[conn] != {})
  }

  ghost predicate Linked(b: Broker) {
    ListsOk(b.engine.queues, b.consumers) && ConnectionsOk(b.consumers, b.byConnection)
  }

  /** The same consumers with the same connections and queues. */
  ghost predicate SameRegistry(a: map<ConsumerId, Consumer>, b: map<ConsumerId, Consumer>) {
    && b.Keys == a.Keys
    && forall id :: id in a && id in b ==> b[id].connection == a[id].connection && b[id].queues == a[id].queues
  }

  /** Neither the registry nor any consumer list changes. */
  ghost predicate Unlinked(b: Broker, b': Broker) {
    KeepsLists(b.engine.queues, b'.engine.queues) && SameRegistry(b.consumers, b'.consumers) && b'.byConnection == b.byConnection
  }

  lemma UnlinkedTrans(a: Broker, b: Broker, c: Broker)
    requires Unlinked(a, b) && Unlinked(b, c) && QueuesStay(a.engine, b.engine)
    ensures Unlinked(a, c)
  {
  }

  lemma UnlinkedKeeps(b: Broker, b': Broker)
    requires Linked(b) && Unlinked(b, b')
    ensures Linked(b')
  {
    hide NoRepeats;
    UnlinkedLists(b, b');
    UnlinkedConnections(b, b');
  }

  lemma UnlinkedLists(b: Broker, b': Broker)
    requires ListsOk(b.engine.queues, b.consumers) && Unlinked(b, b')
    ensures ListsOk(b'.engine.queues, b'.consumers)
  {
    forall n, id | n in b'.engine.queues && id in b'.engine.queues[n].consumerIds
      ensures id in b'.consumers && n in b'.consumers[id].queues
    {
      assert id in b.consumers.Keys;
    }
  }

  lemma UnlinkedConnections(b: Broker, b': Broker)
    requires ConnectionsOk(b.consumers, b.byConnection) && Unlinked(b, b')
    ensures ConnectionsOk(b'.consumers, b'.byConnection)
  {
    hide KeepsLists;
    assert forall id :: id in b'.consumers <==> id in b.consumers.Keys;
  }

  lemma EngineUnlinked(b: Broker, engine: State)
    requires KeepsLists(b.engine.queues, engine.queues)
    ensures Unlinked(b, b.(engine := engine))
  {
  }

  lemma OnAckUnlinked(b: Broker, engine: State, id: ConsumerId)
    requires KeepsLists(b.engine.queues, engine.queues)
    ensures Unlinked(b, OnAck(b.(engine := engine), id)) && OnAck(b.(engine := engine), id).engine == engine
  {
    hide KeepsLists;
  }

  // ----- delivering and settling -----

  lemma RotatedLists(b: Broker, n: QName, rounds: nat)
    requires n in b.engine.queues
    ensures Unlinked(b, Rotated(b, n, rounds))
  {
  }

  lemma ServeUnlinked(b: Broker, n: QName, id: ConsumerId, now: Time)
    requires IndexOk(b.engine) && id in b.consumers
    ensures Unlinked(b, Serve(b, n, id, now).0) && QueuesStay(b.engine, Serve(b, n, id, now).0.engine)
  {
    hide Reserve, TablesAgree, KeepsLists, NoNew, Replay.Wane;
    ReserveGives(b.engine, n, id, now);
    Replay.ReserveWane(b.engine, n, id, now);
    WaneQueues(b.engine, Reserve(b.engine, n, id, now).0);
  }

  predicate QueuesStay(s: State, s': State) {
    s.queues.Keys <= s'.queues.Keys
  }

  lemma WaneQueues(s: State, s': State)
    requires Replay.Wane(s, s')
    ensures QueuesStay(s, s')
  {
    hide Replay.QuietGrowth, Replay.Decay, Replay.Letter, DlqNames.IsDlq;
  }

  lemma TryUnlinked(b: Broker, n: QName, now: Time)
    requires IndexOk(b.engine)
    ensures Unlinked(b, TryReserve(b, n, now).0) && QueuesStay(b.engine, TryReserve(b, n, now).0.engine)
  {
    hide Unlinked, Serve, Skips, TryRounds, Eligible, TablesAgree, SameCore;
    if n in b.engine.queues && b.engine.queues[n].consumerIds != [] {
      var len := |b.engine.queues[n].consumerIds|;
      var k := Skips(b, n, 0, len);
      RoundsServe(b, n, now, 0, len);
      RotatedNext(b, n, 0);
      if k < len {
        var b1 := Rotated(b, n, k + 1);
        EligibleKnown(b, Asked(b, n, k));
        RotatedLists(b, n, k + 1);
        RotatedCore(b, n, k + 1);
        CoreIndex(b.engine, b1.engine);
        ServeUnlinked(b1, n, Asked(b, n, k), now);
        UnlinkedTrans(b, b1, Serve(b1, n, Asked(b, n, k), now).0);
      } else {
        RotatedLists(b, n, len);
      }
    } else {
      UnlinkedItself(b);
    }
  }

  lemma UnlinkedItself(b: Broker)
    ensures Unlinked(b, b)
  {
  }

  lemma NackLists(s: State, id: Id, requeue: bool, now: Time)
    requires IndexOk(s)
    ensures KeepsLists(s.queues, Nack(s, id, requeue, now, true).0.queues)
    ensures QueuesStay(s, Nack(s, id, requeue, now, true).0)
  {
    hide Nack, TablesAgree, KeepsLists, NoNew, Replay.Wane;
    Replay.NackWane(s, id, requeue, now, true);
    WaneQueues(s, Nack(s, id, requeue, now, true).0);
    if Nack(s, id, requeue, now, true).1 == NackOk {
      NackTakes(s, id, requeue, now);
    } else {
      RefusedSame(s, id, requeue, now);
    }
  }

  lemma {:induction false} PumpUnlinked(b: Broker, n: QName, now: Time, send: (ConsumerId, Id) -> bool, owed: map<ConsumerId, nat>)
    requires Covered(b, owed)
    ensures Unlinked(b, Pump(b, n, now, send)) && QueuesStay(b.engine, Pump(b, n, now, send).engine)
    decreases ReadyCount(b, n)
  {
    hide HeldSet, TablesAgree, TryReserve, Nack, OnAck, Unlinked, KeepsLists;
    var (b1, r) := TryReserve(b, n, now);
    TryUnlinked(b, n, now);
    TryCovered(b, n, now, owed);
    if r.Some? {
      TryReserveShortens(b, n, now);
      if send(r.value.consumer, r.value.message.id) {
        PumpUnlinked(b1, n, now, send, owed);
      } else {
        NackLists(b1.engine, r.value.message.id, true, now);
        OnAckUnlinked(b1, Nack(b1.engine, r.value.message.id, true, now, true).0, r.value.consumer);
      }
      UnlinkedTrans(b, b1, Pump(b, n, now, send));
    }
  }

  lemma {:induction false} PumpAllUnlinked(b: Broker, names: seq<QName>, now: Time, send: (ConsumerId, Id) -> bool, owed: map<ConsumerId, nat>)
    requires Covered(b, owed)
    ensures Unlinked(b, PumpAll(b, names, now, send)) && QueuesStay(b.engine, PumpAll(b, names, now, send).engine)
    decreases |names|
  {
    hide Covered, Pump, Unlinked;
    if names == [] {
      UnlinkedItself(b);
    } else {
      PumpUnlinked(b, names[0], now, send, owed);
      PumpCovered(b, names[0], now, send, owed);
      PumpAllUnlinked(Pump(b, names[0], now, send), names[1..], now, send, owed);
      UnlinkedTrans(b, Pump(b, names[0], now, send), PumpAll(b, names, now, send));
    }
  }

  lemma AckLists(s: State, id: Id)
    requires IndexOk(s)
    ensures KeepsLists(s.queues, Ack(s, id, true).0.queues) && QueuesStay(s, Ack(s, id, true).0)
  {
    hide Ack, TablesAgree, KeepsLists, NoNew, Replay.Wane;
    Replay.AckWane(s, id, true);
    WaneQueues(s, Ack(s, id, true).0);
    if Ack(s, id, true).1 == AckOk {
      AckTakes(s, id);
    } else {
      RefusedSame(s, id, true, 0);
      CalmItself(s.queues);
    }
  }

  lemma CmdAckUnlinked(b: Broker, id: Id, now: Time, send: (ConsumerId, Id) -> bool, owed: map<ConsumerId, nat>)
    requires Covered(b, owed)
    ensures Unlinked(b, CmdAck(b, id, now, send).0)
  {
    hide HeldSet, TablesAgree, Ack, OnAck, PumpAll, Unlinked, KeepsLists, InflightConsumer;
    var engine := Ack(b.engine, id, true).0;
    AckLists(b.engine, id);
    EngineUnlinked(b, engine);
    if Ack(b.engine, id, true).1 == AckOk {
      AckCovered(b, id, owed);
      var c := InflightConsumer(b.engine, id).value;
      var b2 := OnAck(b.(engine := engine), c);
      OnAckUnlinked(b, engine, c);
      if c in b2.consumers {
        PumpAllUnlinked(b2, b2.consumers[c].queues, now, send, owed);
        UnlinkedTrans(b, b2, PumpAll(b2, b2.consumers[c].queues, now, send));
      }
    }
  }

  lemma CmdNackUnlinked(b: Broker, id: Id, requeue: bool, now: Time, send: (ConsumerId, Id) -> bool, owed: map<ConsumerId, nat>)
    requires Covered(b, owed)
    ensures Unlinked(b, CmdNack(b, id, requeue, now, send).0)
  {
    hide HeldSet, TablesAgree, Nack, OnAck, PumpAll, Unlinked, KeepsLists, InflightConsumer;
    var engine := Nack(b.engine, id, requeue, now, true).0;
    NackLists(b.engine, id, requeue, now);
    EngineUnlinked(b, engine);
    if Nack(b.engine, id, requeue, now, true).1 == NackOk {
      NackCovered(b, id, requeue, now, owed);
      var c := InflightConsumer(b.engine, id).value;
      var b2 := OnAck(b.(engine := engine), c);
      OnAckUnlinked(b, engine, c);
      if c in b2.consumers {
        PumpAllUnlinked(b2, b2.consumers[c].queues, now, send, owed);
        UnlinkedTrans(b, b2, PumpAll(b2, b2.consumers[c].queues, now, send));
      }
    }
  }

  // ----- registering -----

  /** What joining does to the consumer lists. */
  ghost predicate Joined(queues: map<QName, Queue>, queues': map<QName, Queue>, names: seq<QName>, id: ConsumerId) {
    forall n :: n in queues' ==>
      || queues'[n].consumerIds == []
      || (n in queues && queues'[n].consumerIds == queues[n].consumerIds)
      || (n in names && n in queues && id !in queues[n].consumerIds && queues'[n].consumerIds == queues[n].consumerIds + [id])
      || (n in names && queues'[n].consumerIds == [id])
  }

  lemma JoinLists(s: State, n: QName, id: ConsumerId)
    ensures Joined(s.queues, Join(s, n, id).queues, [n], id)
  {
    hide Declare, SameFrame;
    DeclaredNow(s, n, DEFAULT_ARGS);
    DeclareFrame(s, n, DEFAULT_ARGS, true);
    var s1 := Declare(s, n, DEFAULT_ARGS, true);
    FrameCalm(s.queues, s1.queues);
    hide Calm;
    assert KeepsLists(s.queues, s1.queues);
  }

  lemma JoinAllLists(s: State, names: seq<QName>, id: ConsumerId, consumers: map<ConsumerId, Consumer>)
    requires ListsOk(s.queues, consumers) && id in consumers && forall n :: n in names ==> n in consumers[id].queues
    ensures ListsOk(JoinAll(s, names, id).queues, consumers)
    decreases |names|
  {
    hide ListsOk, Join, Joined;
    if names != [] {
      JoinLists(s, names[0], id);
      JoinedOk(s.queues, Join(s, names[0], id).queues, names[0], id, consumers);
      JoinAllLists(Join(s, names[0], id), names[1..], id, consumers);
    }
  }

  lemma JoinedOk(queues: map<QName, Queue>, queues': map<QName, Queue>, name: QName, id: ConsumerId,
                 consumers: map<ConsumerId, Consumer>)
    requires ListsOk(queues, consumers) && Joined(queues, queues', [name], id)
    requires id in consumers && name in consumers[id].queues
    ensures ListsOk(queues', consumers)
  {
  }

  lemma RegisterConnections(b: Broker, id: ConsumerId, conn: ConnId, names: seq<QName>, prefetch: int)
    requires ConnectionsOk(b.consumers, b.byConnection) && id !in b.consumers
    ensures ConnectionsOk(b.consumers[id := Consumer(id, conn, names, prefetch, 0)],
                          b.byConnection[conn := Members(b, conn) + {id}])
  {
  }

  lemma MoreConsumers(queues: map<QName, Queue>, consumers: map<ConsumerId, Consumer>, id: ConsumerId, c: Consumer)
    requires ListsOk(queues, consumers) && id !in consumers
    ensures ListsOk(queues, consumers[id := c])
  {
  }

  lemma RegisterLinked(b: Broker, id: ConsumerId, conn: ConnId, names: seq<QName>, prefetch: int)
    requires Linked(b) && id !in b.consumers
    ensures Linked(Register(b, id, conn, names, prefetch))
  {
    hide ListsOk, ConnectionsOk, JoinAll, Members;
    var c := Consumer(id, conn, names, prefetch, 0);
    MoreConsumers(b.engine.queues, b.consumers, id, c);
    JoinAllLists(b.engine, names, id, b.consumers[id := c]);
    RegisterConnections(b, id, conn, names, prefetch);
  }

  // ----- cancelling -----

  lemma RemovedOnce(ids: seq<ConsumerId>, id: ConsumerId)
    requires NoRepeats(ids)
    ensures NoRepeats(RemoveFirst(ids, id)) && id !in RemoveFirst(ids, id)
    ensures forall x :: x in RemoveFirst(ids, id) ==> x in ids
    ensures forall x :: x in ids && x != id ==> x in RemoveFirst(ids, id)
  {
    if ids != [] {
      assert ids == [ids[0]] + ids[1..];
      if ids[0] != id {
        RemovedOnce(ids[1..], id);
        ConsNoRepeats(ids[0], RemoveFirst(ids[1..], id));
      }
    }
  }

  lemma ConsNoRepeats(id: ConsumerId, ids: seq<ConsumerId>)
    requires NoRepeats(ids) && id !in ids
    ensures NoRepeats([id] + ids)
  {
    var all := [id] + ids;
    forall i, j | 0 <= i < j < |all|
      ensures all[i] != all[j]
    {
      assert all[j] == ids[j - 1];
      if i > 0 {
        assert all[i] == ids[i - 1];
      }
    }
  }

  lemma LeaveLists(s: State, n: QName, id: ConsumerId, consumers: map<ConsumerId, Consumer>)
    requires ListsOk(s.queues, consumers)
    ensures ListsOk(Leave(s, n, id).queues, consumers) && Leave(s, n, id).queues.Keys == s.queues.Keys
    ensures n in s.queues ==> id !in Leave(s, n, id).queues[n].consumerIds
    ensures forall x :: x in s.queues && id !in s.queues[x].consumerIds ==> id !in Leave(s, n, id).queues[x].consumerIds
  {
    hide NoRepeats, RemoveFirst;
    if n in s.queues {
      RemovedOnce(s.queues[n].consumerIds, id);
      assert Leave(s, n, id).queues.Keys == s.queues.Keys;
    }
  }

  lemma LeaveAllLists(s: State, names: seq<QName>, id: ConsumerId, consumers: map<ConsumerId, Consumer>)
    requires ListsOk(s.queues, consumers)
    ensures
      var s' := LeaveAll(s, names, id);
      && ListsOk(s'.queues, consumers) && s'.queues.Keys == s.queues.Keys
      && forall x :: x in s.queues && (x in names || id !in s.queues[x].consumerIds) ==> id !in s'.queues[x].consumerIds
    decreases |names|
  {
    hide ListsOk, Leave;
    if names != [] {
      LeaveLists(s, names[0], id, consumers);
      LeaveAllLists(Leave(s, names[0], id), names[1..], id, consumers);
    }
  }

  lemma DismissLists(b: Broker, id: ConsumerId)
    requires Linked(b) && id in b.consumers
    ensures ListsOk(Dismiss(b, id).engine.queues, Dismiss(b, id).consumers)
  {
    hide ConnectionsOk, NoRepeats, LeaveAll, Unlink;
    LeaveAllLists(b.engine, b.consumers[id].queues, id, b.consumers);
  }

  lemma DismissConnections(b: Broker, id: ConsumerId)
    requires ConnectionsOk(b.consumers, b.byConnection) && id in b.consumers
    ensures ConnectionsOk(b.consumers - {id}, Unlink(b.byConnection, b.consumers[id].connection, id))
    ensures forall conn :: Members(Dismiss(b, id), conn) == Members(b, conn) - {id}
  {
    hide LeaveAll;
  }

  lemma DismissLinked(b: Broker, id: ConsumerId)
    requires Linked(b) && id in b.consumers
    ensures Linked(Dismiss(b, id)) && forall conn :: Members(Dismiss(b, id), conn) == Members(b, conn) - {id}
  {
    hide ListsOk, ConnectionsOk, LeaveAll, Unlink, Members;
    DismissLists(b, id);
    DismissConnections(b, id);
  }

  lemma CancelLinked(b: Broker, id: ConsumerId, todo: seq<Addr>, now: Time)
    requires Linked(b) && id in b.consumers && forall a :: a in todo ==> a.queue in Dismiss(b, id).engine.queues
    ensures Linked(Cancel(b, id, todo, now).0)
    ensures forall conn :: Members(Cancel(b, id, todo, now).0, conn) == Members(b, conn) - {id}
  {
    hide Linked, Dismiss, Recover, KeepsLists, NoNew;
    var b1 := Dismiss(b, id);
    DismissLinked(b, id);
    RecoverCalm(b1.engine, todo, now, true);
    EngineUnlinked(b1, Recover(b1.engine, todo, now, true));
    UnlinkedKeeps(b1, b1.(engine := Recover(b1.engine, todo, now, true)));
  }

  /** The list without its first occurrence of the consumer, in the same order. */
  ghost predicate TakenOut(ids: seq<ConsumerId>, ids': seq<ConsumerId>, id: ConsumerId) {
    if id in ids then exists i :: 0 <= i < |ids| && ids[i] == id && ids' == ids[..i] + ids[i + 1..] else ids' == ids
  }

  lemma {:induction false} RemovedOut(ids: seq<ConsumerId>, id: ConsumerId)
    ensures TakenOut(ids, RemoveFirst(ids, id), id)
  {
    hide TakenOut;
    if ids == [] {
      NothingOut(ids, id);
    } else {
      assert ids == [ids[0]] + ids[1..];
      if ids[0] == id {
        TakenAt(ids, 0);
        assert ids[..0] + ids[1..] == ids[1..];
      } else {
        RemovedOut(ids[1..], id);
        OutOfTail(ids, RemoveFirst(ids[1..], id), id);
      }
    }
  }

  lemma TakenAt(ids: seq<ConsumerId>, i: nat)
    requires i < |ids|
    ensures TakenOut(ids, ids[..i] + ids[i + 1..], ids[i])
  {
  }

  lemma OutOfTail(ids: seq<ConsumerId>, rest: seq<ConsumerId>, id: ConsumerId)
    requires ids != [] && ids[0] != id && TakenOut(ids[1..], rest, id)
    ensures TakenOut(ids, [ids[0]] + rest, id)
  {
    var tail := ids[1..];
    assert ids == [ids[0]] + tail;
    if id in tail {
      var i :| 0 <= i < |tail| && tail[i] == id && rest == tail[..i] + tail[i + 1..];
      assert [ids[0]] + rest == ids[..i + 1] + ids[i + 2..];
      hide TakenOut;
      TakenAt(ids, i + 1);
    }
  }

  lemma NothingOut(ids: seq<ConsumerId>, id: ConsumerId)
    requires id !in ids
    ensures forall ids' :: TakenOut(ids, ids', id) <==> ids' == ids
  {
  }

  /** What a queue's list is after the consumer left some queues, if it listed it at most once. */
  lemma {:induction false} LeftLists(s: State, names: seq<QName>, id: ConsumerId, n: QName)
    requires n in s.queues && NoRepeats(s.queues[n].consumerIds)
    ensures
      var q, s' := s.queues[n], LeaveAll(s, names, id);
      n in s'.queues
      && s'.queues[n] == q.(consumerIds := s'.queues[n].consumerIds)
      && if n in names then TakenOut(q.consumerIds, s'.queues[n].consumerIds, id) && id !in s'.queues[n].consumerIds
         else s'.queues[n] == q
    decreases |names|
  {
    hide NoRepeats, RemoveFirst, TakenOut;
    if names != [] {
      var s1 := Leave(s, names[0], id);
      if names[0] == n {
        RemovedOnce(s.queues[n].consumerIds, id);
        RemovedOut(s.queues[n].consumerIds, id);
        LeftLists(s1, names[1..], id, n);
        NothingOut(s1.queues[n].consumerIds, id);
      } else {
        LeftLists(s1, names[1..], id, n);
      }
    }
  }

  lemma {:induction false} RecoverFrame(s: State, todo: seq<Addr>, now: Time, n: QName)
    requires n in s.queues && forall a :: a in todo ==> a.queue in s.queues
    ensures
      var s' := Recover(s, todo, now, true);
      n in s'.queues && s'.queues[n].consumerIds == s.queues[n].consumerIds && s'.queues[n].rrIndex == s.queues[n].rrIndex
    decreases |todo|
  {
    hide Expire;
    if todo != [] {
      var a := todo[0];
      var s1 := Expire(s, a.queue, a.id, now, true);
      ExpireKeepsQueues(s, a.queue, a.id, now, true);
      ExpireFrame(s, a.queue, a.id, now, true);
      var queues := s.queues[a.queue := TakeBack(s.queues[a.queue], a.id)];
      assert n in queues && KeepsFrame(queues[n], s1.queues[n]);
      RecoverFrame(s1, todo[1..], now, n);
    }
  }

  /** A cancelled consumer is out of every list it was in; the others keep their order, and no other list changes. */
  lemma CancelLists(b: Broker, id: ConsumerId, todo: seq<Addr>, now: Time, n: QName)
    requires Linked(b) && id in b.consumers && n in b.engine.queues
    requires forall a :: a in todo ==> a.queue in Dismiss(b, id).engine.queues
    ensures
      var ids, engine := b.engine.queues[n].consumerIds, Cancel(b, id, todo, now).0.engine;
      n in engine.queues && engine.queues[n].rrIndex == b.engine.queues[n].rrIndex
      && id !in engine.queues[n].consumerIds && TakenOut(ids, engine.queues[n].consumerIds, id)
  {
    hide ConnectionsOk, NoRepeats, LeaveAll, Unlink, Recover, NoNew, TakenOut;
    var b1 := Dismiss(b, id);
    var c := b.consumers[id];
    assert NoRepeats(b.engine.queues[n].consumerIds);
    LeftLists(b.engine, c.queues, id, n);
    RecoverFrame(b1.engine, todo, now, n);
    if n !in c.queues {
      assert id !in b.engine.queues[n].consumerIds;
      NothingOut(b.engine.queues[n].consumerIds, id);
    }
  }

  /** The registry is sound after every step. */
  lemma BrokerStepLinked(b: Broker, ev: BrokerEvent, owed: map<ConsumerId, nat>)
    requires Linked(b) && Covered(b, owed) && BrokerAllowed(b, ev)
    ensures Linked(BrokerStep(b, ev))
  {
    hide ListsOk, ConnectionsOk, HeldSet, TablesAgree, NoNew, KeepsLists, Cancel, Register, TryReserve, Pump, CmdAck,
      CmdNack,
      Step, TakenBack, Grows, Dismiss;
    match ev.op
    case DoRegister(id, conn, names, prefetch) => RegisterLinked(b, id, conn, names, prefetch);
    case DoCancel(id, todo, left) =>
      if id in b.consumers {
        TakenFacts(Dismiss(b, id).engine, id, todo, left, ev.now, true);
        CancelLinked(b, id, todo, ev.now);
      }
    case DoQos(id, prefetch) =>
      QosUnlinked(b, id, prefetch, "");
      UnlinkedKeeps(b, Qos(b, id, prefetch).0);
    case DoQosOf(conn, prefetch) =>
      QosUnlinked(b, "", prefetch, conn);
      UnlinkedKeeps(b, QosOf(b, conn, prefetch));
    case DoGet(name) =>
      TryUnlinked(b, name, ev.now);
      UnlinkedKeeps(b, TryReserve(b, name, ev.now).0);
    case DoPump(name, send) =>
      PumpUnlinked(b, name, ev.now, send, owed);
      UnlinkedKeeps(b, Pump(b, name, ev.now, send));
    case DoAckCmd(id, send) =>
      CmdAckUnlinked(b, id, ev.now, send, owed);
      UnlinkedKeeps(b, CmdAck(b, id, ev.now, send).0);
    case DoNackCmd(id, requeue, send) =>
      CmdNackUnlinked(b, id, requeue, ev.now, send, owed);
      UnlinkedKeeps(b, CmdNack(b, id, requeue, ev.now, send).0);
    case DoEngine(op) =>
      BackgroundCalm(b.engine, Event(op, ev.now));
      EngineUnlinked(b, Step(b.engine, Event(op, ev.now)));
      UnlinkedKeeps(b, b.(engine := Step(b.engine, Event(op, ev.now))));
  }

  lemma QosUnlinked(b: Broker, id: ConsumerId, prefetch: int, conn: ConnId)
    ensures Unlinked(b, Qos(b, id, prefetch).0) && Unlinked(b, QosOf(b, conn, prefetch))
  {
    CalmItself(b.engine.queues);
    hide KeepsLists;
  }

  lemma {:induction false} RunLinked(b: Broker, run: seq<BrokerEvent>, owed: map<ConsumerId, nat>)
    requires Linked(b) && Covered(b, owed) && BrokerRunOk(b, run)
    ensures Linked(BrokerRun(b, run))
    decreases |run|
  {
    hide Linked, Covered, BrokerStep, BrokerAllowed, OwedAfter;
    if run != [] {
      BrokerStepLinked(b, run[0], owed);
      BrokerStepCovered(b, run[0], owed);
      RunLinked(BrokerStep(b, run[0]), run[1..], OwedAfter(b, run[0], owed));
    }
  }

  // ----- losing a connection -----

  /** disconnect_connection cancels consumer after consumer, up to the first whose cancellation raises an error.
      Listed are, for each, the deliveries taken back and the queues that were not visited. */
  ghost predicate Disconnectable(b: Broker, ids: seq<ConsumerId>, todos: seq<seq<Addr>>, lefts: seq<set<QName>>, now: Time)
    requires |lefts| == |todos| == |ids|
    decreases |ids|
  {
    ids == [] ||
    (ids[0] in b.consumers
     && TakenBack(Dismiss(b, ids[0]).engine, ids[0], todos[0], lefts[0], now, true)
     && if Grows(Dismiss(b, ids[0]).engine, todos[0], now, true) then |ids| == 1
        else Disconnectable(Cancel(b, ids[0], todos[0], now).0, ids[1..], todos[1..], lefts[1..], now))
  }

  ghost function Disconnect(b: Broker, ids: seq<ConsumerId>, todos: seq<seq<Addr>>, lefts: seq<set<QName>>, now: Time): Broker
    requires |lefts| == |todos| == |ids| && Disconnectable(b, ids, todos, lefts, now)
    decreases |ids|
  {
    if ids == [] then b
    else if |ids| == 1 then Cancel(b, ids[0], todos[0], now).0
    else Disconnect(Cancel(b, ids[0], todos[0], now).0, ids[1..], todos[1..], lefts[1..], now)
  }

  /** The error of the last cancellation. */
  ghost predicate Interrupted(b: Broker, ids: seq<ConsumerId>, todos: seq<seq<Addr>>, lefts: seq<set<QName>>, now: Time)
    requires |lefts| == |todos| == |ids| && Disconnectable(b, ids, todos, lefts, now)
    decreases |ids|
  {
    ids != [] &&
    (Grows(Dismiss(b, ids[0]).engine, todos[0], now, true)
     || Interrupted(Cancel(b, ids[0], todos[0], now).0, ids[1..], todos[1..], lefts[1..], now))
  }

  /** Whether a delivery of the consumer in the queue was reached. */
  ghost predicate Reached(ids: seq<ConsumerId>, lefts: seq<set<QName>>, c: ConsumerId, n: QName)
    requires |lefts| == |ids|
  {
    exists i :: 0 <= i < |ids| && ids[i] == c && n !in lefts[i]
  }

  /** Where a message goes when some consumers are lost. */
  ghost function Abandoned(s: State, p: Place, ids: seq<ConsumerId>, lefts: seq<set<QName>>, now: Time): Place
    requires |lefts| == |ids|
  {
    if p.InflightIn? && Reached(ids, lefts, p.delivery.consumer, p.queue) then Failed(s, p, now) else p
  }

  /** One turn of the loop, without the definitions. */
  lemma DisconnectNext(b: Broker, ids: seq<ConsumerId>, todos: seq<seq<Addr>>, lefts: seq<set<QName>>, now: Time)
    requires |lefts| == |todos| == |ids| && ids != [] && Disconnectable(b, ids, todos, lefts, now)
    ensures ids[0] in b.consumers && TakenBack(Dismiss(b, ids[0]).engine, ids[0], todos[0], lefts[0], now, true)
    ensures forall a :: a in todos[0] ==> a.queue in Dismiss(b, ids[0]).engine.queues
    ensures
      var b1 := Cancel(b, ids[0], todos[0], now).0;
      var stops := Grows(Dismiss(b, ids[0]).engine, todos[0], now, true);
      && (stops ==> |ids| == 1)
      && Disconnectable(b1, ids[1..], todos[1..], lefts[1..], now)
      && Disconnect(b, ids, todos, lefts, now) == Disconnect(b1, ids[1..], todos[1..], lefts[1..], now)
      && (Interrupted(b, ids, todos, lefts, now) <==> stops || Interrupted(b1, ids[1..], todos[1..], lefts[1..], now))
  {
    hide TakenBack, Grows, Dismiss, Cancel;
    TakenFacts(Dismiss(b, ids[0]).engine, ids[0], todos[0], lefts[0], now, true);
  }

  lemma CoreSpecs(s: State, s': State)
    requires SameCore(s, s')
    ensures SameSpecs(s, s')
  {
    forall n | n in s.queues
      ensures n in s'.queues && s'.queues[n].spec == s.queues[n].spec
    {
      assert n in s'.queues.Keys;
      assert Plain(s'.queues[n]) == Plain(s.queues[n]);
    }
  }

  lemma SpecsTrans(a: State, b: State, c: State)
    requires SameSpecs(a, b) && SameSpecs(b, c)
    ensures SameSpecs(a, c)
  {
  }

  lemma TakenListed(s: State, c: ConsumerId, todo: seq<Addr>, left: set<QName>, x: Id)
    requires Inv(s) && DeliveriesBut(s, c, todo, left)
    ensures
      var p := PlaceOf(s, x);
      Listed(todo, x) <==> p.InflightIn? && p.delivery.consumer == c && p.queue !in left
  {
    hide Inv, PlaceOf;
    if Listed(todo, x) {
      var a :| a in todo && a.id == x;
      assert HeldBy(s, a.queue, x, c);
      InflightPlace(s, a.queue, x);
    }
    var p := PlaceOf(s, x);
    if p.InflightIn? && p.delivery.consumer == c && p.queue !in left {
      PlaceQueue(s, x);
      PlaceMeaning(s, p.queue, x);
      assert HeldBy(s, p.queue, x, c);
      assert Addr(p.queue, x) in todo;
    }
  }

  lemma CancelPlaces(b: Broker, id: ConsumerId, todo: seq<Addr>, left: set<QName>, now: Time, x: Id)
    requires Inv(b.engine) && id in b.consumers && now > 0 && b.engine.cfg.baseDelay >= 0
    requires TakenBack(Dismiss(b, id).engine, id, todo, left, now, true)
    requires forall a :: a in todo ==> a.queue in Dismiss(b, id).engine.queues
    ensures
      var s' := Cancel(b, id, todo, now).0.engine;
      var p := PlaceOf(b.engine, x);
      && Inv(s') && SameSpecs(b.engine, s')
      && PlaceOf(s', x) ==
         if p.InflightIn? && p.delivery.consumer == id && p.queue !in left then Failed(b.engine, p, now) else p
  {
    hide Inv, LeaveAll, Recover, SameCore, SameSpecs, PlaceOf, TakenBack, DeliveriesBut, DeliveriesIn, AllInflight, Failed, Grows;
    var s1 := Dismiss(b, id).engine;
    LeaveAllCore(b.engine, b.consumers[id].queues, id);
    CoreInv(b.engine, s1);
    CorePlace(b.engine, s1, x);
    CoreSpecs(b.engine, s1);
    CoreCfg(b.engine, s1);
    TakenFacts(s1, id, todo, left, now, true);
    AllowedTodo(s1, id, todo);
    RecoverInv(s1, todo, now, true);
    RecoverSpecs(s1, todo, now, true);
    RecoverPlace(s1, todo, now, true, x);
    TakenListed(s1, id, todo, left, x);
    SpecsTrans(b.engine, s1, Recover(s1, todo, now, true));
    PlacesKnown(b.engine, x);
    FailedSpecs(b.engine, s1, PlaceOf(b.engine, x), now);
  }

  lemma PlacesKnown(s: State, x: Id)
    requires Inv(s)
    ensures PlaceOf(s, x) != Gone ==> PlaceOf(s, x).queue in s.queues
  {
    hide Inv, PlaceOf;
    PlaceQueue(s, x);
  }

  lemma FailedDone(s: State, p: Place, now: Time)
    requires p.InflightIn? ==> p.queue in s.queues
    ensures !Failed(s, p, now).InflightIn?
  {
  }

  lemma ReachedNext(ids: seq<ConsumerId>, lefts: seq<set<QName>>, c: ConsumerId, n: QName)
    requires |lefts| == |ids| && ids != []
    ensures Reached(ids, lefts, c, n) <==> (ids[0] == c && n !in lefts[0]) || Reached(ids[1..], lefts[1..], c, n)
  {
    if Reached(ids, lefts, c, n) {
      var i :| 0 <= i < |ids| && ids[i] == c && n !in lefts[i];
      if i > 0 {
        assert ids[1..][i - 1] == c && n !in lefts[1..][i - 1];
      }
    }
    if Reached(ids[1..], lefts[1..], c, n) {
      var i :| 0 <= i < |ids[1..]| && ids[1..][i] == c && n !in lefts[1..][i];
      assert ids[i + 1] == c && n !in lefts[i + 1];
    }
  }

  /** Cancelling one consumer after another: every message goes where its own consumer's loss sends it, and
      stays where it is if its delivery was not reached. */
  lemma {:induction false} DisconnectPlaces(b: Broker, ids: seq<ConsumerId>, todos: seq<seq<Addr>>, lefts: seq<set<QName>>,
                                            now: Time, x: Id)
    requires |lefts| == |todos| == |ids| && Disconnectable(b, ids, todos, lefts, now)
    requires Inv(b.engine) && now > 0 && b.engine.cfg.baseDelay >= 0
    ensures
      var s' := Disconnect(b, ids, todos, lefts, now).engine;
      && Inv(s') && PlaceOf(s', x) == Abandoned(b.engine, PlaceOf(b.engine, x), ids, lefts, now)
    decreases |ids|
  {
    hide Inv, Cancel, PlaceOf, SameSpecs, Failed, TakenBack, Dismiss, Reached, Disconnectable, Disconnect, Interrupted, Grows;
    if ids == [] {
      NothingLeft(b, todos, lefts, now, PlaceOf(b.engine, x));
    } else {
      DisconnectNext(b, ids, todos, lefts, now);
      var b1 := Cancel(b, ids[0], todos[0], now).0;
      CancelPlaces(b, ids[0], todos[0], lefts[0], now, x);
      SpecsCfg(b.engine, b1.engine);
      DisconnectPlaces(b1, ids[1..], todos[1..], lefts[1..], now, x);
      var p := PlaceOf(b.engine, x);
      PlacesKnown(b.engine, x);
      FailedDone(b.engine, p, now);
      FailedSpecs(b.engine, b1.engine, p, now);
      if p.InflightIn? {
        ReachedNext(ids, lefts, p.delivery.consumer, p.queue);
      }
    }
  }

  lemma NothingLeft(b: Broker, todos: seq<seq<Addr>>, lefts: seq<set<QName>>, now: Time, p: Place)
    requires todos == [] && lefts == []
    ensures Disconnectable(b, [], todos, lefts, now) && Disconnect(b, [], todos, lefts, now) == b
    ensures !Interrupted(b, [], todos, lefts, now) && Abandoned(b.engine, p, [], lefts, now) == p
  {
  }

  lemma SpecsCfg(s: State, s': State)
    requires SameSpecs(s, s')
    ensures s'.cfg == s.cfg
  {
  }

  lemma {:induction false} DisconnectRegistry(b: Broker, ids: seq<ConsumerId>, todos: seq<seq<Addr>>, lefts: seq<set<QName>>,
                                              now: Time, conn: ConnId)
    requires |lefts| == |todos| == |ids| && Disconnectable(b, ids, todos, lefts, now) && Linked(b)
    ensures
      var b' := Disconnect(b, ids, todos, lefts, now);
      && Linked(b') && Members(b', conn) == (Members(b, conn) - set id | id in ids)
      && (forall id :: id in ids ==> id in b.consumers && id !in b'.consumers)
      && (forall id :: id in b'.consumers ==> id in b.consumers && b'.consumers[id] == b.consumers[id])
    decreases |ids|
  {
    hide Linked, Cancel, Members, TakenBack, Dismiss, Disconnectable, Disconnect, Interrupted, Grows;
    if ids == [] {
      NothingLeft(b, todos, lefts, now, Gone);
    } else {
      DisconnectNext(b, ids, todos, lefts, now);
      CancelLinked(b, ids[0], todos[0], now);
      CancelConsumers(b, ids[0], todos[0], now);
      DisconnectRegistry(Cancel(b, ids[0], todos[0], now).0, ids[1..], todos[1..], lefts[1..], now, conn);
      assert ids == [ids[0]] + ids[1..];
    }
  }

  lemma CancelConsumers(b: Broker, id: ConsumerId, todo: seq<Addr>, now: Time)
    requires id in b.consumers && forall a :: a in todo ==> a.queue in Dismiss(b, id).engine.queues
    ensures Cancel(b, id, todo, now).0.consumers == b.consumers - {id}
  {
    hide LeaveAll, Recover;
  }

  // ----- when the error is raised -----

  /** The consumer holds a delivery of a message that dies now in a queue whose dead-letter queue is missing. */
  ghost predicate HoldsOrphan(s: State, c: ConsumerId) {
    exists a: Addr :: HeldBy(s, a.queue, a.id, c) && Orphaned(s, a)
  }

  lemma DismissSame(b: Broker, id: ConsumerId, a: Addr, c: ConsumerId)
    requires id in b.consumers
    ensures HeldBy(Dismiss(b, id).engine, a.queue, a.id, c) <==> HeldBy(b.engine, a.queue, a.id, c)
    ensures Orphaned(Dismiss(b, id).engine, a) <==> Orphaned(b.engine, a)
  {
    hide LeaveAll, SameCore;
    LeaveAllCore(b.engine, b.consumers[id].queues, id);
    CoreSame(b.engine, Dismiss(b, id).engine, a, c);
  }

  lemma CoreSame(s: State, s': State, a: Addr, c: ConsumerId)
    requires SameCore(s, s')
    ensures HeldBy(s', a.queue, a.id, c) <==> HeldBy(s, a.queue, a.id, c)
    ensures Orphaned(s', a) <==> Orphaned(s, a)
  {
    hide DlqName;
    assert a.queue in s.queues.Keys <==> a.queue in s'.queues.Keys;
    assert DlqName(a.queue) in s.queues.Keys <==> DlqName(a.queue) in s'.queues.Keys;
    if a.queue in s.queues {
      assert Plain(s'.queues[a.queue]) == Plain(s.queues[a.queue]);
    }
  }

  lemma TakenGrows(s: State, c: ConsumerId, todo: seq<Addr>, left: set<QName>, now: Time)
    requires Inv(s) && TakenBack(s, c, todo, left, now, true) && now > 0 && s.cfg.baseDelay >= 0
    ensures Grows(s, todo, now, true) <==> HoldsOrphan(s, c)
  {
    hide Inv, GrownByLast, Recover, Orphaned, HeldBy;
    TakenFacts(s, c, todo, left, now, true);
    AllowedTodo(s, c, todo);
    RecoverGrows(s, todo, now, true);
    if HoldsOrphan(s, c) && left == {} {
      var a: Addr :| HeldBy(s, a.queue, a.id, c) && Orphaned(s, a);
      assert a in todo;
    }
  }

  /** Cancelling a consumer ends in an error if and only if it holds such a delivery. */
  lemma CancelStopsIff(b: Broker, id: ConsumerId, todo: seq<Addr>, left: set<QName>, now: Time)
    requires Inv(b.engine) && id in b.consumers && now > 0 && b.engine.cfg.baseDelay >= 0
    requires TakenBack(Dismiss(b, id).engine, id, todo, left, now, true)
    ensures Grows(Dismiss(b, id).engine, todo, now, true) <==> HoldsOrphan(b.engine, id)
  {
    hide Inv, LeaveAll, SameCore, TakenBack, Grows, Orphaned, HeldBy;
    var s1 := Dismiss(b, id).engine;
    LeaveAllCore(b.engine, b.consumers[id].queues, id);
    CoreInv(b.engine, s1);
    CoreCfg(b.engine, s1);
    TakenGrows(s1, id, todo, left, now);
    forall a: Addr
      ensures HeldBy(s1, a.queue, a.id, id) <==> HeldBy(b.engine, a.queue, a.id, id)
      ensures Orphaned(s1, a) <==> Orphaned(b.engine, a)
    {
      DismissSame(b, id, a, id);
    }
  }

  /** A cancellation without an error leaves the deliveries of the other consumers as they are. */
  lemma OthersSame(b: Broker, id: ConsumerId, todo: seq<Addr>, left: set<QName>, now: Time, c: ConsumerId)
    requires Inv(b.engine) && id in b.consumers && now > 0 && b.engine.cfg.baseDelay >= 0 && c != id
    requires TakenBack(Dismiss(b, id).engine, id, todo, left, now, true)
    requires forall a :: a in todo ==> a.queue in Dismiss(b, id).engine.queues
    requires !Grows(Dismiss(b, id).engine, todo, now, true)
    ensures HoldsOrphan(Cancel(b, id, todo, now).0.engine, c) <==> HoldsOrphan(b.engine, c)
  {
    hide Inv, Cancel, Dismiss, TakenBack, Grows, Orphaned, HeldBy;
    var s' := Cancel(b, id, todo, now).0.engine;
    CancelKeys(b, id, todo, now);
    forall a: Addr
      ensures HeldBy(s', a.queue, a.id, c) && Orphaned(s', a) <==> HeldBy(b.engine, a.queue, a.id, c) && Orphaned(b.engine, a)
    {
      CancelPlaces(b, id, todo, left, now, a.id);
      OrphanSame(b.engine, s', a, c, id, left, now);
    }
  }

  lemma CancelKeys(b: Broker, id: ConsumerId, todo: seq<Addr>, now: Time)
    requires id in b.consumers && forall a :: a in todo ==> a.queue in Dismiss(b, id).engine.queues
    requires !Grows(Dismiss(b, id).engine, todo, now, true)
    ensures Cancel(b, id, todo, now).0.engine.queues.Keys == b.engine.queues.Keys
  {
    hide LeaveAll, Recover, SameCore;
    LeaveAllCore(b.engine, b.consumers[id].queues, id);
    CoreKeys(b.engine, Dismiss(b, id).engine);
  }

  lemma CoreKeys(s: State, s': State)
    requires SameCore(s, s')
    ensures s'.queues.Keys == s.queues.Keys
  {
  }

  lemma HeldPlace(s: State, a: Addr, c: ConsumerId)
    requires Inv(s)
    ensures
      var p := PlaceOf(s, a.id);
      HeldBy(s, a.queue, a.id, c) <==> p.InflightIn? && p.queue == a.queue && p.delivery.consumer == c
    ensures HeldBy(s, a.queue, a.id, c) ==>
      a.id in s.queues[a.queue].messages && PlaceOf(s, a.id).message == s.queues[a.queue].messages[a.id]
  {
    hide Inv, PlaceOf;
    PlaceQueue(s, a.id);
    PlaceMeaning(s, a.queue, a.id);
  }

  lemma OrphanSame(s: State, s': State, a: Addr, c: ConsumerId, id: ConsumerId, left: set<QName>, now: Time)
    requires Inv(s) && Inv(s') && SameSpecs(s, s') && s'.queues.Keys == s.queues.Keys && c != id
    requires
      var p := PlaceOf(s, a.id);
      PlaceOf(s', a.id) == if p.InflightIn? && p.delivery.consumer == id && p.queue !in left then Failed(s, p, now) else p
    ensures HeldBy(s', a.queue, a.id, c) && Orphaned(s', a) <==> HeldBy(s, a.queue, a.id, c) && Orphaned(s, a)
  {
    hide Inv, PlaceOf, HeldBy, DlqName, Failed;
    HeldPlace(s, a, c);
    HeldPlace(s', a, c);
    PlaceQueue(s, a.id);
    FailedDone(s, PlaceOf(s, a.id), now);
    assert a.queue in s.queues.Keys <==> a.queue in s'.queues.Keys;
    assert DlqName(a.queue) in s.queues.Keys <==> DlqName(a.queue) in s'.queues.Keys;
  }

  lemma {:induction false} InterruptedIff(b: Broker, ids: seq<ConsumerId>, todos: seq<seq<Addr>>, lefts: seq<set<QName>>, now: Time)
    requires |lefts| == |todos| == |ids| && Disconnectable(b, ids, todos, lefts, now) && Linked(b)
    requires Inv(b.engine) && now > 0 && b.engine.cfg.baseDelay >= 0
    ensures Interrupted(b, ids, todos, lefts, now) <==> exists id :: id in ids && HoldsOrphan(b.engine, id)
    decreases |ids|
  {
    hide Inv, Linked, Cancel, TakenBack, Dismiss, Disconnectable, Disconnect, Interrupted, Grows, HoldsOrphan, SameSpecs, PlaceOf;
    if ids == [] {
      NothingLeft(b, todos, lefts, now, Gone);
    } else {
      DisconnectNext(b, ids, todos, lefts, now);
      var b1 := Cancel(b, ids[0], todos[0], now).0;
      CancelStopsIff(b, ids[0], todos[0], lefts[0], now);
      assert ids == [ids[0]] + ids[1..];
      if !Grows(Dismiss(b, ids[0]).engine, todos[0], now, true) {
        CancelPlaces(b, ids[0], todos[0], lefts[0], now, "");
        SpecsCfg(b.engine, b1.engine);
        CancelLinked(b, ids[0], todos[0], now);
        CancelConsumers(b, ids[0], todos[0], now);
        InterruptedIff(b1, ids[1..], todos[1..], lefts[1..], now);
        DisconnectRegistry(b1, ids[1..], todos[1..], lefts[1..], now, "");
        forall id | id in ids[1..]
          ensures HoldsOrphan(b1.engine, id) <==> HoldsOrphan(b.engine, id)
        {
          OthersSame(b, ids[0], todos[0], lefts[0], now, id);
        }
      }
    }
  }

  /** The loss of a connection ends in an error if and only if one of its consumers holds a delivery of a message
      that dies now in a queue whose dead-letter queue is missing. */
  lemma DisconnectStopsIff(b: Broker, conn: ConnId, ids: seq<ConsumerId>, todos: seq<seq<Addr>>, lefts: seq<set<QName>>, now: Time)
    requires |lefts| == |todos| == |ids| && Disconnectable(b, ids, todos, lefts, now) && Linked(b)
    requires Inv(b.engine) && now > 0 && b.engine.cfg.baseDelay >= 0
    requires forall id :: id in ids ==> id in Members(b, conn)
    requires Interrupted(b, ids, todos, lefts, now) || forall id :: id in Members(b, conn) ==> id in ids
    ensures Interrupted(b, ids, todos, lefts, now) <==> exists id :: id in Members(b, conn) && HoldsOrphan(b.engine, id)
  {
    hide Inv, Linked, Members, Disconnectable, Interrupted, HoldsOrphan;
    InterruptedIff(b, ids, todos, lefts, now);
  }

  /** A connection is lost, and none of its consumers holds such a delivery. Nothing refers to it any more: it has
      no consumers, no consumer list names one, and no delivery is held by one. And nothing is lost with it: a
      message that one of its consumers held goes where a failed delivery goes, to its queue for a later attempt
      or to the dead-letter queue, and is dropped only if its attempts are used up in a queue without dead
      letters; every other message stays where it is. */
  lemma DisconnectLosesNothing(b: Broker, conn: ConnId, ids: seq<ConsumerId>, todos: seq<seq<Addr>>, lefts: seq<set<QName>>,
                               now: Time, x: Id)
    requires |lefts| == |todos| == |ids| && Disconnectable(b, ids, todos, lefts, now) && Linked(b)
    requires Inv(b.engine) && now > 0 && b.engine.cfg.baseDelay >= 0
    requires forall id :: id in ids ==> id in Members(b, conn)
    requires Interrupted(b, ids, todos, lefts, now) || forall id :: id in Members(b, conn) ==> id in ids
    requires forall id :: id in Members(b, conn) ==> !HoldsOrphan(b.engine, id)
    ensures
      var b' := Disconnect(b, ids, todos, lefts, now);
      var (p, p') := (PlaceOf(b.engine, x), PlaceOf(b'.engine, x));
      var its := p.InflightIn? && p.delivery.consumer in Members(b, conn);
      && !Interrupted(b, ids, todos, lefts, now)
      && conn !in b'.byConnection && (forall id :: id in Members(b, conn) ==> id !in b'.consumers)
      && (forall n :: n in b'.engine.queues ==> forall id :: id in Members(b, conn) ==> id !in b'.engine.queues[n].consumerIds)
      && !(p'.InflightIn? && p'.delivery.consumer in Members(b, conn))
      && (!its ==> p' == p)
      && (its ==>
            p.queue in b.engine.queues &&
            var dead := p.message.attempts + 1 >= p.message.maxAttempts;
            var keeps := b.engine.queues[p.queue].spec.deadLetter;
            if !dead then p'.DelayedIn? && p'.queue == p.queue && p'.message.payload == p.message.payload
            else if keeps then p'.ReadyIn? && p'.queue == DlqName(p.queue) && p'.message.payload == p.message.payload
            else p' == Gone)
  {
    hide ListsOk, ConnectionsOk, Inv, Disconnect, Disconnectable, Interrupted, PlaceOf, IsDlq, DlqName, Backoffs.RetryDelay,
      HoldsOrphan, Reached, Members;
    var b' := Disconnect(b, ids, todos, lefts, now);
    DisconnectStopsIff(b, conn, ids, todos, lefts, now);
    DisconnectPlaces(b, ids, todos, lefts, now, x);
    DisconnectRegistry(b, ids, todos, lefts, now, conn);
    PlacesKnown(b.engine, x);
    assert Members(b', conn) == {};
    GoneFromRegistry(b, b', conn, ids);
    var p := PlaceOf(b.engine, x);
    if p.InflightIn? {
      AllReached(b, ids, todos, lefts, now, p.delivery.consumer, p.queue);
    }
  }

  /** Without an error every delivery of every listed consumer is reached. */
  lemma {:induction false} AllReached(b: Broker, ids: seq<ConsumerId>, todos: seq<seq<Addr>>, lefts: seq<set<QName>>, now: Time,
                                      c: ConsumerId, n: QName)
    requires |lefts| == |todos| == |ids| && Disconnectable(b, ids, todos, lefts, now) && !Interrupted(b, ids, todos, lefts, now)
    ensures Reached(ids, lefts, c, n) <==> c in ids
    decreases |ids|
  {
    hide Cancel, TakenBack, Dismiss, Disconnectable, Disconnect, Interrupted, Grows, Reached;
    if ids == [] {
      NoneReached(lefts, c, n);
    } else {
      DisconnectNext(b, ids, todos, lefts, now);
      TakenFacts(Dismiss(b, ids[0]).engine, ids[0], todos[0], lefts[0], now, true);
      ReachedNext(ids, lefts, c, n);
      AllReached(Cancel(b, ids[0], todos[0], now).0, ids[1..], todos[1..], lefts[1..], now, c, n);
      assert ids == [ids[0]] + ids[1..];
    }
  }

  lemma NoneReached(lefts: seq<set<QName>>, c: ConsumerId, n: QName)
    requires lefts == []
    ensures !Reached([], lefts, c, n)
  {
  }

  lemma GoneFromRegistry(b: Broker, b': Broker, conn: ConnId, ids: seq<ConsumerId>)
    requires Linked(b) && Linked(b') && Members(b', conn) == {} && (forall id :: id in ids <==> id in Members(b, conn))
    requires forall id :: id in b'.consumers ==> id in b.consumers && b'.consumers[id].connection == b.consumers[id].connection
    ensures conn !in b'.byConnection && forall id :: id in Members(b, conn) ==> id !in b'.consumers
    ensures forall n :: n in b'.engine.queues ==> forall id :: id in Members(b, conn) ==> id !in b'.engine.queues[n].consumerIds
  {
    hide NoRepeats;
  }

  /** If one of them does, what is left behind: the consumers whose turn did not come stay registered with their
      connection and keep their deliveries; the consumer whose cancellation raised the error is gone from the
      registry, but keeps its deliveries in the queues that were not visited. */
  lemma DisconnectLeaves(b: Broker, conn: ConnId, ids: seq<ConsumerId>, todos: seq<seq<Addr>>, lefts: seq<set<QName>>, now: Time,
                         x: Id)
    requires |lefts| == |todos| == |ids| && Disconnectable(b, ids, todos, lefts, now) && Linked(b)
    requires Inv(b.engine) && now > 0 && b.engine.cfg.baseDelay >= 0
    requires (forall id :: id in ids ==> id in Members(b, conn)) && Interrupted(b, ids, todos, lefts, now)
    ensures
      var b' := Disconnect(b, ids, todos, lefts, now);
      var (p, p') := (PlaceOf(b.engine, x), PlaceOf(b'.engine, x));
      && Linked(b') && Inv(b'.engine)
      && (forall id :: id in Members(b, conn) ==> (id in b'.consumers <==> id !in ids))
      && Members(b', conn) == (Members(b, conn) - set id | id in ids)
      && (p.InflightIn? && p.delivery.consumer !in ids ==> p' == p)
      && (p.InflightIn? && p.delivery.consumer == ids[|ids| - 1] && p.queue in lefts[|ids| - 1] ==> p' == p)
  {
    hide ListsOk, Inv, Disconnect, Disconnectable, Interrupted, PlaceOf, Reached;
    SomeInterrupted(b, ids, todos, lefts, now);
    DisconnectPlaces(b, ids, todos, lefts, now, x);
    DisconnectRegistry(b, ids, todos, lefts, now, conn);
    var b' := Disconnect(b, ids, todos, lefts, now);
    forall id | id in Members(b, conn)
      ensures id in b'.consumers <==> id !in ids
    {
      StillMember(b, b', conn, ids, id);
    }
    var p := PlaceOf(b.engine, x);
    if p.InflightIn? {
      NotReached(b, ids, todos, lefts, now, p.delivery.consumer, p.queue);
    }
  }

  lemma StillMember(b: Broker, b': Broker, conn: ConnId, ids: seq<ConsumerId>, id: ConsumerId)
    requires Linked(b') && Members(b', conn) == (Members(b, conn) - set x | x in ids) && id in Members(b, conn)
    requires forall x :: x in ids ==> x !in b'.consumers
    ensures id in b'.consumers <==> id !in ids
  {
    hide ListsOk;
    if id !in ids {
      assert id in Members(b', conn);
    }
  }

  lemma SomeInterrupted(b: Broker, ids: seq<ConsumerId>, todos: seq<seq<Addr>>, lefts: seq<set<QName>>, now: Time)
    requires |lefts| == |todos| == |ids| && Disconnectable(b, ids, todos, lefts, now) && Interrupted(b, ids, todos, lefts, now)
    ensures ids != []
  {
    hide Disconnectable;
  }

  /** Each consumer is cancelled once, so its deliveries are reached at its own turn or not at all. */
  lemma {:induction false} NotReached(b: Broker, ids: seq<ConsumerId>, todos: seq<seq<Addr>>, lefts: seq<set<QName>>, now: Time,
                                      c: ConsumerId, n: QName)
    requires |lefts| == |todos| == |ids| && ids != [] && Disconnectable(b, ids, todos, lefts, now) && Linked(b)
    ensures c !in ids ==> !Reached(ids, lefts, c, n)
    ensures c == ids[|ids| - 1] && n in lefts[|ids| - 1] ==> !Reached(ids, lefts, c, n)
    decreases |ids|
  {
    hide Linked, Cancel, TakenBack, Dismiss, Disconnectable, Disconnect, Interrupted, Grows, Reached, Members;
    DisconnectNext(b, ids, todos, lefts, now);
    ReachedNext(ids, lefts, c, n);
    assert ids == [ids[0]] + ids[1..];
    if |ids| == 1 {
      NoneReached(lefts[1..], c, n);
      assert ids[1..] == [];
    } else {
      var b1 := Cancel(b, ids[0], todos[0], now).0;
      CancelLinked(b, ids[0], todos[0], now);
      CancelConsumers(b, ids[0], todos[0], now);
      DisconnectRegistry(b1, ids[1..], todos[1..], lefts[1..], now, "");
      assert ids[|ids| - 1] in ids[1..];
      NotReached(b1, ids[1..], todos[1..], lefts[1..], now, c, n);
    }
  }
}
