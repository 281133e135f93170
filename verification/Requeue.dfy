/** Requeueing a dead letter, and deleting queues. */
module Requeue {
  import opened Types
  import opened DlqNames
  import opened Heaps
  import opened Engine
  import opened Index
  import opened Partition
  import opened Invariant
  import opened InvariantOps
  import opened Places
  import opened Ticks

  /** The dead-letter queue, its origin and the message all exist. */
  predicate Found(s: State, n: QName, id: Id) {
    var origin := OriginQueue(n);
    origin in s.queues && Holds(s, DlqName(origin), id)
  }

  function Withdrawn(s: State, dn: QName, id: Id): State
    requires dn in s.queues
  {
    SetQueue(s, dn, Withdraw(s.queues[dn], id)).(byId := s.byId - {id})
  }

  function BackMessage(s: State, n: QName, id: Id): Message
    requires Found(s, n, id)
  {
    Revived(s.queues[DlqName(OriginQueue(n))].messages[id], OriginQueue(n))
  }

  lemma WithdrawnInv(s: State, dn: QName, id: Id)
    requires Inv(s) && dn in s.queues && id in Items(s.queues[dn].ready)
    ensures Inv(Withdrawn(s, dn, id)) && Fresh(Withdrawn(s, dn, id), id)
    ensures SameElsewhere(s, Withdrawn(s, dn, id), id) && PlaceOf(Withdrawn(s, dn, id), id) == Gone
  {
    hide TablesAgree, QueueOk, HeapsOk, NoEntry, Items, Drop, Without, SameElsewhere, PlaceOf, PartsOk;
    var d := s.queues[dn];
    var d' := Withdraw(d, id);
    ReadyNoEntry(s, dn, id);
    RemoveIndex(s, dn, id, d');
    PartOf(s, dn);
    WithdrawOk(dn, d, id);
    SetParts(s.queues, dn, d');
    ShrinkHeaps(s, dn, d', s.byId - {id}, id);
    SetPlace(s, Withdrawn(s, dn, id), dn, id);
    GoneWithoutIndex(Withdrawn(s, dn, id), id);
  }

  lemma GoneWithoutIndex(s: State, id: Id)
    requires id !in s.byId
    ensures PlaceOf(s, id) == Gone
  {
  }

  lemma PartOf(s: State, n: QName)
    requires Inv(s) && n in s.queues
    ensures QueueOk(n, s.queues[n])
  {
  }

  lemma ReadyNoEntry(s: State, n: QName, id: Id)
    requires Inv(s) && n in s.queues && id in Items(s.queues[n].ready)
    ensures NoEntry(s.delayed, id) && Holds(s, n, id) && id in s.byId && s.byId[id] == n
    ensures id !in s.queues[n].delayedIds && id !in s.queues[n].inflight
    ensures s.queues[n].messages[id].id == id
  {
    hide Items, HeapOk, IsHeap, NoEntry, EntryOk, TablesAgree;
    assert QueueOk(n, s.queues[n]);
    assert id in s.queues[n].messages.Keys;
    IndexAt(s, n, id);
    NoEntryOf(s, n, id);
  }

  /** The rollback: the message goes back to the dead-letter queue's ready heap. */
  function PutBack(s: State, m: Message): State
    requires m.queue in s.queues
  {
    SetQueue(s, m.queue, Mature(s.queues[m.queue], m, s.lastOrd + 1)).(
      byId := s.byId[m.id := m.queue],
      lastOrd := s.lastOrd + 1)
  }

  lemma RequeueForm(s: State, n: QName, id: Id, now: Time, persist: bool)
    requires IndexOk(s)
    ensures !Found(s, n, id) ==> DlqRequeue(s, n, id, now, persist) == (s, false)
    ensures Found(s, n, id) ==>
      var dn := DlqName(OriginQueue(n));
      var s1 := Withdrawn(s, dn, id);
      var (s2, r) := Enqueue(s1, BackMessage(s, n, id), now, false);
      && BackMessage(s, n, id).id == id
      && DlqRequeue(s, n, id, now, persist) ==
         if r == EnqueueOk then (Log(s2, Journal.MessageRequeue(id, dn, OriginQueue(n)), [], persist), true)
         else (PutBack(s1, BackMessage(s, n, id).(queue := dn)), false)
  {
    hide TablesAgree, IsDlq, Push, Drop, Admit, Stored, Without, Full;
    if Found(s, n, id) {
      IndexAt(s, DlqName(OriginQueue(n)), id);
    }
  }

  lemma RequeueInv(s: State, n: QName, id: Id, now: Time, persist: bool)
    requires Inv(s) && now > 0 && Found(s, n, id) && id in Items(s.queues[DlqName(OriginQueue(n))].ready)
    ensures Inv(DlqRequeue(s, n, id, now, persist).0)
  {
    hide IndexOk, PartsOk, HeapsOk, Fresh, Items, IsDlq, Enqueue, Push, DlqRequeue, BackMessage, Withdrawn;
    var dn := DlqName(OriginQueue(n));
    var m := BackMessage(s, n, id);
    RequeueForm(s, n, id, now, persist);
    WithdrawnInv(s, dn, id);
    WithdrawnQueues(s, n, id);
    EnqueueInv(Withdrawn(s, dn, id), m, now, false);
    LogInv(Enqueue(Withdrawn(s, dn, id), m, now, false).0, Journal.MessageRequeue(id, dn, OriginQueue(n)), [], persist);
    PutBackInv(Withdrawn(s, dn, id), m.(queue := dn));
  }

  lemma PutBackInv(s: State, m: Message)
    requires Inv(s) && Fresh(s, m.id) && m.queue in s.queues
    ensures Inv(PutBack(s, m))
  {
    hide Inv, Fresh, Push;
    ArriveInv(s, m, Mature(s.queues[m.queue], m, s.lastOrd + 1), s.lastOrd + 1);
  }

  lemma WithdrawnQueues(s: State, n: QName, id: Id)
    requires Found(s, n, id)
    ensures Withdrawn(s, DlqName(OriginQueue(n)), id).queues.Keys == s.queues.Keys
  {
    hide IsDlq, Drop, Without;
  }

  /** Neither the requeue nor its rollback touches deliveries or delays of the dead-letter queue. */
  lemma RequeueLeaves(s: State, n: QName, id: Id, now: Time, persist: bool)
    requires IndexOk(s) && Found(s, n, id)
    ensures
      var dn := DlqName(OriginQueue(n));
      var queues := DlqRequeue(s, n, id, now, persist).0.queues;
      && dn in queues
      && queues[dn].inflight == s.queues[dn].inflight && queues[dn].delayedIds == s.queues[dn].delayedIds
      && (id in queues[dn].messages ==> id in Items(queues[dn].ready))
  {
    hide TablesAgree, IsDlq, Push, Drop, Without, DlqRequeue, Items, Full;
    RequeueForm(s, n, id, now, persist);
  }

  /** If the dead letter is not ready, the requeue leaves its delivery or its delay behind: the message
      then is in two places, or a container names a message that the queue does not store. */
  lemma RequeueBreaks(s: State, n: QName, id: Id, now: Time, persist: bool)
    requires Inv(s) && Found(s, n, id) && id !in Items(s.queues[DlqName(OriginQueue(n))].ready)
    ensures DlqName(OriginQueue(n)) in DlqRequeue(s, n, id, now, persist).0.queues
    ensures !QueueOk(DlqName(OriginQueue(n)), DlqRequeue(s, n, id, now, persist).0.queues[DlqName(OriginQueue(n))])
  {
    hide HeapsOk, TablesAgree, IsDlq, HeapOk, DeliveriesOk, TimesOk, DlqRequeue, PartsOk, Items;
    var dn := DlqName(OriginQueue(n));
    PartOf(s, dn);
    RequeueLeaves(s, n, id, now, persist);
    assert id in s.queues[dn].messages.Keys;
    assert id in s.queues[dn].inflight || id in s.queues[dn].delayedIds;
  }

  /** dlq_requeue keeps the invariant exactly when the dead letter is ready. */
  lemma RequeueKeepsIff(s: State, n: QName, id: Id, now: Time, persist: bool)
    requires Inv(s) && now > 0 && Found(s, n, id)
    ensures Inv(DlqRequeue(s, n, id, now, persist).0) <==> id in Items(s.queues[DlqName(OriginQueue(n))].ready)
  {
    hide IndexOk, HeapsOk, QueueOk, IsDlq, Items, DlqRequeue;
    if id in Items(s.queues[DlqName(OriginQueue(n))].ready) {
      RequeueInv(s, n, id, now, persist);
    } else {
      RequeueBreaks(s, n, id, now, persist);
    }
  }

  lemma PutBackPlace(s: State, m: Message)
    requires Inv(s) && Fresh(s, m.id) && m.queue in s.queues
    ensures SameElsewhere(s, PutBack(s, m), m.id) && PlaceOf(PutBack(s, m), m.id) == ReadyIn(m.queue, m)
  {
    hide HeapsOk, TablesAgree, SameElsewhere, QueueOk, Push, Items;
    FreshNotDelayed(s, m.queue, m.id);
    SetPlace(s, PutBack(s, m), m.queue, m.id);
  }

  /** A ready dead letter goes back to its origin with its attempts forgotten, unless the origin is full;
      then it stays ready in the dead-letter queue, and its attempts are forgotten all the same. */
  lemma RequeuePlace(s: State, n: QName, id: Id, now: Time, persist: bool)
    requires Inv(s) && Found(s, n, id) && id in Items(s.queues[DlqName(OriginQueue(n))].ready)
    ensures
      var dn, origin := DlqName(OriginQueue(n)), OriginQueue(n);
      var (s', ok) := DlqRequeue(s, n, id, now, persist);
      && SameElsewhere(s, s', id)
      && PlaceOf(s, id).ReadyIn?
      && PlaceOf(s', id) == ReadyIn(if ok then origin else dn,
           PlaceOf(s, id).message.(queue := if ok then origin else dn, attempts := 0, availableAt := None))
      && (origin != dn ==>
            (ok <==> !(s.queues[origin].spec.maxLength.Some? &&
                       |s.queues[origin].messages| >= s.queues[origin].spec.maxLength.value)))
  {
    hide IndexOk, PartsOk, HeapsOk, Fresh, Items, IsDlq, Enqueue, Push, DlqRequeue, SameElsewhere, PlaceOf;
    var dn, origin := DlqName(OriginQueue(n)), OriginQueue(n);
    var m := BackMessage(s, n, id);
    var s1 := Withdrawn(s, dn, id);
    PlaceMeaning(s, dn, id);
    RequeueForm(s, n, id, now, persist);
    WithdrawnInv(s, dn, id);
    WithdrawnQueues(s, n, id);
    EnqueueAnswer(s1, m, now, false);
    PutBackPlace(s1, m.(queue := dn));
    if Enqueue(s1, m, now, false).1 == EnqueueOk {
      EnqueuePlace(s1, m, now, false);
      SameTablesSamePlace(Enqueue(s1, m, now, false).0, DlqRequeue(s, n, id, now, persist).0);
      ElsewhereTrans(s, s1, s1, Enqueue(s1, m, now, false).0, id);
      ElsewhereSame(s, Enqueue(s1, m, now, false).0, DlqRequeue(s, n, id, now, persist).0, id);
    } else {
      ElsewhereTrans(s, s1, s1, PutBack(s1, m.(queue := dn)), id);
    }
  }

  lemma ElsewhereSame(s: State, s1: State, s2: State, id: Id)
    requires SameElsewhere(s, s1, id) && forall x :: PlaceOf(s2, x) == PlaceOf(s1, x)
    ensures SameElsewhere(s, s2, id)
  {
    hide PlaceOf;
  }

  // ----- deleting queues -----

  /** The names that one delete removes. */
  predicate Deleted(s: State, n: QName, x: QName) {
    n in s.queues && (x == n || (s.queues[n].spec.deadLetter && x == DlqName(n)))
  }

  /** Deleting a queue removes it, and its dead-letter queue if it has one, with all their messages; every
      other queue and every other message is left alone. */
  lemma DeletePlace(s: State, n: QName, persist: bool)
    requires IndexOk(s)
    ensures Delete(s, n, persist).1 <==> n in s.queues
    ensures forall x :: x in Delete(s, n, persist).0.queues <==> x in s.queues && !Deleted(s, n, x)
    ensures forall x :: x in Delete(s, n, persist).0.queues ==> Delete(s, n, persist).0.queues[x] == s.queues[x]
    ensures forall id :: PlaceOf(Delete(s, n, persist).0, id) ==
              if PlaceOf(s, id) != Gone && Deleted(s, n, PlaceOf(s, id).queue) then Gone else PlaceOf(s, id)
  {
    hide IsDlq, TablesAgree;
    if n in s.queues {
      var s1 := Log(DeleteOne(s, n), Journal.QueueDelete(n), [], persist);
      assert s.queues.Keys == s1.queues.Keys + {n};
      DeleteOnePlace(s, n);
      DeleteIndexOne(s, n);
      SpecIndex(s, n);
      SameTablesSamePlace(DeleteOne(s, n), s1);
      if s.queues[n].spec.deadLetter {
        var dn := DlqName(n);
        if dn in s1.queues {
          DeleteOnePlace(s1, dn);
          SpecIndex(s, dn);
          var s2 := Log(DeleteOne(s1, dn), Journal.QueueDelete(dn), [], persist);
          SameTablesSamePlace(DeleteOne(s1, dn), s2);
          assert Delete(s1, dn, persist).0 == s2;
        }
      }
    }
  }

  function DeleteOne(s: State, n: QName): State
    requires n in s.queues
  {
    s.(queues := s.queues - {n}, byId := s.byId - s.queues[n].messages.Keys)
  }

  lemma DeleteOnePlace(s: State, n: QName)
    requires IndexOk(s) && n in s.queues
    ensures forall id :: PlaceOf(DeleteOne(s, n), id) ==
              if PlaceOf(s, id) != Gone && PlaceOf(s, id).queue == n then Gone else PlaceOf(s, id)
  {
    hide IsDlq;
    forall id
      ensures PlaceOf(DeleteOne(s, n), id) ==
        if PlaceOf(s, id) != Gone && PlaceOf(s, id).queue == n then Gone else PlaceOf(s, id)
    {
      if id in s.byId && s.byId[id] != n {
        assert id !in s.queues[n].messages;
      }
    }
  }
}
