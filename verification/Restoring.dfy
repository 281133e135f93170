/** Restoring a snapshot, by the index alone: no assumption on how messages are spread over the containers. */
module Restoring {
  import opened Types
  import opened DlqNames
  import opened Heaps
  import opened Engine
  import opened Index
  import opened Runs
  import opened Snapshot
  import opened Replay
  import opened Recovery

  // ----- restoring a snapshot, by the index alone -----

  lemma RestoreMessageTables(s: State, n: QName, sm: SavedMessage, now: Time)
    requires IndexOk(s) && n in s.queues && sm.message.queue == n && sm.message.id !in s.byId
    ensures
      var s' := RestoreMessage(s, n, sm, now);
      && IndexOk(s') && s'.cfg == s.cfg && s'.journal == s.journal
      && s'.byId == s.byId[sm.message.id := n]
      && s'.queues.Keys == s.queues.Keys && (forall x :: x in s.queues && x != n ==> s'.queues[x] == s.queues[x])
      && s'.queues[n].spec == s.queues[n].spec && s'.queues[n].inflight == s.queues[n].inflight
      && s'.queues[n].messages == s.queues[n].messages[sm.message.id := sm.message]
  {
    hide TablesAgree, Push, DueOrNow;
    AddIndex(s, sm.message, RestoredQueue(s.queues[n], sm, s.lastOrd + 1));
    assert RestoreMessage(s, n, sm, now).queues.Keys == s.queues.Keys;
  }

  lemma RestoreMessagesTables(s: State, n: QName, list: seq<SavedMessage>, now: Time)
    requires IndexOk(s) && n in s.queues && DistinctIds(list)
    requires forall sm :: sm in list ==> sm.message.queue == n && sm.message.id !in s.byId
    ensures
      var s' := RestoreMessages(s, n, list, now);
      && IndexOk(s') && s'.cfg == s.cfg && s'.journal == s.journal
      && s'.queues.Keys == s.queues.Keys && (forall x :: x in s.queues && x != n ==> s'.queues[x] == s.queues[x])
      && s'.queues[n].spec == s.queues[n].spec && s'.queues[n].inflight == s.queues[n].inflight
      && (forall id :: id in s'.queues[n].messages <==> id in s.queues[n].messages || InList(list, id))
      && (forall id :: id in s.queues[n].messages && !InList(list, id) ==>
            s'.queues[n].messages[id] == s.queues[n].messages[id])
      && (forall sm :: sm in list ==> s'.queues[n].messages[sm.message.id] == sm.message)
    decreases |list|
  {
    hide IndexOk, InList, DistinctIds, RestoreMessage;
    if list == [] {
      NoneListed(list);
    } else {
      var sm0 := list[0];
      assert sm0 in list;
      TailIds(list);
      RestoreMessageTables(s, n, sm0, now);
      forall sm | sm in list[1..]
        ensures sm.message.id != sm0.message.id
      {
        MemberListed(list[1..], sm);
      }
      RestoreMessagesTables(RestoreMessage(s, n, sm0, now), n, list[1..], now);
      assert list == [sm0] + list[1..];
    }
  }

  lemma NoneListed(list: seq<SavedMessage>)
    requires list == []
    ensures forall id :: !InList(list, id)
  {
  }

  /** The source's tables, as far as the queues have been restored; deliveries are forgotten. */
  ghost predicate Partial(src: map<QName, Queue>, queues: map<QName, Queue>) {
    forall n :: n in queues ==>
      n in src && queues[n].spec == src[n].spec && queues[n].messages == src[n].messages && queues[n].inflight == map[]
  }

  lemma PartialFresh(src: State, s: State, n: QName, id: Id)
    requires IndexOk(src) && IndexOk(s) && Partial(src.queues, s.queues) && n !in s.queues && Holds(src, n, id)
    ensures id !in s.byId
  {
    hide QueueIndexOk;
    if id in s.byId {
      IndexAt(src, n, id);
      IndexAt(src, s.byId[id], id);
      assert false;
    }
  }

  lemma DescribedMessage(src: State, n: QName, sq: SavedQueue, sm: SavedMessage)
    requires IndexOk(src) && n in src.queues && Describes(src.queues[n], sq) && sm in sq.messages
    ensures Holds(src, n, sm.message.id) && sm.message.queue == n
    ensures sm.message == src.queues[n].messages[sm.message.id]
  {
    hide TablesAgree, InList, DistinctIds, NameOf;
    MemberListed(sq.messages, sm);
    IndexAt(src, n, sm.message.id);
  }

  lemma AddEmptyIndex(s: State, n: QName, q: Queue)
    requires IndexOk(s) && n !in s.queues && q.messages == map[]
    requires q.spec.name == n && (q.spec.deadLetter ==> !IsDlq(n))
    ensures IndexOk(SetQueue(s, n, q))
  {
    hide IsDlq;
  }

  lemma SameMessages(q: Queue, sq: SavedQueue, messages: map<Id, Message>)
    requires Describes(q, sq) && forall id :: id in messages <==> InList(sq.messages, id)
    requires forall sm :: sm in sq.messages ==> sm.message.id in messages && messages[sm.message.id] == sm.message
    ensures messages == q.messages
  {
    hide DistinctIds, NameOf;
    forall id | id in messages
      ensures id in q.messages && messages[id] == q.messages[id]
    {
      var sm := ListedMember(sq.messages, id);
    }
  }

  lemma RestoreQueueTables(src: State, s: State, sq: SavedQueue, now: Time)
    requires IndexOk(src) && IndexOk(s) && Partial(src.queues, s.queues)
    requires sq.spec.name in src.queues && sq.spec.name !in s.queues && Describes(src.queues[sq.spec.name], sq)
    ensures
      var s' := RestoreQueue(s, sq, now);
      && IndexOk(s') && s'.cfg == s.cfg && s'.journal == s.journal
      && s'.queues.Keys == s.queues.Keys + {sq.spec.name} && Partial(src.queues, s'.queues)
  {
    hide TablesAgree, InList, DistinctIds, IsDlq, RestoreMessages, Describes;
    var n := sq.spec.name;
    var q := NewQueue(sq.spec).(stats := sq.stats);
    var s1 := SetQueue(s, n, q);
    DescribedSpec(src, n, sq);
    AddEmptyIndex(s, n, q);
    forall sm | sm in sq.messages
      ensures sm.message.queue == n && sm.message.id !in s1.byId && InList(sq.messages, sm.message.id)
    {
      MemberListed(sq.messages, sm);
      DescribedMessage(src, n, sq, sm);
      PartialFresh(src, s, n, sm.message.id);
    }
    RestoreMessagesTables(s1, n, sq.messages, now);
    SameMessages(src.queues[n], sq, RestoreMessages(s1, n, sq.messages, now).queues[n].messages);
  }

  lemma DescribedSpec(src: State, n: QName, sq: SavedQueue)
    requires IndexOk(src) && n in src.queues && Describes(src.queues[n], sq)
    ensures sq.spec == src.queues[n].spec && DistinctIds(sq.messages)
    ensures sq.spec.name == n && (sq.spec.deadLetter ==> !IsDlq(n))
  {
    hide InList, DistinctIds, IsDlq, NameOf;
  }

  lemma RestoreQueuesTables(src: State, s: State, queues: seq<SavedQueue>, now: Time)
    requires IndexOk(src) && IndexOk(s) && Partial(src.queues, s.queues)
    requires AllDescribed(src, queues) && forall n :: Named(queues, n) ==> n !in s.queues
    ensures
      var s' := RestoreQueues(s, queues, now);
      && IndexOk(s') && s'.cfg == s.cfg && s'.journal == s.journal
      && (forall n :: n in s'.queues <==> n in s.queues || Named(queues, n)) && Partial(src.queues, s'.queues)
    decreases |queues|
  {
    hide IndexOk, Describes, DistinctNames, Named, RestoreQueue, Partial;
    if queues == [] {
      NothingNamed(queues);
    } else {
      assert queues[0] in queues;
      TailNames(queues);
      RestoreQueueTables(src, s, queues[0], now);
      RestoreQueuesTables(src, RestoreQueue(s, queues[0], now), queues[1..], now);
    }
  }

  lemma PartialWhole(src: State, s: State)
    requires IndexOk(src) && IndexOk(s) && Partial(src.queues, s.queues) && s.queues.Keys == src.queues.Keys
    ensures s.byId == src.byId && Idle(s.queues)
    ensures forall id :: Letter(s, id) == Letter(src, id)
  {
    hide QueueIndexOk;
    forall id
      ensures id in s.byId <==> id in src.byId
      ensures id in s.byId ==> s.byId[id] == src.byId[id]
    {
      if id in s.byId {
        IndexAt(src, s.byId[id], id);
      }
      if id in src.byId {
        IndexAt(s, src.byId[id], id);
      }
    }
  }

  /** A restored engine holds exactly the messages of the saved one, whatever state the saved one was in. */
  lemma RestoreTables(src: State, saved: Saved, target: State, now: Time)
    requires IndexOk(src) && IsSnapshot(src, saved)
    ensures
      var s := Restore(target, saved, now);
      && IndexOk(s) && s.cfg == target.cfg && s.journal == target.journal && Idle(s.queues)
      && s.byId == src.byId && s.queues.Keys == src.queues.Keys && Partial(src.queues, s.queues)
      && forall id :: Letter(s, id) == Letter(src, id)
  {
    hide TablesAgree, Letter, Describes, DistinctNames, RestoreQueues, IsSnapshot, Named, Idle;
    var s0 := target.(queues := map[], byId := map[], visibility := [], delayed := [], lastOrd := saved.lastOrd);
    EmptyIndex(s0);
    SnapshotDescribes(src, saved);
    RestoreQueuesTables(src, s0, saved.queues, now);
    PartialWhole(src, Restore(target, saved, now));
  }

  lemma EmptyIndex(s: State)
    requires s.queues == map[] && s.byId == map[]
    ensures IndexOk(s) && Idle(s.queues)
  {
  }
}
