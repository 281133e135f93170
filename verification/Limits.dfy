/** Where recovery does lose a live message, and why the recovery theorem asks for what it asks. */
module Limits {
  import opened Types
  import opened DlqNames
  import opened Heaps
  import opened Journal
  import opened Engine
  import opened Index
  import opened Requeue
  import opened Replay
  import opened Recovery
  import opened Restarts
  import opened Crashes

  // ----- a bounded queue -----

  /** Nothing is ready, delayed or in flight in the queue. */
  predicate Vacant(s: State, n: QName) {
    n in s.queues && s.queues[n].ready == [] && s.queues[n].delayedIds == {} && s.queues[n].inflight == map[]
  }

  /** An empty queue of length one. */
  predicate OneSlot(s: State, n: QName) {
    Vacant(s, n) && s.queues[n].spec.maxLength == Some(1)
  }

  lemma FirstSlot(s: State, m: Message, now: Time, persist: bool)
    requires Vacant(s, m.queue) && m.availableAt == None
    requires s.queues[m.queue].spec.maxLength.Some? ==> s.queues[m.queue].spec.maxLength.value > 0
    ensures
      var (s', r) := Enqueue(s, m, now, persist);
      && r == EnqueueOk && m.queue in s'.queues && s'.recentAcks == s.recentAcks && s'.byId == s.byId[m.id := m.queue]
      && s'.queues[m.queue].ready == [ReadyEntry(m, s.lastOrd + 1)]
      && s'.queues[m.queue].spec == s.queues[m.queue].spec
      && s'.queues[m.queue].delayedIds == {} && s'.queues[m.queue].inflight == map[]
      && s'.queues[m.queue].messages == s.queues[m.queue].messages[m.id := m]
      && s'.journal == if persist then s.journal + [PublishRec(m)] else s.journal
  {
  }

  lemma TakeSlot(s: State, n: QName, c: ConsumerId, now: Time, e: Entry<Id>)
    requires n in s.queues && s.queues[n].ready == [e] && e.item in s.queues[n].messages
    requires s.queues[n].delayedIds == {} && s.queues[n].inflight == map[]
    ensures
      var (s', r) := Reserve(s, n, c, now);
      && r == Some(s.queues[n].messages[e.item]) && n in s'.queues
      && s'.queues[n].ready == [] && s'.queues[n].delayedIds == {} && s'.queues[n].spec == s.queues[n].spec
      && s'.queues[n].inflight.Keys == {e.item} && s'.byId == s.byId && s'.recentAcks == s.recentAcks
      && s'.journal == s.journal
  {
    hide Push;
  }

  lemma FreeSlot(s: State, n: QName, id: Id)
    requires n in s.queues && s.queues[n].ready == [] && s.queues[n].delayedIds == {} && s.queues[n].inflight.Keys == {id}
    requires s.queues[n].spec.maxLength == Some(1) && id in s.byId && s.byId[id] == n && id !in s.recentAcks
    ensures
      var (s', r) := Ack(s, id, true);
      && r == AckOk && OneSlot(s', n) && s'.byId == s.byId - {id} && s'.journal == s.journal + [Rec(MessageAck(id, n), [])]
  {
    hide Trim;
    assert s.queues[n].inflight - {id} == map[];
  }

  lemma SecondSlot(s: State, m: Message, now: Time)
    requires m.queue in s.queues && |s.queues[m.queue].ready| == 1 && s.queues[m.queue].spec.maxLength == Some(1)
    ensures Enqueue(s, m, now, false) == (s, QueueFull)
  {
  }

  /** A bounded queue that forgets its acknowledgements: a message is delivered and acknowledged, the next
      one takes its place, and the replay, which still holds the first, has no room for the second. */
  lemma BoundedReplayLoses(s: State, a: Message, b: Message, c: ConsumerId, now: Time, clock: seq<Time>)
    requires IndexOk(s) && Idle(s.queues) && OneSlot(s, a.queue) && b.queue == a.queue && |clock| == 3
    requires a.id != b.id && a.id !in s.byId && b.id !in s.byId && a.id !in s.recentAcks
    requires a.availableAt == None && b.availableAt == None
    ensures
      var recs := [PublishRec(a), Rec(MessageAck(a.id, a.queue), []), PublishRec(b)];
      var live1 := Enqueue(s, a, now, true).0;
      var live2 := Reserve(live1, a.queue, c, now).0;
      var live3 := Ack(live2, a.id, true).0;
      var live4 := Enqueue(live3, b, now, true).0;
      && live4.journal == s.journal + recs
      && Letter(live4, b.id) == Some(b)
      && Letter(ReplayAll(s, recs, clock), b.id) == None
  {
    hide TablesAgree, Idle, Enqueue, Reserve, Ack, ReplayAll, Apply, Declare, ReadyEntry, Letter;
    var recs := [PublishRec(a), Rec(MessageAck(a.id, a.queue), []), PublishRec(b)];
    var live1 := Enqueue(s, a, now, true).0;
    var live2 := Reserve(live1, a.queue, c, now).0;
    var live3 := Ack(live2, a.id, true).0;
    FirstSlot(s, a, now, true);
    EntryItem(a, s.lastOrd + 1);
    TakeSlot(live1, a.queue, c, now, ReadyEntry(a, s.lastOrd + 1));
    FreeSlot(live2, a.queue, a.id);
    FirstSlot(live3, b, now, true);
    StoredLetterOf(live3, b, now);
    BoundedReplay(s, a, b, clock);
  }

  lemma EntryItem(m: Message, ord: nat)
    ensures ReadyEntry(m, ord).item == m.id
  {
  }

  lemma StoredLetterOf(s: State, m: Message, now: Time)
    requires OneSlot(s, m.queue) && m.availableAt == None
    ensures Letter(Enqueue(s, m, now, true).0, m.id) == Some(m)
  {
    hide Enqueue, ReadyEntry;
    FirstSlot(s, m, now, true);
  }

  lemma BoundedReplay(s: State, a: Message, b: Message, clock: seq<Time>)
    requires IndexOk(s) && Idle(s.queues) && OneSlot(s, a.queue) && b.queue == a.queue && |clock| == 3
    requires a.id != b.id && a.id !in s.byId && b.id !in s.byId
    requires a.availableAt == None && b.availableAt == None
    ensures Letter(ReplayAll(s, [PublishRec(a), Rec(MessageAck(a.id, a.queue), []), PublishRec(b)], clock), b.id) == None
  {
    hide TablesAgree, Idle, Enqueue, ReplayAll, Apply, Declare, ReadyEntry, Letter, Reserve, Ack;
    var ack := Rec(MessageAck(a.id, a.queue), []);
    var recs := [PublishRec(a), ack, PublishRec(b)];
    var back := Apply(s, PublishRec(a), clock[0]);
    PublishApply(s, a, clock[0]);
    DeclareThere(s, a.queue, DEFAULT_ARGS, false);
    FirstSlot(s, a, clock[0], false);
    ApplyContinues(s, PublishRec(a), clock[0]);
    QuietApply(back, ack, clock[1]);
    PublishApply(back, b, clock[2]);
    DeclareThere(back, b.queue, DEFAULT_ARGS, false);
    SecondSlot(back, b, clock[2]);
    ReplayThree(s, recs[0], recs[1], recs[2], clock);
    GoneLetter(back, b.id);
  }

  lemma ReplayThree(s: State, a: Rec, b: Rec, c: Rec, clock: seq<Time>)
    requires |clock| == 3
    ensures ReplayAll(s, [a, b, c], clock) == Apply(Apply(Apply(s, a, clock[0]), b, clock[1]), c, clock[2])
  {
    hide Apply;
    assert [a, b, c][1..] == [b, c];
    ReplayTwo(Apply(s, a, clock[0]), b, c, clock[1..]);
  }

  // ----- a doubly suffixed name -----

  /** A requeue named after a doubly suffixed queue leaves the live message in its dead-letter queue, but
      its record takes the replayed message on to the origin. If the origin keeps no dead letters of its
      own, deleting it loses the message. */
  lemma StrayedRequeueLoses(s: State, n: QName, id: Id, now: Time, clock: seq<Time>)
    requires IndexOk(s) && Idle(s.queues) && Roomy(s) && |clock| == 2
    requires !Straight(s, n) && Found(s, n, id)
    ensures
      var target := OriginQueue(n);
      var origin := OriginQueue(target);
      var (live1, ok) := DlqRequeue(s, n, id, now, true);
      var live2 := Delete(live1, origin, true).0;
      var recs := [Rec(MessageRequeue(id, target, target), []), Rec(QueueDelete(origin), [])];
      && ok && live2.journal == s.journal + recs
      && Letter(live2, id).Some?
      && Letter(ReplayAll(s, recs, clock), id) == None
  {
    hide TablesAgree, Idle, DlqRequeue, Delete, IsDlq, Letter, SameHouses, SameLetters, Full, Roomy, Apply, ReplayAll;
    var target := OriginQueue(n);
    var origin := OriginQueue(target);
    var live1 := DlqRequeue(s, n, id, now, true).0;
    StrayRooms(s, n, id, now);
    RequeueLetters(s, n, id, now, true);
    RequeueSame(s, n, id, now, true);
    HousesSpec(s.queues, live1.queues, origin);
    StrayDelete(live1, origin, target, id);
    StrayReplay(s, target, origin, id, clock);
  }

  lemma HousesSpec(queues: map<QName, Queue>, queues': map<QName, Queue>, n: QName)
    requires SameHouses(queues, queues') && n in queues
    ensures n in queues' && queues'[n].spec == queues[n].spec
  {
  }

  lemma StrayRooms(s: State, n: QName, id: Id, now: Time)
    requires IndexOk(s) && Roomy(s) && !Straight(s, n) && Found(s, n, id)
    ensures DlqName(OriginQueue(n)) == OriginQueue(n) && DlqRequeue(s, n, id, now, true).1
  {
    hide TablesAgree, DlqRequeue, Full, Stored, IsDlq;
    var target := OriginQueue(n);
    RequeueForm(s, n, id, now, true);
    WithdrawnLetters(s, target, id);
    WithdrawRoomy(s, target, id);
    WithdrawnQueues(s, n, id);
    NeverFull(Withdrawn(s, target, id), target);
  }

  lemma StrayDelete(s: State, origin: QName, target: QName, id: Id)
    requires IndexOk(s) && origin in s.queues && !s.queues[origin].spec.deadLetter && origin != target
    requires Letter(s, id).Some? && Letter(s, id).value.queue == target
    ensures Letter(Delete(s, origin, true).0, id) == Letter(s, id)
    ensures Delete(s, origin, true).0.journal == s.journal + [Rec(QueueDelete(origin), [])]
  {
    hide TablesAgree, Delete, IsDlq, Letter;
    DeletePlace(s, origin, true);
    DeleteIndex(s, origin, true);
    DeletedLetters(s, Delete(s, origin, true).0, origin);
    DeleteJournal(s, origin);
  }

  lemma StrayReplay(s: State, target: QName, origin: QName, id: Id, clock: seq<Time>)
    requires IndexOk(s) && Roomy(s) && |clock| == 2
    requires IsDlq(target) && origin == OriginQueue(target) && !IsDlq(origin)
    requires origin in s.queues && !s.queues[origin].spec.deadLetter && Holds(s, target, id)
    ensures Letter(ReplayAll(s, [Rec(MessageRequeue(id, target, target), []), Rec(QueueDelete(origin), [])], clock), id) == None
  {
    hide TablesAgree, DlqRequeue, Delete, IsDlq, Letter, SameHouses, SameLetters, Full, Roomy, Apply, ReplayAll;
    var recs := [Rec(MessageRequeue(id, target, target), []), Rec(QueueDelete(origin), [])];
    var back := DlqRequeue(s, target, id, clock[0], false).0;
    DlqNameRoundTrip(target, target);
    RequeueApply(s, id, target, target, clock[0]);
    RequeueLetters(s, target, id, clock[0], false);
    RequeueSame(s, target, id, clock[0], false);
    HousesSpec(s.queues, back.queues, origin);
    NeverFull(s, origin);
    DeletePlace(back, origin, false);
    DeleteIndex(back, origin, false);
    DeletedLetters(back, Delete(back, origin, false).0, origin);
    DeleteApply(back, origin, clock[1]);
    ReplayTwo(s, recs[0], recs[1], clock);
  }

  lemma DeleteApply(s: State, n: QName, now: Time)
    ensures Apply(s, Rec(QueueDelete(n), []), now) == Delete(s, n, false).0
  {
    hide Delete;
  }
}
