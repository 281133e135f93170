/** Saving the engine's state and restoring it. */
module Snapshot {
  import opened Types
  import opened DlqNames
  import opened Heaps
  import opened Engine
  import opened Index
  import opened Partition
  import opened Invariant
  import opened InvariantOps
  import opened Places
  import opened Ticks
  import opened Requeue

  datatype StateName = INFLIGHT | DELAYED | DEAD | READY

  datatype SavedMessage = SavedMessage(message: Message, state: StateName)

  datatype SavedQueue = SavedQueue(spec: Spec, messages: seq<SavedMessage>, stats: Stats)

  datatype Saved = Saved(queues: seq<SavedQueue>, lastOrd: nat)

  /** _message_state. */
  function NameOf(q: Queue, id: Id): StateName {
    if id in q.inflight then INFLIGHT
    else if id in q.delayedIds then DELAYED
    else if IsDlq(q.spec.name) then DEAD
    else READY
  }

  ghost predicate InList(list: seq<SavedMessage>, id: Id) {
    exists sm :: sm in list && sm.message.id == id
  }

  ghost predicate DistinctIds(list: seq<SavedMessage>) {
    forall i, j :: 0 <= i < j < |list| ==> list[i].message.id != list[j].message.id
  }

  /** The saved queue lists every message of the queue once, in some order, with its state. */
  ghost predicate Describes(q: Queue, sq: SavedQueue) {
    && sq.spec == q.spec && sq.stats == q.stats
    && DistinctIds(sq.messages)
    && (forall id :: id in q.messages <==> InList(sq.messages, id))
    && (forall sm :: sm in sq.messages && sm.message.id in q.messages ==>
          sm.message == q.messages[sm.message.id] && sm.state == NameOf(q, sm.message.id))
  }

  ghost predicate Named(queues: seq<SavedQueue>, n: QName) {
    exists sq :: sq in queues && sq.spec.name == n
  }

  ghost predicate DistinctNames(queues: seq<SavedQueue>) {
    forall i, j :: 0 <= i < j < |queues| ==> queues[i].spec.name != queues[j].spec.name
  }

  /** snapshot_state, for any order in which the dictionaries list queues and messages. */
  ghost predicate IsSnapshot(s: State, saved: Saved) {
    && saved.lastOrd == s.lastOrd
    && DistinctNames(saved.queues)
    && (forall n :: n in s.queues <==> Named(saved.queues, n))
    && (forall sq :: sq in saved.queues && sq.spec.name in s.queues ==> Describes(s.queues[sq.spec.name], sq))
  }

  // ----- restore_state -----

  /** A due time of zero counts as missing. */
  function DueOrNow(at: Option<Time>, now: Time): Time {
    if at.Some? && at.value != 0 then at.value else now
  }

  function RestoredQueue(q: Queue, sm: SavedMessage, ord: nat): Queue {
    var m := sm.message;
    if sm.state == DELAYED then q.(messages := q.messages[m.id := m], delayedIds := q.delayedIds + {m.id})
    else q.(messages := q.messages[m.id := m], ready := Push(q.ready, ReadyEntry(m, ord)))
  }

  function RestoreMessage(s: State, n: QName, sm: SavedMessage, now: Time): State
    requires n in s.queues
  {
    var m := sm.message;
    var ord := s.lastOrd + 1;
    SetQueue(s, n, RestoredQueue(s.queues[n], sm, ord)).(
      byId := s.byId[m.id := m.queue],
      lastOrd := ord,
      delayed := if sm.state == DELAYED then Push(s.delayed, Entry(DueOrNow(m.availableAt, now), ord, Addr(m.queue, m.id)))
                 else s.delayed)
  }

  function RestoreMessages(s: State, n: QName, list: seq<SavedMessage>, now: Time): State
    requires n in s.queues
    decreases |list|
  {
    if list == [] then s else RestoreMessages(RestoreMessage(s, n, list[0], now), n, list[1..], now)
  }

  function RestoreQueue(s: State, sq: SavedQueue, now: Time): State {
    var s1 := SetQueue(s, sq.spec.name, NewQueue(sq.spec).(stats := sq.stats));
    RestoreMessages(s1, sq.spec.name, sq.messages, now)
  }

  function RestoreQueues(s: State, queues: seq<SavedQueue>, now: Time): State
    decreases |queues|
  {
    if queues == [] then s else RestoreQueues(RestoreQueue(s, queues[0], now), queues[1..], now)
  }

  function Restore(s: State, saved: Saved, now: Time): State {
    RestoreQueues(s.(queues := map[], byId := map[], visibility := [], delayed := [], lastOrd := saved.lastOrd),
                  saved.queues, now)
  }

  // ----- restoring one message -----

  function SavedPlace(sm: SavedMessage): Place {
    if sm.state == DELAYED then DelayedIn(sm.message.queue, sm.message) else ReadyIn(sm.message.queue, sm.message)
  }

  ghost predicate Storable(n: QName, sm: SavedMessage) {
    sm.message.queue == n && (sm.state == DELAYED ==> DueOk(sm.message))
  }

  lemma RestoreMessageInv(s: State, n: QName, sm: SavedMessage, now: Time)
    requires Inv(s) && n in s.queues && Fresh(s, sm.message.id) && Storable(n, sm)
    ensures Inv(RestoreMessage(s, n, sm, now))
  {
    hide Inv, Fresh, Push;
    var d := RestoredQueue(s.queues[n], sm, s.lastOrd + 1);
    if sm.state == DELAYED {
      ArriveLaterInv(s, sm.message, d, s.lastOrd + 1);
    } else {
      ArriveInv(s, sm.message, d, s.lastOrd + 1);
    }
  }

  lemma RestoreMessagePlace(s: State, n: QName, sm: SavedMessage, now: Time)
    requires Inv(s) && n in s.queues && Fresh(s, sm.message.id) && Storable(n, sm)
    ensures SameElsewhere(s, RestoreMessage(s, n, sm, now), sm.message.id)
    ensures PlaceOf(RestoreMessage(s, n, sm, now), sm.message.id) == SavedPlace(sm)
  {
    hide HeapsOk, TablesAgree, SameElsewhere, Push, QueueOk, NoEntry;
    FreshNotDelayed(s, n, sm.message.id);
    SetPlace(s, RestoreMessage(s, n, sm, now), n, sm.message.id);
  }

  lemma RestoreMessageFresh(s: State, n: QName, sm: SavedMessage, now: Time, id: Id)
    requires n in s.queues && Fresh(s, id) && id != sm.message.id
    ensures Fresh(RestoreMessage(s, n, sm, now), id)
  {
    hide Push;
  }

  /** Specifications and counters are restored as saved. */
  predicate SameFacts(s: State, s': State) {
    && s'.cfg == s.cfg && s'.queues.Keys == s.queues.Keys
    && forall n :: n in s.queues ==> s'.queues[n].spec == s.queues[n].spec && s'.queues[n].stats == s.queues[n].stats
  }

  lemma RestoreMessageFacts(s: State, n: QName, sm: SavedMessage, now: Time)
    requires n in s.queues
    ensures SameFacts(s, RestoreMessage(s, n, sm, now))
  {
    hide Push;
    assert RestoreMessage(s, n, sm, now).queues.Keys == s.queues.Keys;
  }

  lemma TailIds(list: seq<SavedMessage>)
    requires list != [] && DistinctIds(list)
    ensures DistinctIds(list[1..]) && !InList(list[1..], list[0].message.id)
    ensures forall id :: InList(list, id) <==> id == list[0].message.id || InList(list[1..], id)
  {
    assert list == [list[0]] + list[1..];
  }

  lemma RestoreMessagesPlace(s: State, n: QName, list: seq<SavedMessage>, now: Time)
    requires Inv(s) && n in s.queues && DistinctIds(list)
    requires forall sm :: sm in list ==> Fresh(s, sm.message.id) && Storable(n, sm)
    ensures
      var s' := RestoreMessages(s, n, list, now);
      && Inv(s') && SameFacts(s, s')
      && (forall sm :: sm in list ==> PlaceOf(s', sm.message.id) == SavedPlace(sm))
      && (forall x :: !InList(list, x) ==> PlaceOf(s', x) == PlaceOf(s, x))
      && (forall x :: !InList(list, x) && Fresh(s, x) ==> Fresh(s', x))
    decreases |list|
  {
    hide Inv, Fresh, PlaceOf, Storable, InList, DistinctIds, RestoreMessage, SavedPlace;
    if list != [] {
      var sm0 := list[0];
      var s1 := RestoreMessage(s, n, sm0, now);
      assert sm0 in list;
      RestoreMessageInv(s, n, sm0, now);
      RestoreMessagePlace(s, n, sm0, now);
      RestoreMessageFacts(s, n, sm0, now);
      TailIds(list);
      forall x | Fresh(s, x) && x != sm0.message.id
        ensures Fresh(s1, x)
      {
        RestoreMessageFresh(s, n, sm0, now, x);
      }
      forall sm | sm in list[1..]
        ensures sm.message.id != sm0.message.id && Fresh(s1, sm.message.id) && Storable(n, sm)
      {
        MemberListed(list[1..], sm);
      }
      RestoreMessagesPlace(s1, n, list[1..], now);
      assert list == [sm0] + list[1..];
    }
  }

  lemma MemberListed(list: seq<SavedMessage>, sm: SavedMessage)
    requires sm in list
    ensures InList(list, sm.message.id)
  {
  }

  // ----- restoring whole queues -----

  lemma AddQueueInv(s: State, n: QName, q: Queue)
    requires Inv(s) && n !in s.queues && Empty(q) && q.spec.name == n && (q.spec.deadLetter ==> !IsDlq(n))
    ensures Inv(SetQueue(s, n, q))
    ensures forall x :: PlaceOf(SetQueue(s, n, q), x) == PlaceOf(s, x)
  {
    hide HeapsOk, PartsOk, IsDlq;
    AddQueue(s, n, q);
  }

  /** A delivery that was in flight when the state was saved is ready again. */
  function RestoredPlace(p: Place): Place {
    if p.InflightIn? then ReadyIn(p.queue, p.message) else p
  }

  /** A saved queue of a reachable state can be restored message by message. */
  lemma DescribedStorable(s: State, n: QName, sq: SavedQueue, sm: SavedMessage)
    requires Inv(s) && n in s.queues && Describes(s.queues[n], sq) && sm in sq.messages
    ensures Holds(s, n, sm.message.id) && Storable(n, sm)
    ensures SavedPlace(sm) == RestoredPlace(PlaceOf(s, sm.message.id))
    ensures PlaceOf(s, sm.message.id) != Gone && PlaceOf(s, sm.message.id).queue == n
  {
    hide HeapsOk, TablesAgree, IsDlq, Items, HeapOk, DueOk, InList, DistinctIds;
    MemberListed(sq.messages, sm);
    IndexAt(s, n, sm.message.id);
    PartOf(s, n);
  }

  /** A saved message is where its state says, in the queue it is listed under. */
  lemma SavedWhere(s: State, saved: Saved, sq: SavedQueue, sm: SavedMessage)
    requires Inv(s) && IsSnapshot(s, saved) && sq in saved.queues && sm in sq.messages
    ensures
      var p := PlaceOf(s, sm.message.id);
      && p != Gone && p.queue == sq.spec.name && p.message == sm.message
      && (sm.state == INFLIGHT <==> p.InflightIn?)
      && (sm.state == DELAYED <==> p.DelayedIn?)
      && (sm.state == DEAD <==> p.ReadyIn? && IsDlq(p.queue))
      && (sm.state == READY <==> p.ReadyIn? && !IsDlq(p.queue))
  {
    hide HeapsOk, TablesAgree, IsDlq, Items, HeapOk, DueOk, InList, DistinctIds, DistinctNames;
    assert Named(saved.queues, sq.spec.name);
    MemberListed(sq.messages, sm);
    IndexAt(s, sq.spec.name, sm.message.id);
    PartOf(s, sq.spec.name);
  }

  lemma RestoreQueuePlace(src: State, s: State, sq: SavedQueue, now: Time)
    requires Inv(src) && Inv(s) && sq.spec.name in src.queues && sq.spec.name !in s.queues
    requires Describes(src.queues[sq.spec.name], sq)
    requires forall id :: Holds(src, sq.spec.name, id) ==> Fresh(s, id)
    ensures
      var n := sq.spec.name;
      var s' := RestoreQueue(s, sq, now);
      && Inv(s') && s'.cfg == s.cfg && s'.queues.Keys == s.queues.Keys + {n}
      && (forall x :: x in s'.queues ==>
            s'.queues[x].spec == (if x == n then src else s).queues[x].spec &&
            s'.queues[x].stats == (if x == n then src else s).queues[x].stats)
      && (forall x :: PlaceOf(s', x) == if Holds(src, n, x) then RestoredPlace(PlaceOf(src, x)) else PlaceOf(s, x))
      && (forall x :: !Holds(src, n, x) && Fresh(s, x) ==> Fresh(s', x))
  {
    hide Inv, NoEntry, PlaceOf, Storable, InList, DistinctIds, RestoreMessages, SavedPlace, IsDlq, RestoredPlace,
      NameOf;
    var n := sq.spec.name;
    var s1 := SetQueue(s, n, NewQueue(sq.spec).(stats := sq.stats));
    SpecOk(src, n);
    AddQueueInv(s, n, NewQueue(sq.spec).(stats := sq.stats));
    forall sm | sm in sq.messages
      ensures Fresh(s1, sm.message.id) && Storable(n, sm)
    {
      DescribedStorable(src, n, sq, sm);
    }
    RestoreMessagesPlace(s1, n, sq.messages, now);
    forall x
      ensures PlaceOf(RestoreQueue(s, sq, now), x) == if Holds(src, n, x) then RestoredPlace(PlaceOf(src, x)) else PlaceOf(s, x)
    {
      if Holds(src, n, x) {
        var sm := ListedMember(sq.messages, x);
        DescribedStorable(src, n, sq, sm);
      }
    }
  }

  lemma ListedMember(list: seq<SavedMessage>, id: Id) returns (sm: SavedMessage)
    requires InList(list, id)
    ensures sm in list && sm.message.id == id
  {
    sm :| sm in list && sm.message.id == id;
  }

  lemma SpecOk(s: State, n: QName)
    requires Inv(s) && n in s.queues
    ensures s.queues[n].spec.name == n && (s.queues[n].spec.deadLetter ==> !IsDlq(n))
  {
  }

  lemma TailNames(queues: seq<SavedQueue>)
    requires queues != [] && DistinctNames(queues)
    ensures DistinctNames(queues[1..]) && !Named(queues[1..], queues[0].spec.name)
    ensures forall n :: Named(queues, n) <==> n == queues[0].spec.name || Named(queues[1..], n)
  {
    assert queues == [queues[0]] + queues[1..];
  }

  ghost predicate AllDescribed(src: State, queues: seq<SavedQueue>) {
    && DistinctNames(queues)
    && forall sq :: sq in queues ==> sq.spec.name in src.queues && Describes(src.queues[sq.spec.name], sq)
  }

  lemma RestoreQueuesPlace(src: State, s: State, queues: seq<SavedQueue>, now: Time)
    requires Inv(src) && Inv(s) && AllDescribed(src, queues)
    requires forall n :: Named(queues, n) ==> n !in s.queues
    requires forall n, id :: Named(queues, n) && Holds(src, n, id) ==> Fresh(s, id)
    ensures
      var s' := RestoreQueues(s, queues, now);
      && Inv(s') && s'.cfg == s.cfg
      && (forall n :: n in s'.queues <==> n in s.queues || Named(queues, n))
      && (forall n :: n in s'.queues && (Named(queues, n) ==> n in src.queues) ==>
            s'.queues[n].spec == (if Named(queues, n) then src else s).queues[n].spec &&
            s'.queues[n].stats == (if Named(queues, n) then src else s).queues[n].stats)
      && (forall x :: PlaceOf(s', x) ==
            if PlaceOf(src, x) != Gone && Named(queues, PlaceOf(src, x).queue) then RestoredPlace(PlaceOf(src, x)) else PlaceOf(s, x))
    decreases |queues|
  {
    hide Inv, Fresh, PlaceOf, Describes, DistinctNames, Named, RestoreQueue, RestoredPlace, Holds;
    if queues == [] {
      NothingNamed(queues);
    } else {
      var sq := queues[0];
      var n0 := sq.spec.name;
      var s1 := RestoreQueue(s, sq, now);
      assert sq in queues;
      TailNames(queues);
      RestoreQueuePlace(src, s, sq, now);
      forall n, id | Named(queues[1..], n) && Holds(src, n, id)
        ensures Fresh(s1, id)
      {
        if Holds(src, n0, id) {
          HeldOnce(src, n, n0, id);
        }
      }
      RestoreQueuesPlace(src, s1, queues[1..], now);
      forall x
        ensures Holds(src, n0, x) <==> PlaceOf(src, x) != Gone && PlaceOf(src, x).queue == n0
      {
        HeldPlace(src, n0, x);
      }
    }
  }

  lemma HeldOnce(s: State, n: QName, n': QName, id: Id)
    requires Inv(s) && Holds(s, n, id) && Holds(s, n', id)
    ensures n == n'
  {
    hide HeapsOk, PartsOk, TablesAgree, IsDlq;
    IndexAt(s, n, id);
    IndexAt(s, n', id);
  }

  lemma HeldPlace(s: State, n: QName, id: Id)
    requires Inv(s) && n in s.queues
    ensures Holds(s, n, id) <==> PlaceOf(s, id) != Gone && PlaceOf(s, id).queue == n
  {
    hide Inv, PlaceOf, Items;
    PlaceMeaning(s, n, id);
  }

  lemma NothingNamed(queues: seq<SavedQueue>)
    requires queues == []
    ensures forall n :: !Named(queues, n)
  {
  }

  // ----- the round trip -----

  /** Restoring a snapshot of a reachable state, in whatever order it lists queues and messages, gives a
      state that satisfies the invariant, with the same queues, specifications, counters and messages;
      delayed messages keep their due times, and deliveries are ready again. */
  lemma RoundTrip(s: State, saved: Saved, target: State, now: Time)
    requires Inv(s) && IsSnapshot(s, saved)
    ensures
      var r := Restore(target, saved, now);
      && Inv(r) && r.cfg == target.cfg && r.queues.Keys == s.queues.Keys
      && (forall n :: n in s.queues ==> r.queues[n].spec == s.queues[n].spec && r.queues[n].stats == s.queues[n].stats)
      && (forall x :: PlaceOf(r, x) == RestoredPlace(PlaceOf(s, x)))
  {
    hide PlaceOf, Describes, DistinctNames, RestoreQueues, RestoredPlace, TablesAgree;
    var s0 := target.(queues := map[], byId := map[], visibility := [], delayed := [], lastOrd := saved.lastOrd);
    EmptyStateInv(s0);
    SnapshotDescribes(s, saved);
    hide Inv, IsSnapshot, Named, Fresh;
    RestoreQueuesPlace(s, s0, saved.queues, now);
    var r := Restore(target, saved, now);
    forall x
      ensures PlaceOf(r, x) == RestoredPlace(PlaceOf(s, x))
    {
      PlaceQueue(s, x);
      RestoredGone();
    }
  }

  lemma RestoredGone()
    ensures RestoredPlace(Gone) == Gone
  {
  }

  lemma EmptyStateInv(s: State)
    requires s.queues == map[] && s.byId == map[] && s.visibility == [] && s.delayed == []
    ensures Inv(s) && forall x :: PlaceOf(s, x) == Gone && Fresh(s, x)
  {
  }

  lemma SnapshotDescribes(s: State, saved: Saved)
    requires IsSnapshot(s, saved)
    ensures AllDescribed(s, saved.queues)
    ensures forall n :: Named(saved.queues, n) <==> n in s.queues
  {
    hide Describes, DistinctNames;
    forall sq | sq in saved.queues
      ensures sq.spec.name in s.queues
    {
      assert Named(saved.queues, sq.spec.name);
    }
  }

  /** What the round trip means for the restored containers: the messages and the index are the same, the
      ready messages are the old ready and in-flight ones, nothing is in flight. */
  lemma RoundTripContents(s: State, saved: Saved, target: State, now: Time)
    requires Inv(s) && IsSnapshot(s, saved)
    ensures
      var r := Restore(target, saved, now);
      && r.byId == s.byId && r.queues.Keys == s.queues.Keys
      && forall n :: n in s.queues ==>
           && r.queues[n].messages == s.queues[n].messages
           && r.queues[n].inflight == map[]
           && r.queues[n].delayedIds == s.queues[n].delayedIds
           && Items(r.queues[n].ready) == Items(s.queues[n].ready) + s.queues[n].inflight.Keys
  {
    hide Inv, IsSnapshot, PlaceOf, Restore, Items;
    var r := Restore(target, saved, now);
    RoundTrip(s, saved, target, now);
    forall n | n in s.queues
      ensures r.queues[n].messages == s.queues[n].messages && r.queues[n].inflight == map[]
      ensures r.queues[n].delayedIds == s.queues[n].delayedIds
      ensures Items(r.queues[n].ready) == Items(s.queues[n].ready) + s.queues[n].inflight.Keys
    {
      SameContents(s, r, n);
    }
    forall x
      ensures x in r.byId <==> x in s.byId
      ensures x in s.byId ==> r.byId[x] == s.byId[x]
    {
      PlaceIndex(s, x);
      PlaceIndex(r, x);
    }
  }

  lemma PlaceIndex(s: State, x: Id)
    requires Inv(s)
    ensures x in s.byId <==> PlaceOf(s, x) != Gone
    ensures x in s.byId ==> PlaceOf(s, x).queue == s.byId[x]
  {
    hide HeapsOk, PartsOk;
  }

  lemma SameContents(s: State, r: State, n: QName)
    requires Inv(s) && Inv(r) && n in s.queues && n in r.queues
    requires forall x :: PlaceOf(r, x) == RestoredPlace(PlaceOf(s, x))
    ensures r.queues[n].messages == s.queues[n].messages && r.queues[n].inflight == map[]
    ensures r.queues[n].delayedIds == s.queues[n].delayedIds
    ensures Items(r.queues[n].ready) == Items(s.queues[n].ready) + s.queues[n].inflight.Keys
  {
    hide Inv, PlaceOf, Items;
    forall x
      ensures x in r.queues[n].messages <==> x in s.queues[n].messages
      ensures x in s.queues[n].messages ==> r.queues[n].messages[x] == s.queues[n].messages[x]
      ensures x !in r.queues[n].inflight
      ensures x in r.queues[n].delayedIds <==> x in s.queues[n].delayedIds
      ensures x in Items(r.queues[n].ready) <==> x in Items(s.queues[n].ready) || x in s.queues[n].inflight
    {
      PlaceMeaning(s, n, x);
      PlaceMeaning(r, n, x);
    }
  }

  /** A snapshot of the restored state names the same states, except that nothing is INFLIGHT any more. */
  lemma SecondSnapshot(s: State, saved: Saved, target: State, now: Time, n: QName, id: Id)
    requires Inv(s) && IsSnapshot(s, saved) && Holds(s, n, id)
    ensures
      var r := Restore(target, saved, now);
      && n in r.queues
      && NameOf(r.queues[n], id) ==
         if NameOf(s.queues[n], id) == INFLIGHT then (if IsDlq(n) then DEAD else READY) else NameOf(s.queues[n], id)
  {
    hide IsDlq, HeapsOk, PartsOk, IsSnapshot, Restore, Items, TablesAgree;
    IndexAt(s, n, id);
    PlaceMeaning(s, n, id);
    RoundTrip(s, saved, target, now);
    RoundTripContents(s, saved, target, now);
  }
}
