/** The lazily cleaned heaps agree with a full scan. However many outdated entries they hold, one tick
    releases exactly the delayed messages that are due and takes back exactly the deliveries whose
    deadline has passed. */
module Ticks {
  import opened Types
  import opened DlqNames
  import opened Heaps
  import opened Backoffs
  import opened Engine
  import opened Index
  import opened Partition
  import opened Invariant
  import opened InvariantOps
  import opened Places

  /** Where a message in flight goes when its delivery is taken back. */
  function Failed(s: State, p: Place, now: Time): Place {
    if p.InflightIn? && p.queue in s.queues
    then AfterFailure(s.cfg, s.queues[p.queue].spec.deadLetter, p.queue, p.message, now)
    else p
  }

  // ----- deliveries of one consumer -----

  predicate Listed(todo: seq<Addr>, id: Id) {
    exists a :: a in todo && a.id == id
  }

  lemma ListedOnce(s: State, todo: seq<Addr>)
    requires Inv(s) && AllInflight(s, todo) && todo != []
    ensures !Listed(todo[1..], todo[0].id)
  {
    hide HeapsOk, QueueOk, TablesAgree;
    if Listed(todo[1..], todo[0].id) {
      var a :| a in todo[1..] && a.id == todo[0].id;
      var i :| 1 <= i < |todo| && todo[i] == a;
      InflightNoEntry(s, a.queue, a.id);
      InflightNoEntry(s, todo[0].queue, a.id);
      assert false;
    }
  }

  lemma InflightPlace(s: State, n: QName, id: Id)
    requires Inv(s) && n in s.queues && id in s.queues[n].inflight
    ensures Holds(s, n, id) && PlaceOf(s, id) == InflightIn(n, s.queues[n].messages[id], s.queues[n].inflight[id])
  {
    hide HeapsOk, QueueOk, TablesAgree, PartsOk;
    InflightNoEntry(s, n, id);
  }

  /** Recovering a list of deliveries fails each listed message once and touches nothing else. */
  lemma RecoverPlace(s: State, todo: seq<Addr>, now: Time, persist: bool, x: Id)
    requires Inv(s) && AllInflight(s, todo) && now > 0 && s.cfg.baseDelay >= 0
    ensures PlaceOf(Recover(s, todo, now, persist), x) ==
            if Listed(todo, x) then Failed(s, PlaceOf(s, x), now) else PlaceOf(s, x)
    decreases |todo|
  {
    hide Inv, Expire, PlaceOf, AfterFailure, SameFrame, Holds;
    if todo != [] {
      var a := todo[0];
      var s1 := Expire(s, a.queue, a.id, now, persist);
      ExpireKeepsQueues(s, a.queue, a.id, now, persist);
      ExpireInv(s, a.queue, a.id, now, persist);
      ExpireCfg(s, a.queue, a.id, now, persist);
      RestInflight(s, todo, now, persist);
      RecoverPlace(s1, todo[1..], now, persist, x);
      ExpirePlace(s, a.queue, a.id, now, persist);
      InflightPlace(s, a.queue, a.id);
      ListedOnce(s, todo);
      if x == a.id {
        assert Listed(todo, x);
      } else {
        assert Listed(todo, x) <==> Listed(todo[1..], x) by {
          assert todo == [a] + todo[1..];
        }
        if Listed(todo[1..], x) {
          ListedPlace(s, todo, x);
          ExpireSpecs(s, a.queue, a.id, now, persist);
          FailedSpecs(s, s1, PlaceOf(s, x), now);
        }
      }
    }
  }

  lemma ListedPlace(s: State, todo: seq<Addr>, x: Id)
    requires Inv(s) && AllInflight(s, todo) && Listed(todo, x)
    ensures PlaceOf(s, x).InflightIn? && PlaceOf(s, x).queue in s.queues
  {
    hide Inv, PlaceOf;
    var a :| a in todo && a.id == x;
    InflightPlace(s, a.queue, x);
  }

  ghost predicate SameSpecs(s: State, s': State) {
    s'.cfg == s.cfg && forall n :: n in s.queues ==> n in s'.queues && s'.queues[n].spec == s.queues[n].spec
  }

  lemma ExpireSpecs(s: State, n: QName, id: Id, now: Time, persist: bool)
    requires n in s.queues
    ensures SameSpecs(s, Expire(s, n, id, now, persist))
  {
    hide Expire;
    ExpireFrame(s, n, id, now, persist);
    ExpireCfg(s, n, id, now, persist);
    var queues := s.queues[n := TakeBack(s.queues[n], id)];
    forall n' | n' in s.queues
      ensures n' in Expire(s, n, id, now, persist).queues
      ensures Expire(s, n, id, now, persist).queues[n'].spec == s.queues[n'].spec
    {
      assert n' in queues && KeepsFrame(queues[n'], Expire(s, n, id, now, persist).queues[n']);
    }
  }

  lemma FailedSpecs(s: State, s': State, p: Place, now: Time)
    requires SameSpecs(s, s') && (p.InflightIn? ==> p.queue in s.queues)
    ensures Failed(s', p, now) == Failed(s, p, now)
  {
    hide AfterFailure;
  }

  // ----- timing out deliveries -----

  lemma DeclareHeap(s: State, h: seq<Entry<Addr>>, n: QName, a: DeclareArgs, persist: bool)
    ensures Declare(s.(visibility := h), n, a, persist) == Declare(s, n, a, persist).(visibility := h)
    decreases if IsDlq(n) then 0 else 1
  {
    hide IsDlq;
    if n !in s.queues {
      var spec := MakeSpec(s.cfg, n, a);
      if spec.deadLetter {
        DeclareHeap(SetQueue(s, n, NewQueue(spec)), h, DlqName(n), DlqArgs(spec), persist);
        assert SetQueue(s.(visibility := h), n, NewQueue(spec)) == SetQueue(s, n, NewQueue(spec)).(visibility := h);
      }
    }
  }

  lemma MoveToDlqHeap(s: State, h: seq<Entry<Addr>>, n: QName, m: Message, persist: bool)
    requires n in s.queues
    ensures MoveToDlq(s.(visibility := h), n, m, persist) == MoveToDlq(s, n, m, persist).(visibility := h)
    ensures MoveToDlq(s, n, m, persist).visibility == s.visibility
  {
    hide Push, IsDlq, Declare;
    var s1 := Remove(s, n, m, persist);
    var a := DEFAULT_ARGS.(deadLetter := false);
    assert Remove(s.(visibility := h), n, m, persist) == s1.(visibility := h);
    DeclareHeap(s1, h, DlqName(n), a, false);
    DeclareHeap(s1, s1.visibility, DlqName(n), a, false);
    DeclareKeepsQueues(s1, DlqName(n), a, false);
  }

  lemma RetryOrDeadHeap(s: State, h: seq<Entry<Addr>>, n: QName, m: Message, now: Time, persist: bool)
    requires n in s.queues
    ensures RetryOrDead(s.(visibility := h), n, m, now, persist) == RetryOrDead(s, n, m, now, persist).(visibility := h)
    ensures RetryOrDead(s, n, m, now, persist).visibility == s.visibility
  {
    hide Push, RetryDelay, MoveToDlq;
    MoveToDlqHeap(s, h, n, m.(attempts := m.attempts + 1), persist);
  }

  /** Taking a delivery back neither reads nor changes the visibility heap. */
  lemma ExpireHeap(s: State, h: seq<Entry<Addr>>, n: QName, id: Id, now: Time, persist: bool)
    requires n in s.queues
    ensures Expire(s.(visibility := h), n, id, now, persist) == Expire(s, n, id, now, persist).(visibility := h)
    ensures Expire(s, n, id, now, persist).visibility == s.visibility
  {
    hide RetryOrDead;
    var q := TakeBack(s.queues[n], id);
    if id in q.messages {
      var s1 := SetQueue(s, n, q);
      assert SetQueue(s.(visibility := h), n, q) == s1.(visibility := h);
      RetryOrDeadHeap(s1, h, n, q.messages[id], now, persist);
    }
  }

  lemma SameTablesSamePlace(s: State, s': State)
    requires s'.queues == s.queues && s'.byId == s.byId
    ensures forall x :: PlaceOf(s', x) == PlaceOf(s, x)
  {
  }

  /** An entry can be dropped when it is not the one of a current delivery. */
  lemma DropEntry(s: State)
    requires Inv(s) && s.visibility != [] && !Current(s, s.visibility[0])
    ensures Inv(s.(visibility := s.visibility[1..]))
  {
    hide QueueOk, TablesAgree, DelayedOk, EntriesOk, IsHeap;
    var h := s.visibility;
    Pop(h);
    forall n, id | n in s.queues && id in s.queues[n].inflight
      ensures HasEntry(h[1..], s.queues[n].inflight[id].deadline, Addr(n, id))
    {
      assert VisibleOf(n, s.queues[n].inflight, h);
      var e :| e in h && e.key == s.queues[n].inflight[id].deadline && e.item == Addr(n, id);
      assert e != h[0];
    }
  }

  /** One turn of the loop of _timeout_inflight. */
  lemma TimeoutStep(s: State, now: Time)
    requires Inv(s) && s.visibility != [] && now > 0 && s.cfg.baseDelay >= 0
    ensures
      var e := s.visibility[0];
      var s1 := TimeoutOne(s.(visibility := s.visibility[1..]), e, now);
      && Inv(s1) && s1.visibility == s.visibility[1..] && SameSpecs(s, s1)
      && forall x :: PlaceOf(s1, x) ==
           if x == e.item.id && Current(s, e) then Failed(s, PlaceOf(s, x), now) else PlaceOf(s, x)
  {
    hide QueueOk, TablesAgree, HeapsOk, PartsOk, Expire, PlaceOf, AfterFailure;
    var e := s.visibility[0];
    var h := s.visibility[1..];
    if Current(s, e) {
      var n, id := e.item.queue, e.item.id;
      ExpireHeap(s, h, n, id, now, true);
      ExpireInv(s, n, id, now, true);
      ExpireFrame(s, n, id, now, true);
      NotCurrentAfter(s, now);
      DropEntry(Expire(s, n, id, now, true));
      ExpirePlace(s, n, id, now, true);
      InflightPlace(s, n, id);
      ExpireSpecs(s, n, id, now, true);
      SameTablesSamePlace(Expire(s, n, id, now, true), TimeoutOne(s.(visibility := h), e, now));
    } else {
      DropEntry(s);
      SameTablesSamePlace(s, s.(visibility := h));
    }
  }

  lemma NotCurrentAfter(s: State, now: Time)
    requires s.visibility != [] && Current(s, s.visibility[0])
    ensures !Current(Expire(s, s.visibility[0].item.queue, s.visibility[0].item.id, now, true), s.visibility[0])
  {
    hide Expire;
    var n, id := s.visibility[0].item.queue, s.visibility[0].item.id;
    ExpireFrame(s, n, id, now, true);
    var queues := s.queues[n := TakeBack(s.queues[n], id)];
    assert n in queues && KeepsFrame(queues[n], Expire(s, n, id, now, true).queues[n]);
  }

  /** With no entry due there is no delivery due. */
  lemma NothingDue(s: State, ts: Time, x: Id)
    requires Inv(s) && (s.visibility == [] || s.visibility[0].key > ts)
    ensures PlaceOf(s, x).InflightIn? ==> PlaceOf(s, x).delivery.deadline > ts
  {
    hide QueueOk, TablesAgree, DelayedOk, EntriesOk;
    var p := PlaceOf(s, x);
    if p.InflightIn? {
      assert VisibleOf(p.queue, s.queues[p.queue].inflight, s.visibility);
      var e :| e in s.visibility && e.key == p.delivery.deadline && e.item == Addr(p.queue, x);
      Pop(s.visibility);
    }
  }

  predicate Expired(p: Place, ts: Time) {
    p.InflightIn? && p.delivery.deadline <= ts
  }

  lemma TimeoutPlace(s: State, ts: Time, now: Time, x: Id)
    requires Inv(s) && now > 0 && s.cfg.baseDelay >= 0
    ensures
      var s' := TimeoutInflight(s, ts, now);
      && Inv(s') && SameSpecs(s, s')
      && PlaceOf(s', x) == if Expired(PlaceOf(s, x), ts) then Failed(s, PlaceOf(s, x), now) else PlaceOf(s, x)
    decreases |s.visibility|
  {
    hide Inv, PlaceOf, AfterFailure, TimeoutOne, Current;
    if s.visibility == [] || s.visibility[0].key > ts {
      NothingDue(s, ts, x);
    } else {
      var e := s.visibility[0];
      var s1 := TimeoutOne(s.(visibility := s.visibility[1..]), e, now);
      TimeoutKeepsHeap(s.(visibility := s.visibility[1..]), e, now);
      TimeoutStep(s, now);
      TimeoutPlace(s1, ts, now, x);
      var p := PlaceOf(s, x);
      if x == e.item.id && Current(s, e) {
        CurrentPlace(s, e);
        FailedNotInflight(s, p, now);
      } else {
        PlaceQueue(s, x);
        FailedSpecs(s, s1, p, now);
      }
    }
  }

  lemma CurrentPlace(s: State, e: Entry<Addr>)
    requires Inv(s) && Current(s, e)
    ensures PlaceOf(s, e.item.id).InflightIn? && PlaceOf(s, e.item.id).delivery.deadline == e.key
    ensures PlaceOf(s, e.item.id).queue in s.queues
  {
    hide Inv, PlaceOf;
    InflightPlace(s, e.item.queue, e.item.id);
  }

  lemma PlaceQueue(s: State, x: Id)
    ensures PlaceOf(s, x) != Gone ==> PlaceOf(s, x).queue in s.queues
  {
  }

  lemma FailedNotInflight(s: State, p: Place, now: Time)
    requires p.InflightIn? && p.queue in s.queues
    ensures !Failed(s, p, now).InflightIn?
  {
    hide RetryDelay, IsDlq;
  }

  // ----- releasing delayed messages -----

  ghost predicate After(h: seq<Entry<Addr>>, ts: Time) {
    forall e :: e in h ==> e.key > ts
  }

  /** A delayed message has its entry in the heap, or it was popped and is due. */
  ghost predicate PendingOf(n: QName, q: Queue, h: seq<Entry<Addr>>, due: seq<Addr>, ts: Time) {
    forall id :: id in q.delayedIds && id in q.messages && q.messages[id].availableAt.Some? ==>
      || HasEntry(h, q.messages[id].availableAt.value, Addr(n, id))
      || (Addr(n, id) in due && q.messages[id].availableAt.value <= ts)
  }

  /** A popped address that is still delayed is due. */
  ghost predicate DueNow(queues: map<QName, Queue>, due: seq<Addr>, ts: Time) {
    forall a :: a in due && a.queue in queues && a.id in queues[a.queue].delayedIds && a.id in queues[a.queue].messages ==>
      queues[a.queue].messages[a.id].availableAt.Some? && queues[a.queue].messages[a.id].availableAt.value <= ts
  }

  /** The invariant between popping the due entries and releasing their messages. */
  ghost predicate InvDue(s: State, due: seq<Addr>, ts: Time) {
    && IndexOk(s) && PartsOk(s.queues)
    && IsHeap(s.visibility) && IsHeap(s.delayed)
    && VisibleOk(s.queues, s.visibility)
    && EntriesOk(s.queues, s.byId, s.delayed)
    && After(s.delayed, ts)
    && (forall n :: n in s.queues ==> PendingOf(n, s.queues[n], s.delayed, due, ts))
    && DueNow(s.queues, due, ts)
  }

  lemma PopDueMeaning(h: seq<Entry<Addr>>, ts: Time)
    requires IsHeap(h)
    ensures
      var (due, rest) := PopDue(h, ts);
      && IsHeap(rest) && After(rest, ts)
      && (forall e :: e in rest ==> e in h)
      && (forall e :: e in h ==> e in rest || (e.key <= ts && e.item in due))
      && (forall a :: a in due ==> exists e :: e in h && e.key <= ts && e.item == a)
  {
    if h != [] {
      Pop(h);
      if h[0].key <= ts {
        PopDueMeaning(h[1..], ts);
        var (due, rest) := PopDue(h[1..], ts);
        assert PopDue(h, ts) == ([h[0].item] + due, rest);
        forall a | a in [h[0].item] + due
          ensures exists e :: e in h && e.key <= ts && e.item == a
        {
          if a == h[0].item {
            assert h[0] in h;
          }
        }
      }
    }
  }

  lemma StartRelease(s: State, ts: Time)
    requires Inv(s)
    ensures InvDue(s.(delayed := PopDue(s.delayed, ts).1), PopDue(s.delayed, ts).0, ts)
  {
    hide QueueOk, TablesAgree, VisibleOk, IsHeap, PopDue, HasEntry, EntryOk;
    var (due, rest) := PopDue(s.delayed, ts);
    PopDueMeaning(s.delayed, ts);
    forall n | n in s.queues
      ensures PendingOf(n, s.queues[n], rest, due, ts)
    {
      StartPending(s, n, ts);
    }
    StartDue(s, ts);
  }

  lemma StartPending(s: State, n: QName, ts: Time)
    requires Inv(s) && n in s.queues
    ensures PendingOf(n, s.queues[n], PopDue(s.delayed, ts).1, PopDue(s.delayed, ts).0, ts)
  {
    hide QueueOk, TablesAgree, VisibleOk, PopDue, EntriesOk, PartsOk;
    PopDueMeaning(s.delayed, ts);
    assert DelayedOf(n, s.queues[n], s.delayed);
  }

  lemma StartDue(s: State, ts: Time)
    requires Inv(s)
    ensures DueNow(s.queues, PopDue(s.delayed, ts).0, ts)
  {
    hide VisibleOk, PopDue, PartsOk, DelayedOk;
    PopDueMeaning(s.delayed, ts);
    forall a | a in PopDue(s.delayed, ts).0 && a.queue in s.queues && a.id in s.queues[a.queue].delayedIds && a.id in s.queues[a.queue].messages
      ensures s.queues[a.queue].messages[a.id].availableAt.Some? && s.queues[a.queue].messages[a.id].availableAt.value <= ts
    {
      var e :| e in s.delayed && e.key <= ts && e.item == a;
      assert EntryOk(s.queues, s.byId, e);
      assert Holds(s, a.queue, a.id);
    }
  }

  predicate Waiting(s: State, a: Addr) {
    a.queue in s.queues && a.id in s.queues[a.queue].delayedIds
  }

  /** A message about to be released: stored, due, and without any entry left in the heap. */
  lemma WaitingMeaning(s: State, due: seq<Addr>, ts: Time)
    requires InvDue(s, due, ts) && due != [] && Waiting(s, due[0])
    ensures
      var a := due[0];
      && Holds(s, a.queue, a.id) && a.id !in s.queues[a.queue].inflight
      && a.id in s.byId && s.byId[a.id] == a.queue
      && s.queues[a.queue].messages[a.id].id == a.id && s.queues[a.queue].messages[a.id].queue == a.queue
      && PlaceOf(s, a.id) == DelayedIn(a.queue, s.queues[a.queue].messages[a.id])
      && s.queues[a.queue].messages[a.id].availableAt.Some?
      && s.queues[a.queue].messages[a.id].availableAt.value <= ts
      && NoEntry(s.delayed, a.id)
  {
    hide VisibleOk, TablesAgree, PendingOf, HeapOk, Items, IsHeap, NoEntry;
    var a := due[0];
    assert QueueOk(a.queue, s.queues[a.queue]);
    assert a.id in s.queues[a.queue].messages.Keys;
    IndexAt(s, a.queue, a.id);
    assert a in due;
    DueNoEntry(s, ts, a);
  }

  lemma DueNoEntry(s: State, ts: Time, a: Addr)
    requires EntriesOk(s.queues, s.byId, s.delayed) && After(s.delayed, ts)
    requires a.id in s.byId && s.byId[a.id] == a.queue && Holds(s, a.queue, a.id)
    requires s.queues[a.queue].messages[a.id].availableAt.Some?
    requires s.queues[a.queue].messages[a.id].availableAt.value <= ts
    ensures NoEntry(s.delayed, a.id)
  {
    forall e | e in s.delayed
      ensures e.item.id != a.id
    {
      assert EntryOk(s.queues, s.byId, e);
    }
  }

  lemma ReleasePending(s: State, due: seq<Addr>, ts: Time, q: Queue, n: QName)
    requires due != [] && due[0].queue in s.queues && n in s.queues[due[0].queue := q]
    requires forall n' :: n' in s.queues ==> PendingOf(n', s.queues[n'], s.delayed, due, ts)
    requires due[0].id !in q.delayedIds && SameBut(s.queues[due[0].queue], q, due[0].id)
    ensures PendingOf(n, s.queues[due[0].queue := q][n], s.delayed, due[1..], ts)
  {
    hide HasEntry;
    var a := due[0];
    var q' := s.queues[a.queue := q][n];
    assert PendingOf(n, s.queues[n], s.delayed, due, ts);
    forall id | id in q'.delayedIds && id in q'.messages && q'.messages[id].availableAt.Some?
      ensures HasEntry(s.delayed, q'.messages[id].availableAt.value, Addr(n, id))
        || (Addr(n, id) in due[1..] && q'.messages[id].availableAt.value <= ts)
    {
      if n == a.queue {
        assert id in q.delayedIds - {a.id} && id in q.messages - {a.id};
        assert id in s.queues[n].messages - {a.id} && (s.queues[n].messages - {a.id})[id] == s.queues[n].messages[id];
        assert (q.messages - {a.id})[id] == q.messages[id];
        assert Addr(n, id) != due[0];
      }
      assert due == [due[0]] + due[1..];
    }
  }

  lemma ReleaseDueNow(s: State, due: seq<Addr>, ts: Time, q: Queue)
    requires due != [] && due[0].queue in s.queues && DueNow(s.queues, due, ts)
    requires due[0].id !in q.delayedIds && SameBut(s.queues[due[0].queue], q, due[0].id)
    ensures DueNow(s.queues[due[0].queue := q], due[1..], ts)
  {
    var n, id := due[0].queue, due[0].id;
    var queues := s.queues[n := q];
    forall a | a in due[1..] && a.queue in queues && a.id in queues[a.queue].delayedIds && a.id in queues[a.queue].messages
      ensures queues[a.queue].messages[a.id].availableAt.Some? && queues[a.queue].messages[a.id].availableAt.value <= ts
    {
      assert a in due;
      if a.queue == n {
        assert a.id in q.delayedIds - {id} && a.id in q.messages - {id};
        assert a.id in s.queues[n].messages - {id} && (s.queues[n].messages - {id})[a.id] == s.queues[n].messages[a.id];
        assert (q.messages - {id})[a.id] == q.messages[a.id];
      }
    }
  }

  lemma SkipPending(s: State, due: seq<Addr>, ts: Time, n: QName)
    requires due != [] && !Waiting(s, due[0]) && n in s.queues
    requires PendingOf(n, s.queues[n], s.delayed, due, ts)
    ensures PendingOf(n, s.queues[n], s.delayed, due[1..], ts)
  {
    hide HasEntry;
    assert due == [due[0]] + due[1..];
  }

  lemma SkipDue(s: State, due: seq<Addr>, ts: Time)
    requires InvDue(s, due, ts) && due != [] && !Waiting(s, due[0])
    ensures InvDue(s, due[1..], ts)
  {
    hide QueueOk, TablesAgree, VisibleOk, EntriesOk, IsHeap, PendingOf, Waiting;
    forall n | n in s.queues
      ensures PendingOf(n, s.queues[n], s.delayed, due[1..], ts)
    {
      SkipPending(s, due, ts, n);
    }
  }

  /** The queue of the first popped address after its message was released. */
  function ReleasedQueue(s: State, a: Addr): Queue
    requires Holds(s, a.queue, a.id)
  {
    Mature(Undelay(s.queues[a.queue], a.id), s.queues[a.queue].messages[a.id].(availableAt := None), s.lastOrd + 1)
  }

  lemma ReleaseForm(s: State, due: seq<Addr>, ts: Time)
    requires InvDue(s, due, ts) && due != [] && Waiting(s, due[0])
    ensures Holds(s, due[0].queue, due[0].id)
    ensures ReleaseOne(s, due[0]) == SetQueue(s, due[0].queue, ReleasedQueue(s, due[0])).(lastOrd := s.lastOrd + 1)
    ensures SameBut(s.queues[due[0].queue], ReleasedQueue(s, due[0]), due[0].id)
    ensures due[0].id !in ReleasedQueue(s, due[0]).delayedIds
  {
    hide InvDue, Push, NoEntry, PlaceOf;
    WaitingMeaning(s, due, ts);
  }

  lemma ReleaseInv(s: State, due: seq<Addr>, ts: Time)
    requires InvDue(s, due, ts) && due != [] && Waiting(s, due[0])
    ensures InvDue(ReleaseOne(s, due[0]), due[1..], ts)
  {
    hide QueueOk, TablesAgree, VisibleOk, EntriesOk, IsHeap, PendingOf, NoEntry, Push, HasEntry, Within, After,
      ReleaseOne, PlaceOf, SameBut, DueNow;
    WaitingMeaning(s, due, ts);
    ReleaseForm(s, due, ts);
    var a := due[0];
    var q := s.queues[a.queue];
    var m := q.messages[a.id].(availableAt := None);
    var q' := ReleasedQueue(s, a);
    UpdateIndex(s, a.queue, m, q');
    ReleaseOk(a.queue, q, m, s.lastOrd + 1);
    SetParts(s.queues, a.queue, q');
    WithinItself(s.visibility);
    SetVisible(s.queues, a.queue, q', s.visibility, s.visibility);
    SetEntries(s.queues, a.queue, q', s.byId, s.byId, s.delayed, a.id);
    ReleaseDueNow(s, due, ts, q');
    var queues := s.queues[a.queue := q'];
    forall n | n in queues
      ensures PendingOf(n, queues[n], s.delayed, due[1..], ts)
    {
      ReleasePending(s, due, ts, q', n);
    }
  }

  lemma ReleasePlace(s: State, due: seq<Addr>, ts: Time)
    requires InvDue(s, due, ts) && due != [] && Waiting(s, due[0])
    ensures SameSpecs(s, ReleaseOne(s, due[0]))
    ensures SameElsewhere(s, ReleaseOne(s, due[0]), due[0].id)
    ensures PlaceOf(s, due[0].id).DelayedIn? && Due(PlaceOf(s, due[0].id), ts)
    ensures PlaceOf(ReleaseOne(s, due[0]), due[0].id) == Released(PlaceOf(s, due[0].id))
  {
    hide QueueOk, TablesAgree, VisibleOk, EntriesOk, IsHeap, PendingOf, NoEntry, Push, HasEntry, After, SameElsewhere,
      ReleaseOne, SameBut, DueNow, PartsOk;
    WaitingMeaning(s, due, ts);
    ReleaseForm(s, due, ts);
    SetPlace(s, ReleaseOne(s, due[0]), due[0].queue, due[0].id);
  }

  predicate Due(p: Place, ts: Time) {
    p.DelayedIn? && p.message.availableAt.Some? && p.message.availableAt.value <= ts
  }

  function Released(p: Place): Place {
    if p.DelayedIn? then ReadyIn(p.queue, p.message.(availableAt := None)) else p
  }

  /** With every popped address processed, no message that is still delayed is due. */
  lemma NothingLeftDue(s: State, ts: Time, x: Id)
    requires InvDue(s, [], ts)
    ensures Inv(s) && !Due(PlaceOf(s, x), ts)
  {
    hide QueueOk, TablesAgree, VisibleOk, EntriesOk, IsHeap;
    forall n | n in s.queues
      ensures DelayedOf(n, s.queues[n], s.delayed)
    {
      assert PendingOf(n, s.queues[n], s.delayed, [], ts);
    }
    var p := PlaceOf(s, x);
    if p.DelayedIn? {
      assert DelayedOf(p.queue, s.queues[p.queue], s.delayed);
    }
  }

  lemma ReleaseAllPlace(s: State, due: seq<Addr>, ts: Time, x: Id)
    requires InvDue(s, due, ts)
    ensures
      var s' := ReleaseAll(s, due);
      && Inv(s') && SameSpecs(s, s')
      && PlaceOf(s', x) == if Due(PlaceOf(s, x), ts) then Released(PlaceOf(s, x)) else PlaceOf(s, x)
    decreases |due|
  {
    hide InvDue, Inv, ReleaseOne, PlaceOf, Waiting;
    if due == [] {
      NothingLeftDue(s, ts, x);
    } else {
      if Waiting(s, due[0]) {
        ReleaseInv(s, due, ts);
        ReleasePlace(s, due, ts);
      } else {
        SkipDue(s, due, ts);
        NotWaiting(s, due[0]);
      }
      ReleaseAllPlace(ReleaseOne(s, due[0]), due[1..], ts, x);
    }
  }

  lemma NotWaiting(s: State, a: Addr)
    requires !Waiting(s, a)
    ensures ReleaseOne(s, a) == s
  {
  }

  lemma ReleaseDelayedPlace(s: State, ts: Time, x: Id)
    requires Inv(s)
    ensures
      var s' := ReleaseDelayed(s, ts);
      && Inv(s') && SameSpecs(s, s')
      && PlaceOf(s', x) == if Due(PlaceOf(s, x), ts) then Released(PlaceOf(s, x)) else PlaceOf(s, x)
  {
    hide InvDue, Inv, ReleaseAll, PopDue;
    StartRelease(s, ts);
    ReleaseAllPlace(s.(delayed := PopDue(s.delayed, ts).1), PopDue(s.delayed, ts).0, ts, x);
  }

  // ----- one tick -----

  /** What a tick does to a message, found by looking at the message alone. */
  function Ticked(s: State, p: Place, ts: Time, now: Time): Place {
    if Due(p, ts) then Released(p)
    else if Expired(p, ts) then Failed(s, p, now)
    else p
  }

  /** The heaps agree with a scan: every message goes where its own due time or deadline says, none
      early, none missed, and the invariant holds again. */
  lemma TickIsScan(s: State, ts: Time, now: Time)
    requires Inv(s) && now > 0 && s.cfg.baseDelay >= 0
    ensures Inv(Tick(s, ts, now)) && SameSpecs(s, Tick(s, ts, now))
    ensures forall x :: PlaceOf(Tick(s, ts, now), x) == Ticked(s, PlaceOf(s, x), ts, now)
  {
    hide Inv, ReleaseDelayed, TimeoutInflight, PlaceOf, AfterFailure;
    var s1 := ReleaseDelayed(s, ts);
    ReleaseDelayedPlace(s, ts, "");
    TimeoutPlace(s1, ts, now, "");
    forall x
      ensures PlaceOf(Tick(s, ts, now), x) == Ticked(s, PlaceOf(s, x), ts, now)
    {
      ReleaseDelayedPlace(s, ts, x);
      TimeoutPlace(s1, ts, now, x);
      PlaceQueue(s, x);
      FailedSpecs(s, s1, PlaceOf(s, x), now);
    }
  }
}
