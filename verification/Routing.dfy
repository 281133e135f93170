/** Exchanges, bindings and publishing: which queues a message goes to, and what happens when one is full. */
module Routing {
  import opened Types
  import opened DlqNames
  import opened Journal
  import opened Engine
  import opened Invariant
  import opened InvariantOps
  import opened Places
  import opened QueueEngines

  datatype Kind = Direct | Fanout

  datatype Exchange = Exchange(name: string, kind: Kind, durable: bool)

  datatype Binding = Binding(exchange: string, queue: QName, routingKey: string)

  const DEFAULT_EXCHANGE: string := ""

  // ----- names in order -----

  /** The order of strings, by code points. */
  predicate Before(a: string, b: string) {
    a == [] || (b != [] && (a[0] < b[0] || (a[0] == b[0] && Before(a[1..], b[1..]))))
  }

  lemma BeforeOrder(a: string, b: string)
    ensures Before(a, b) || Before(b, a)
    ensures Before(a, b) && Before(b, a) ==> a == b
    decreases |a|
  {
    if a != [] && b != [] {
      BeforeOrder(a[1..], b[1..]);
      assert a == [a[0]] + a[1..] && b == [b[0]] + b[1..];
    }
  }

  /** The strings first differ at i, where the first one has the smaller character. */
  predicate SmallerAt(a: string, b: string, i: int) {
    0 <= i < |a| && i < |b| && a[..i] == b[..i] && a[i] < b[i]
  }

  lemma SmallerNext(a: string, b: string, i: nat)
    requires a != [] && b != [] && a[0] == b[0]
    ensures SmallerAt(a, b, i + 1) <==> SmallerAt(a[1..], b[1..], i)
    ensures !SmallerAt(a, b, 0)
  {
    if i < |a[1..]| && i < |b[1..]| {
      assert a[..i + 1] == [a[0]] + a[1..][..i] && b[..i + 1] == [b[0]] + b[1..][..i];
      assert a[..i + 1][1..] == a[1..][..i] && b[..i + 1][1..] == b[1..][..i];
    }
  }

  lemma SmallerFirst(a: string, b: string, i: int)
    requires a != [] && b != [] && a[0] != b[0]
    ensures SmallerAt(a, b, i) <==> i == 0 && a[0] < b[0]
  {
    if 0 < i < |a| && i < |b| {
      assert a[..i][0] == a[0] && b[..i][0] == b[0];
    }
  }

  /** One string comes before another if it is the start of it, or has the smaller character where they first differ. */
  lemma {:induction false} BeforeMeaning(a: string, b: string)
    ensures Before(a, b) <==> a <= b || exists i :: SmallerAt(a, b, i)
    decreases |a|
  {
    if a != [] && b != [] {
      hide SmallerAt;
      if a[0] == b[0] {
        BeforeMeaning(a[1..], b[1..]);
        assert a <= b <==> a[1..] <= b[1..];
        if i :| SmallerAt(a[1..], b[1..], i) {
          SmallerBounds(a[1..], b[1..], i);
          SmallerNext(a, b, i);
        }
        if i :| SmallerAt(a, b, i) {
          SmallerBounds(a, b, i);
          SmallerNext(a, b, if i > 0 then i - 1 else 0);
        }
      } else {
        SmallerFirst(a, b, 0);
        if i :| SmallerAt(a, b, i) {
          SmallerFirst(a, b, i);
        }
      }
    }
  }

  lemma SmallerBounds(a: string, b: string, i: int)
    requires SmallerAt(a, b, i)
    ensures i >= 0
  {
  }

  lemma BeforeTrans(a: string, b: string, c: string)
    requires Before(a, b) && Before(b, c)
    ensures Before(a, c)
    decreases |a|
  {
    if a != [] && a[0] == b[0] && b[0] == c[0] {
      BeforeTrans(a[1..], b[1..], c[1..]);
    }
  }

  /** In order, without repetitions. */
  ghost predicate InOrder(names: seq<QName>) {
    forall i, j :: 0 <= i < j < |names| ==> Before(names[i], names[j]) && names[i] != names[j]
  }

  /** The sorted list of a set of names. */
  ghost predicate IsSorted(names: seq<QName>, set': set<QName>) {
    InOrder(names) && forall n :: n in names <==> n in set'
  }

  /** There is only one. */
  lemma {:induction false} SortedOnce(a: seq<QName>, b: seq<QName>, names: set<QName>)
    requires IsSorted(a, names) && IsSorted(b, names)
    ensures a == b
    decreases |a|
  {
    SortedEmpty(a, names);
    SortedEmpty(b, names);
    if a != [] {
      SameFirst(a, b, names);
      SortedTail(a, names);
      SortedTail(b, names);
      SortedOnce(a[1..], b[1..], names - {a[0]});
    }
  }

  lemma SortedEmpty(a: seq<QName>, names: set<QName>)
    requires IsSorted(a, names)
    ensures a == [] <==> names == {}
  {
    if a != [] {
      assert a[0] in a;
    }
  }

  lemma SameFirst(a: seq<QName>, b: seq<QName>, names: set<QName>)
    requires IsSorted(a, names) && IsSorted(b, names) && a != [] && b != []
    ensures a[0] == b[0]
  {
    assert a[0] in b && b[0] in a;
    var i :| 0 <= i < |b| && b[i] == a[0];
    var j :| 0 <= j < |a| && a[j] == b[0];
    BeforeOrder(a[0], b[0]);
  }

  lemma SortedTail(a: seq<QName>, names: set<QName>)
    requires IsSorted(a, names) && a != []
    ensures IsSorted(a[1..], names - {a[0]})
  {
    assert a == [a[0]] + a[1..];
    forall i | 0 <= i < |a[1..]|
      ensures a[1..][i] != a[0]
    {
      assert a[1..][i] == a[i + 1];
    }
  }

  /** Inserts a name into a sorted list. */
  function Insert(names: seq<QName>, n: QName): seq<QName> {
    if names == [] || Before(n, names[0]) then [n] + names else [names[0]] + Insert(names[1..], n)
  }

  lemma InsertSorted(names: seq<QName>, set': set<QName>, n: QName)
    requires IsSorted(names, set') && n !in set'
    ensures IsSorted(Insert(names, n), set' + {n})
    decreases |names|
  {
    if names == [] {
    } else if Before(n, names[0]) {
      InsertFront(names, n);
    } else {
      SortedTail(names, set');
      assert names[0] in names;
      InsertSorted(names[1..], set' - {names[0]}, n);
      BeforeOrder(n, names[0]);
      var rest := Insert(names[1..], n);
      forall j | 0 <= j < |rest|
        ensures Before(names[0], rest[j]) && names[0] != rest[j]
      {
        assert rest[j] in rest;
        if rest[j] != n {
          assert rest[j] in names[1..];
          var k :| 0 <= k < |names[1..]| && names[1..][k] == rest[j];
          assert names[k + 1] == rest[j];
        }
      }
      ConsInOrder(names[0], rest);
    }
  }

  lemma InsertFront(names: seq<QName>, n: QName)
    requires InOrder(names) && names != [] && Before(n, names[0]) && n !in names
    ensures InOrder([n] + names)
  {
    forall j | 0 <= j < |names|
      ensures Before(n, names[j]) && n != names[j]
    {
      assert names[j] in names;
      if j > 0 {
        BeforeTrans(n, names[0], names[j]);
      }
    }
    ConsInOrder(n, names);
  }

  lemma ConsInOrder(n: QName, names: seq<QName>)
    requires InOrder(names) && forall j :: 0 <= j < |names| ==> Before(n, names[j]) && n != names[j]
    ensures InOrder([n] + names)
  {
    var all := [n] + names;
    forall i, j | 0 <= i < j < |all|
      ensures Before(all[i], all[j]) && all[i] != all[j]
    {
      assert all[j] == names[j - 1];
      if i > 0 {
        assert all[i] == names[i - 1];
      }
    }
  }

  // ----- publishing to several queues -----

  /** What a publisher sends. */
  datatype Draft = Draft(payload: Bytes, maxAttempts: Option<int>, priority: int, headers: string,
                         exchange: string, routingKey: string)

  /** A limit of zero counts as missing. */
  function MaxAttempts(cfg: Config, d: Draft): int {
    if d.maxAttempts.Some? && d.maxAttempts.value != 0 then d.maxAttempts.value else cfg.maxAttempts
  }

  function MessageFor(cfg: Config, d: Draft, target: QName, id: Id, now: Time): Message {
    Message(id, target, d.payload, 0, MaxAttempts(cfg, d), d.priority, None, Info(now, d.headers, d.exchange, d.routingKey))
  }

  /** What publish returns: the last id, the queues that got a copy, and the outcome. */
  datatype Published = Published(lastId: Id, routed: seq<QName>, result: EnqueueResult)

  /** The loop of publish over the targets that are left. */
  function FanOut(s: State, targets: seq<QName>, ids: seq<Id>, d: Draft, now: Time, persist: bool, p: Published): (State, Published)
    requires |ids| == |targets|
    decreases |targets|
  {
    if targets == [] then (s, p.(result := if p.routed == [] then EnqueueNotFound else EnqueueOk))
    else
      var (s1, r) := Enqueue(s, MessageFor(s.cfg, d, targets[0], ids[0], now), now, persist);
      match r
      case QueueFull => (s1, Published(ids[0], p.routed, QueueFull))
      case EnqueueOk =>
        FanOut(s1, targets[1..], ids[1..], d, now, persist, Published(ids[0], p.routed + [targets[0]], EnqueueOk))
      case EnqueueNotFound => FanOut(s1, targets[1..], ids[1..], d, now, persist, p)
  }

  /** The number of targets before the first one that exists and is full. */
  function Reached(s: State, targets: seq<QName>): (k: nat)
    ensures k <= |targets|
    ensures forall j :: 0 <= j < k ==> targets[j] in s.queues ==> !Full(s.queues[targets[j]])
    ensures k < |targets| ==> targets[k] in s.queues && Full(s.queues[targets[k]])
    decreases |targets|
  {
    if targets == [] || (targets[0] in s.queues && Full(s.queues[targets[0]])) then 0 else 1 + Reached(s, targets[1..])
  }

  /** The targets that exist, in order. */
  function Existing(s: State, targets: seq<QName>): seq<QName>
    decreases |targets|
  {
    if targets == [] then []
    else (if targets[0] in s.queues then [targets[0]] else []) + Existing(s, targets[1..])
  }

  ghost predicate NoRepeats<T>(xs: seq<T>) {
    forall i, j :: 0 <= i < j < |xs| ==> xs[i] != xs[j]
  }

  lemma TailNoRepeats<T>(xs: seq<T>)
    requires NoRepeats(xs) && xs != []
    ensures NoRepeats(xs[1..]) && xs[0] !in xs[1..]
  {
  }

  /** A publish to one queue leaves the others alone, and every other new id new. */
  lemma EnqueueElsewhere(s: State, m: Message, now: Time, persist: bool)
    ensures
      var s' := Enqueue(s, m, now, persist).0;
      && s'.queues.Keys == s.queues.Keys && s'.cfg == s.cfg
      && (forall n :: n in s.queues && n != m.queue ==> s'.queues[n] == s.queues[n])
      && (m.availableAt == None ==> forall x :: x != m.id && Fresh(s, x) ==> Fresh(s', x))
  {
    hide Heaps.Push, Full, NoEntry;
    var s' := Enqueue(s, m, now, persist).0;
    assert s'.queues.Keys == s.queues.Keys;
  }

  lemma SameReach(s: State, s': State, targets: seq<QName>, n: QName)
    requires s'.queues.Keys == s.queues.Keys && n !in targets
    requires forall x :: x in s.queues && x != n ==> s'.queues[x] == s.queues[x]
    ensures Reached(s', targets) == Reached(s, targets) && Existing(s', targets) == Existing(s, targets)
    decreases |targets|
  {
    hide Full;
    if targets != [] {
      assert targets[0] in targets && targets[0] in s'.queues.Keys <==> targets[0] in s.queues.Keys;
      SameReach(s, s', targets[1..], n);
    }
  }

  /** Whether a message is one of the copies. */
  ghost predicate IsCopy(s: State, targets: seq<QName>, ids: seq<Id>, x: Id)
    requires |ids| == |targets|
  {
    exists j :: 0 <= j < Reached(s, targets) && ids[j] == x && targets[j] in s.queues
  }

  lemma CopyNext(s: State, s1: State, targets: seq<QName>, ids: seq<Id>, x: Id)
    requires |ids| == |targets| && targets != [] && Reached(s, targets) > 0 && NoRepeats(ids)
    requires Reached(s, targets) == 1 + Reached(s1, targets[1..]) && s1.queues.Keys == s.queues.Keys
    ensures IsCopy(s, targets, ids, x) <==> (x == ids[0] && targets[0] in s.queues) || IsCopy(s1, targets[1..], ids[1..], x)
    ensures !IsCopy(s1, targets[1..], ids[1..], ids[0])
  {
    hide Reached;
    TailNoRepeats(ids);
    if IsCopy(s, targets, ids, x) {
      var j :| 0 <= j < Reached(s, targets) && ids[j] == x && targets[j] in s.queues;
      assert targets[j] in s1.queues.Keys;
      if j > 0 {
        assert ids[1..][j - 1] == x && targets[1..][j - 1] in s1.queues;
      }
    }
    if IsCopy(s1, targets[1..], ids[1..], x) {
      var j :| 0 <= j < Reached(s1, targets[1..]) && ids[1..][j] == x && targets[1..][j] in s1.queues;
      assert targets[j + 1] in s.queues.Keys;
      assert ids[j + 1] == x;
    }
  }

  /** What a copy is, field by field: what the publisher sent, under its own id, addressed to its queue, created now
      and never attempted; its limit is the publisher's, or the engine's if the publisher gave none, or zero. */
  predicate IsFor(m: Message, cfg: Config, d: Draft, target: QName, id: Id, now: Time) {
    && m.id == id && m.queue == target && m.payload == d.payload && m.priority == d.priority
    && m.attempts == 0 && m.availableAt == None
    && (d.maxAttempts == None || d.maxAttempts == Some(0) ==> m.maxAttempts == cfg.maxAttempts)
    && (d.maxAttempts.Some? && d.maxAttempts.value != 0 ==> m.maxAttempts == d.maxAttempts.value)
    && m.info.createdAt == now && m.info.headers == d.headers
    && m.info.exchange == d.exchange && m.info.routingKey == d.routingKey
  }

  /** The place of a copy. */
  predicate IsPlaced(s: State, p: Place, d: Draft, target: QName, id: Id, now: Time) {
    p.ReadyIn? && p.queue == target && IsFor(p.message, s.cfg, d, target, id, now)
  }

  ghost predicate CopiesPlaced(s: State, s': State, targets: seq<QName>, ids: seq<Id>, d: Draft, now: Time)
    requires |ids| == |targets|
  {
    forall j :: 0 <= j < Reached(s, targets) && targets[j] in s.queues ==>
      IsPlaced(s, PlaceOf(s', ids[j]), d, targets[j], ids[j], now)
  }

  /** A publish adds one new copy, ready, to exactly those targets that exist and come before the first full
      one; it moves no other message; it lists the queues that got a copy, and reports a full queue exactly
      when it met one. */
  lemma {:induction false} FanOutPlaces(s: State, targets: seq<QName>, ids: seq<Id>, d: Draft, now: Time, persist: bool, p: Published)
    requires |ids| == |targets| && Inv(s) && now > 0
    requires NoRepeats(targets) && NoRepeats(ids) && forall id :: id in ids ==> Fresh(s, id)
    ensures
      var (s', r) := FanOut(s, targets, ids, d, now, persist, p);
      var k := Reached(s, targets);
      && Inv(s') && CopiesPlaced(s, s', targets, ids, d, now)
      && (forall x :: !IsCopy(s, targets, ids, x) ==> PlaceOf(s', x) == PlaceOf(s, x))
      && r.routed == p.routed + Existing(s, targets[..k])
      && r.result == (if k < |targets| then QueueFull else if r.routed == [] then EnqueueNotFound else EnqueueOk)
    decreases |targets|
  {
    hide Inv, Enqueue, Fresh, PlaceOf, Full, MaxAttempts, IsCopy, CopiesPlaced, Reached, Existing, NoRepeats, FanOut;
    ReachedNext(s, targets);
    FanOutNext(s, targets, ids, d, now, persist, p);
    if targets != [] {
      var m := MessageFor(s.cfg, d, targets[0], ids[0], now);
      var (s1, r) := Enqueue(s, m, now, persist);
      assert ids[0] in ids;
      OneCopy(s, m, now, persist);
      if r == QueueFull {
        NoCopies(s, s, targets, ids, d, now);
      } else {
        TailNoRepeats(targets);
        TailNoRepeats(ids);
        EnqueueElsewhere(s, m, now, persist);
        SameReach(s, s1, targets[1..], targets[0]);
        var p1 := if r == EnqueueOk then Published(ids[0], p.routed + [targets[0]], EnqueueOk) else p;
        FanOutPlaces(s1, targets[1..], ids[1..], d, now, persist, p1);
        var s' := FanOut(s, targets, ids, d, now, persist, p).0;
        forall x
          ensures IsCopy(s, targets, ids, x) <==>
                  (x == ids[0] && targets[0] in s.queues) || IsCopy(s1, targets[1..], ids[1..], x)
        {
          CopyNext(s, s1, targets, ids, x);
        }
        CopyNext(s, s1, targets, ids, ids[0]);
        PlacedNext(s, s1, s', targets, ids, d, now);
        ExistingNext(s, s1, targets);
      }
    } else {
      NoCopies(s, s, targets, ids, d, now);
    }
  }

  /** The last target that exists. */
  predicate IsLast(s: State, targets: seq<QName>, j: int) {
    0 <= j < |targets| && targets[j] in s.queues && forall i :: j < i < |targets| ==> targets[i] !in s.queues
  }

  lemma IsLastNext(s: State, s1: State, targets: seq<QName>, j: int)
    requires targets != [] && s1.queues.Keys == s.queues.Keys
    ensures j > 0 ==> (IsLast(s, targets, j) <==> IsLast(s1, targets[1..], j - 1))
    ensures IsLast(s, targets, 0) <==> targets[0] in s.queues && forall n :: n in targets[1..] ==> n !in s1.queues
  {
    forall i | 0 <= i < |targets|
      ensures targets[i] in s.queues <==> targets[i] in s1.queues
      ensures i > 0 ==> targets[i] == targets[1..][i - 1]
    {
      assert targets[i] in s1.queues.Keys <==> targets[i] in s.queues.Keys;
    }
    forall i | 0 <= i < |targets[1..]|
      ensures targets[1..][i] == targets[i + 1]
    {
    }
  }

  /** The id that publish answers with: that of the copy that a full queue refused, or else of the last copy. */
  lemma {:induction false} FanOutLast(s: State, targets: seq<QName>, ids: seq<Id>, d: Draft, now: Time, persist: bool, p: Published)
    requires |ids| == |targets| && NoRepeats(targets)
    ensures
      var r := FanOut(s, targets, ids, d, now, persist, p).1;
      var k := Reached(s, targets);
      && (k < |targets| ==> r.lastId == ids[k])
      && (k == |targets| && (forall n :: n in targets ==> n !in s.queues) ==> r.lastId == p.lastId)
      && (k == |targets| ==> forall j :: 0 <= j < |targets| && IsLast(s, targets, j) ==> r.lastId == ids[j])
    decreases |targets|
  {
    hide Enqueue, Fresh, Full, MessageFor, Reached, NoRepeats, FanOut, IsLast;
    ReachedNext(s, targets);
    FanOutNext(s, targets, ids, d, now, persist, p);
    if targets != [] {
      var m := MessageFor(s.cfg, d, targets[0], ids[0], now);
      var (s1, r) := Enqueue(s, m, now, persist);
      AddressedTo(s.cfg, d, targets[0], ids[0], now);
      EnqueueForm(s, m, now, persist);
      if r != QueueFull {
        TailNoRepeats(targets);
        EnqueueElsewhere(s, m, now, persist);
        SameReach(s, s1, targets[1..], targets[0]);
        var p1 := if r == EnqueueOk then Published(ids[0], p.routed + [targets[0]], EnqueueOk) else p;
        FanOutLast(s1, targets[1..], ids[1..], d, now, persist, p1);
        assert targets == [targets[0]] + targets[1..];
        forall n | n in targets
          ensures n in s1.queues <==> n in s.queues
        {
          assert n in s1.queues.Keys <==> n in s.queues.Keys;
        }
        forall j | 0 <= j < |targets| && IsLast(s, targets, j)
          ensures j > 0 ==> IsLast(s1, targets[1..], j - 1) && ids[j] == ids[1..][j - 1]
          ensures j == 0 ==> targets[0] in s.queues && forall n :: n in targets[1..] ==> n !in s1.queues
        {
          IsLastNext(s, s1, targets, j);
        }
      }
    }
  }

  lemma AddressedTo(cfg: Config, d: Draft, target: QName, id: Id, now: Time)
    ensures MessageFor(cfg, d, target, id, now).queue == target && MessageFor(cfg, d, target, id, now).id == id
    ensures MessageFor(cfg, d, target, id, now).availableAt == None
  {
  }

  lemma ReachedNext(s: State, targets: seq<QName>)
    ensures Reached(s, targets) ==
            if targets == [] || (targets[0] in s.queues && Full(s.queues[targets[0]])) then 0 else 1 + Reached(s, targets[1..])
    ensures Existing(s, targets[..0]) == []
  {
    hide Full;
  }

  lemma FanOutNext(s: State, targets: seq<QName>, ids: seq<Id>, d: Draft, now: Time, persist: bool, p: Published)
    requires |ids| == |targets|
    ensures targets == [] ==> FanOut(s, targets, ids, d, now, persist, p) ==
                              (s, p.(result := if p.routed == [] then EnqueueNotFound else EnqueueOk))
    ensures targets != [] ==>
      var (s1, r) := Enqueue(s, MessageFor(s.cfg, d, targets[0], ids[0], now), now, persist);
      FanOut(s, targets, ids, d, now, persist, p) ==
      match r
      case QueueFull => (s1, Published(ids[0], p.routed, QueueFull))
      case EnqueueOk =>
        FanOut(s1, targets[1..], ids[1..], d, now, persist, Published(ids[0], p.routed + [targets[0]], EnqueueOk))
      case EnqueueNotFound => FanOut(s1, targets[1..], ids[1..], d, now, persist, p)
  {
    hide Enqueue, MessageFor;
  }

  lemma OneCopy(s: State, m: Message, now: Time, persist: bool)
    requires Inv(s) && Fresh(s, m.id) && m.availableAt == None && now > 0
    ensures
      var (s', r) := Enqueue(s, m, now, persist);
      && Inv(s')
      && (r == QueueFull <==> m.queue in s.queues && Full(s.queues[m.queue]))
      && (r == EnqueueNotFound <==> m.queue !in s.queues)
      && (r != EnqueueOk ==> s' == s)
      && (r == EnqueueOk ==> PlaceOf(s', m.id) == ReadyIn(m.queue, m))
      && (forall x :: (r != EnqueueOk || x != m.id) ==> PlaceOf(s', x) == PlaceOf(s, x))
  {
    hide Inv, Fresh, PlaceOf, Full;
    EnqueueInv(s, m, now, persist);
    EnqueueForm(s, m, now, persist);
    hide Enqueue;
    if Enqueue(s, m, now, persist).1 == EnqueueOk {
      EnqueuePlace(s, m, now, persist);
    }
  }

  lemma EnqueueForm(s: State, m: Message, now: Time, persist: bool)
    ensures
      var (s', r) := Enqueue(s, m, now, persist);
      && (r == QueueFull <==> m.queue in s.queues && Full(s.queues[m.queue]))
      && (r == EnqueueNotFound <==> m.queue !in s.queues)
      && (r != EnqueueOk ==> s' == s)
  {
    hide Full, Heaps.Push;
  }

  lemma NoCopies(s: State, s': State, targets: seq<QName>, ids: seq<Id>, d: Draft, now: Time)
    requires |ids| == |targets| && Reached(s, targets) == 0
    ensures CopiesPlaced(s, s', targets, ids, d, now) && forall x :: !IsCopy(s, targets, ids, x)
  {
    hide Reached, PlaceOf;
  }

  lemma PlacedNext(s: State, s1: State, s': State, targets: seq<QName>, ids: seq<Id>, d: Draft, now: Time)
    requires |ids| == |targets| && targets != [] && s1.cfg == s.cfg && s1.queues.Keys == s.queues.Keys
    requires Reached(s, targets) == 1 + Reached(s1, targets[1..])
    requires CopiesPlaced(s1, s', targets[1..], ids[1..], d, now)
    requires targets[0] in s.queues ==>
               PlaceOf(s', ids[0]) == ReadyIn(targets[0], MessageFor(s.cfg, d, targets[0], ids[0], now))
    ensures CopiesPlaced(s, s', targets, ids, d, now)
  {
    hide Reached, PlaceOf, MaxAttempts, MessageFor, IsFor;
    forall j | 0 <= j < Reached(s, targets) && targets[j] in s.queues
      ensures IsPlaced(s, PlaceOf(s', ids[j]), d, targets[j], ids[j], now)
    {
      MadeFor(s.cfg, d, targets[j], ids[j], now);
      if j > 0 {
        assert targets[j] in s1.queues.Keys;
        assert targets[1..][j - 1] == targets[j] && ids[1..][j - 1] == ids[j];
      }
    }
  }

  lemma MadeFor(cfg: Config, d: Draft, target: QName, id: Id, now: Time)
    ensures IsFor(MessageFor(cfg, d, target, id, now), cfg, d, target, id, now)
  {
  }

  lemma ExistingNext(s: State, s1: State, targets: seq<QName>)
    requires targets != [] && Reached(s, targets) == 1 + Reached(s1, targets[1..]) && s1.queues.Keys == s.queues.Keys
    ensures
      var k := Reached(s1, targets[1..]);
      Existing(s, targets[..k + 1]) == (if targets[0] in s.queues then [targets[0]] else []) + Existing(s1, targets[1..][..k])
  {
    var k := Reached(s1, targets[1..]);
    assert targets[..k + 1][1..] == targets[1..][..k];
    SameExisting(s, s1, targets[1..][..k]);
  }

  lemma SameExisting(s: State, s1: State, targets: seq<QName>)
    requires s1.queues.Keys == s.queues.Keys
    ensures Existing(s, targets) == Existing(s1, targets)
    decreases |targets|
  {
    if targets != [] {
      assert targets[0] in s.queues.Keys <==> targets[0] in s1.queues.Keys;
      SameExisting(s, s1, targets[1..]);
    }
  }

  // ----- the router -----

  datatype Router = Router(engine: State, exchanges: map<string, Exchange>, bindings: set<Binding>)

  /** The queues that an exchange sends a message to. */
  function Bound(r: Router, exchange: string, routingKey: string): set<QName> {
    if exchange !in r.exchanges then {}
    else set b | b in r.bindings && b.exchange == exchange
                 && (r.exchanges[exchange].kind == Fanout || b.routingKey == routingKey) :: b.queue
  }

  /** Exchanges are kept under their names, the default one exists and is a direct one, and the exchange of
      every binding exists. */
  ghost predicate RouterOk(r: Router) {
    && DEFAULT_EXCHANGE in r.exchanges && r.exchanges[DEFAULT_EXCHANGE] == Exchange(DEFAULT_EXCHANGE, Direct, true)
    && (forall x :: x in r.exchanges ==> r.exchanges[x].name == x)
    && forall b :: b in r.bindings ==> b.exchange in r.exchanges
  }

  function DeclareExchange(r: Router, name: string, kind: Kind, durable: bool, persist: bool): Router {
    if name in r.exchanges then r
    else r.(exchanges := r.exchanges[name := Exchange(name, kind, durable)],
            engine := Log(r.engine, ExchangeDeclare(name, if kind == Direct then "direct" else "fanout", durable), [], persist))
  }

  function DeleteExchange(r: Router, name: string, persist: bool): (Router, bool) {
    if name == DEFAULT_EXCHANGE || name !in r.exchanges then (r, false)
    else
      (Router(Log(r.engine, ExchangeDelete(name), [], persist), r.exchanges - {name},
              set b | b in r.bindings && b.exchange != name),
       true)
  }

  function BindQueue(r: Router, b: Binding, persist: bool): (Router, bool) {
    if b.exchange !in r.exchanges || b.queue !in r.engine.queues then (r, false)
    else
      (r.(bindings := r.bindings + {b}, engine := Log(r.engine, Bind(b.exchange, b.queue, b.routingKey), [], persist)), true)
  }

  function UnbindQueue(r: Router, b: Binding, persist: bool): (Router, bool) {
    if b !in r.bindings then (r, false)
    else
      (r.(bindings := r.bindings - {b}, engine := Log(r.engine, Unbind(b.exchange, b.queue, b.routingKey), [], persist)), true)
  }

  /** on_queue_declared: a queue is bound to the default exchange under its own name. */
  function OnQueueDeclared(r: Router, n: QName, persist: bool): Router {
    BindQueue(r, Binding(DEFAULT_EXCHANGE, n, n), persist).0
  }

  /** Where a publish is addressed. */
  datatype Address = Address(exchange: Option<string>, routingKey: string, queue: Option<QName>)

  /** A publish to a queue, and to no exchange, goes through the default exchange and declares the queue. */
  function Prepare(r: Router, a: Address, persist: bool): (Router, string, string) {
    if a.queue.Some? && a.queue.value != "" && (a.exchange == None || a.exchange == Some("")) then
      var n := a.queue.value;
      var key := if a.routingKey == "" then n else a.routingKey;
      if n in r.engine.queues then (r, DEFAULT_EXCHANGE, key)
      else (OnQueueDeclared(r.(engine := Declare(r.engine, n, DEFAULT_ARGS, persist)), n, persist), DEFAULT_EXCHANGE, key)
    else (r, a.exchange.GetOr(DEFAULT_EXCHANGE), a.routingKey)
  }

  /** Every router step keeps the router sound: deleting an exchange takes its bindings with it. */
  lemma RouterSteps(r: Router, name: string, kind: Kind, b: Binding, a: Address, persist: bool)
    requires RouterOk(r)
    ensures RouterOk(DeclareExchange(r, name, kind, true, persist)) && RouterOk(DeleteExchange(r, name, persist).0)
    ensures RouterOk(BindQueue(r, b, persist).0) && RouterOk(UnbindQueue(r, b, persist).0)
    ensures RouterOk(Prepare(r, a, persist).0)
  {
    hide Declare, Log;
  }

  /** A publish that names a queue and no exchange reaches that queue if and only if the queue is bound to the
      default exchange under the routing key, or is declared by this publish, which binds it under its own
      name. Afterwards the queue exists in any case. */
  lemma DirectPublishBound(r: Router, a: Address, persist: bool)
    requires RouterOk(r) && a.queue.Some? && a.queue.value != "" && (a.exchange == None || a.exchange == Some(""))
    ensures
      var n := a.queue.value;
      var (r1, exchange, key) := Prepare(r, a, persist);
      && n in r1.engine.queues && exchange == DEFAULT_EXCHANGE && key == (if a.routingKey == "" then n else a.routingKey)
      && (n in Bound(r1, exchange, key) <==>
            (n !in r.engine.queues && key == n) || Binding(DEFAULT_EXCHANGE, n, key) in r.bindings)
  {
    hide Declare;
    var n := a.queue.value;
    DeclareKeepsQueues(r.engine, n, DEFAULT_ARGS, persist);
    var (r1, exchange, key) := Prepare(r, a, persist);
    assert n in Bound(r1, exchange, key) <==> Binding(DEFAULT_EXCHANGE, n, key) in r1.bindings;
  }

  /** A dead-letter queue comes with its queue and is bound to nothing, so a publish that names it goes
      nowhere. */
  lemma DeadLettersUnbound(r: Router, n: QName, persist: bool)
    requires RouterOk(r) && n != "" && !IsDlq(n) && n !in r.engine.queues && DlqName(n) !in r.engine.queues
    requires forall b :: b in r.bindings ==> b.queue != DlqName(n)
    ensures
      var r1 := Prepare(r, Address(None, "", Some(n)), persist).0;
      var (r2, exchange, key) := Prepare(r1, Address(None, "", Some(DlqName(n))), persist);
      RouterOk(r1) && DlqName(n) in r1.engine.queues && DlqName(n) !in Bound(r2, exchange, key)
  {
    hide Declare, Bound, IsDlq;
    DeclareBoth(r.engine, n, persist);
    RouterSteps(r, "", Direct, Binding("", "", ""), Address(None, "", Some(n)), persist);
    DirectPublishBound(Prepare(r, Address(None, "", Some(n)), persist).0, Address(None, "", Some(DlqName(n))), persist);
  }

  lemma DeclareBoth(s: State, n: QName, persist: bool)
    requires !IsDlq(n) && n !in s.queues
    ensures DlqName(n) in Declare(s, n, DEFAULT_ARGS, persist).queues
  {
    hide IsDlq;
  }

  /** The ids of the copies: the publisher's own for a single target, new ones otherwise. */
  function CopyIds(targets: seq<QName>, given: Option<Id>, uuid: nat -> Id): (ids: seq<Id>)
    ensures |ids| == |targets|
  {
    if |targets| == 1 && given.Some? && given.value != "" then [given.value] else seq(|targets|, i requires 0 <= i => uuid(i))
  }

  /** Copies never share an id, as long as new ids differ. */
  lemma CopiesDiffer(targets: seq<QName>, given: Option<Id>, uuid: nat -> Id)
    requires forall i: nat, j: nat :: i != j ==> uuid(i) != uuid(j)
    ensures NoRepeats(CopyIds(targets, given, uuid))
  {
  }

  /** A publish goes to the queues that are bound, and the sorted list of them has no repetitions. */
  lemma TargetsDiffer(targets: seq<QName>, names: set<QName>)
    requires IsSorted(targets, names)
    ensures NoRepeats(targets) && |targets| == |names|
    decreases |targets|
  {
    SortedEmpty(targets, names);
    if targets != [] {
      SortedTail(targets, names);
      assert targets[0] in targets;
      TargetsDiffer(targets[1..], names - {targets[0]});
    }
  }

  lemma ExistingMeaning(s: State, targets: seq<QName>)
    ensures forall n :: n in Existing(s, targets) <==> n in targets && n in s.queues
    decreases |targets|
  {
    if targets != [] {
      ExistingMeaning(s, targets[1..]);
      assert targets == [targets[0]] + targets[1..];
    }
  }

  lemma PrepareEngine(r: Router, a: Address, persist: bool, id: Id)
    requires Inv(r.engine)
    ensures
      var s1 := Prepare(r, a, persist).0.engine;
      Inv(s1) && PlaceOf(s1, id) == PlaceOf(r.engine, id) && (Fresh(r.engine, id) ==> Fresh(s1, id))
  {
    hide Inv, PlaceOf, Fresh, Declare;
    if a.queue.Some? {
      var n := a.queue.value;
      var s := Declare(r.engine, n, DEFAULT_ARGS, persist);
      DeclareInv(r.engine, n, DEFAULT_ARGS, persist);
      DeclarePlaces(r.engine, n, DEFAULT_ARGS, persist);
      if Fresh(r.engine, id) {
        DeclareKeepsFresh(r.engine, n, DEFAULT_ARGS, persist, id);
      }
      var meta := Bind(DEFAULT_EXCHANGE, n, n);
      LoggedEngine(s, meta, persist, id);
    }
  }

  lemma LoggedEngine(s: State, meta: Meta, persist: bool, id: Id)
    ensures
      var s1 := Log(s, meta, [], persist);
      (Inv(s) ==> Inv(s1)) && PlaceOf(s1, id) == PlaceOf(s, id) && (Fresh(s, id) ==> Fresh(s1, id))
  {
  }

  /** publish, once the targets are known. */
  function PublishTo(r: Router, a: Address, payload: Bytes, maxAttempts: Option<int>, priority: int, headers: string,
                     given: Option<Id>, uuid: nat -> Id, targets: seq<QName>, now: Time, persist: bool): (Router, Published) {
    var (r1, exchange, key) := Prepare(r, a, persist);
    if targets == [] then (r1, Published("", [], EnqueueNotFound))
    else
      var d := Draft(payload, maxAttempts, priority, headers, exchange, key);
      var (engine, p) :=
        FanOut(r1.engine, targets, CopyIds(targets, given, uuid), d, now, persist, Published("", [], EnqueueOk));
      (r1.(engine := engine), p)
  }

  /** The exchange that a publish goes through: the default one if it names none, and so if it names a queue only. */
  function ExchangeOf(a: Address): string {
    if a.exchange == None then "" else a.exchange.value
  }

  /** Its routing key: the queue's name if it names a queue and neither exchange nor key. */
  function KeyOf(a: Address): string {
    if ExchangeOf(a) == "" && a.routingKey == "" && a.queue.Some? then a.queue.value else a.routingKey
  }

  lemma PrepareNames(r: Router, a: Address, persist: bool)
    ensures Prepare(r, a, persist).1 == ExchangeOf(a) && Prepare(r, a, persist).2 == KeyOf(a)
  {
    hide Declare, OnQueueDeclared;
  }

  /** A whole publish, with ids that are new and differ. Its targets are the queues bound to the exchange, by any key
      if it is a fanout one and by the message's key if it is a direct one. It puts one copy of what the publisher sent,
      ready, into each of them that exists, up to the first full one, and moves no other message; if it reports
      success, the queues it lists are exactly the bound ones that exist. A publisher's own id is used for a single
      target only. */
  lemma PublishPlaces(r: Router, a: Address, payload: Bytes, maxAttempts: Option<int>, priority: int, headers: string,
                      given: Option<Id>, uuid: nat -> Id, targets: seq<QName>, now: Time, persist: bool)
    requires Inv(r.engine) && now > 0
    requires forall i: nat, j: nat :: i != j ==> uuid(i) != uuid(j)
    requires (forall i: nat :: Fresh(r.engine, uuid(i))) && (given.Some? ==> Fresh(r.engine, given.value))
    requires IsSorted(targets, Bound(Prepare(r, a, persist).0, Prepare(r, a, persist).1, Prepare(r, a, persist).2))
    ensures
      var r1 := Prepare(r, a, persist).0;
      var ids := CopyIds(targets, given, uuid);
      var (r', p) := PublishTo(r, a, payload, maxAttempts, priority, headers, given, uuid, targets, now, persist);
      && Inv(r'.engine)
      && CopiesPlaced(r1.engine, r'.engine, targets, ids,
                      Draft(payload, maxAttempts, priority, headers, ExchangeOf(a), KeyOf(a)), now)
      && (forall x :: !IsCopy(r1.engine, targets, ids, x) ==> PlaceOf(r'.engine, x) == PlaceOf(r.engine, x))
      && (if |targets| == 1 && given.Some? && given.value != "" then ids == [given.value]
          else forall j: nat :: j < |targets| ==> ids[j] == uuid(j))
      && (forall n :: n in targets <==> Linked(r1, ExchangeOf(a), KeyOf(a), n))
      && (p.result == EnqueueOk ==> forall n :: n in p.routed <==> n in targets && n in r1.engine.queues)
  {
    hide Inv, PlaceOf, Fresh, Prepare, FanOut, CopiesPlaced, IsCopy, NoRepeats, Existing, Reached, CopyIds, Bound, InOrder, Linked,
      ExchangeOf, KeyOf;
    var (r1, exchange, key) := Prepare(r, a, persist);
    var ids := CopyIds(targets, given, uuid);
    PrepareNames(r, a, persist);
    PrepareEngine(r, a, persist, "");
    TargetsDiffer(targets, Bound(r1, exchange, key));
    CopiesDiffer(targets, given, uuid);
    CopyIdsAre(targets, given, uuid);
    forall id | id in ids
      ensures Fresh(r1.engine, id)
    {
      PrepareEngine(r, a, persist, id);
      CopyNew(targets, given, uuid, id);
    }
    var d := Draft(payload, maxAttempts, priority, headers, exchange, key);
    FanOutPlaces(r1.engine, targets, ids, d, now, persist, Published("", [], EnqueueOk));
    FanOutNext(r1.engine, targets, ids, d, now, persist, Published("", [], EnqueueOk));
    forall x
      ensures PlaceOf(r1.engine, x) == PlaceOf(r.engine, x)
    {
      PrepareEngine(r, a, persist, x);
    }
    ExistingMeaning(r1.engine, targets);
    assert targets[..|targets|] == targets;
    forall n
      ensures n in Bound(r1, exchange, key) <==> Linked(r1, exchange, key, n)
    {
      BoundLinked(r1, exchange, key, n);
    }
  }

  /** A binding leads from the exchange to the queue. */
  predicate Linked(r: Router, exchange: string, key: string, n: QName) {
    && exchange in r.exchanges
    && exists b :: b in r.bindings && b.queue == n && b.exchange == exchange
                   && (r.exchanges[exchange].kind == Direct ==> b.routingKey == key)
  }

  lemma BoundLinked(r: Router, exchange: string, key: string, n: QName)
    ensures n in Bound(r, exchange, key) <==> Linked(r, exchange, key, n)
  {
  }

  lemma CopyIdsAre(targets: seq<QName>, given: Option<Id>, uuid: nat -> Id)
    ensures
      var ids := CopyIds(targets, given, uuid);
      if |targets| == 1 && given.Some? && given.value != "" then ids == [given.value]
      else forall j: nat :: j < |targets| ==> ids[j] == uuid(j)
  {
  }

  lemma CopyNew(targets: seq<QName>, given: Option<Id>, uuid: nat -> Id, id: Id)
    requires id in CopyIds(targets, given, uuid)
    ensures given == Some(id) || exists i: nat :: uuid(i) == id
  {
  }

  // ----- saving and restoring -----

  datatype SavedRouter = SavedRouter(exchanges: seq<Exchange>, bindings: seq<Binding>)

  /** The saved state lists every exchange and every binding, in any order. */
  ghost predicate IsSavedRouter(r: Router, saved: SavedRouter) {
    && (forall e :: e in saved.exchanges <==> e.name in r.exchanges && r.exchanges[e.name] == e)
    && (forall b :: b in saved.bindings <==> b in r.bindings)
  }

  function RestoreExchanges(r: Router, list: seq<Exchange>): Router
    decreases |list|
  {
    if list == [] then r
    else RestoreExchanges(DeclareExchange(r, list[0].name, list[0].kind, list[0].durable, false), list[1..])
  }

  function RestoreBindings(r: Router, list: seq<Binding>): Router
    decreases |list|
  {
    if list == [] then r else RestoreBindings(BindQueue(r, list[0], false).0, list[1..])
  }

  /** restore_state of the router, on an engine that has been restored. */
  function RestoreRouter(r: Router, saved: SavedRouter): Router {
    var r0 := DeclareExchange(Router(r.engine, map[], {}), DEFAULT_EXCHANGE, Direct, true, false);
    RestoreBindings(RestoreExchanges(r0, saved.exchanges), saved.bindings)
  }

  class RoutingEngine {
    const engine: QueueEngine
    var exchanges: map<string, Exchange>
    var bindings: set<Binding>

    function State(): Router
      reads this, engine, engine.delayed
    {
      Router(engine.State(), exchanges, bindings)
    }

    constructor (engine: QueueEngine)
      ensures this.engine == engine && State() == DeclareExchange(Router(engine.State(), map[], {}), DEFAULT_EXCHANGE, Direct, true, false)
      ensures RouterOk(State())
    {
      this.engine := engine;
      exchanges, bindings := map[DEFAULT_EXCHANGE := Exchange(DEFAULT_EXCHANGE, Direct, true)], {};
    }

    method Declare(name: string, kind: Kind, durable: bool, persist: bool)
      modifies this, engine`journal
      ensures State() == DeclareExchange(old(State()), name, kind, durable, persist)
    {
      if name in exchanges {
        return;
      }
      exchanges := exchanges[name := Exchange(name, kind, durable)];
      if persist {
        engine.Log(ExchangeDeclare(name, if kind == Direct then "direct" else "fanout", durable), []);
      }
    }

    method Delete(name: string, persist: bool) returns (found: bool)
      modifies this, engine`journal
      ensures State() == DeleteExchange(old(State()), name, persist).0 && found == DeleteExchange(old(State()), name, persist).1
    {
      if name == DEFAULT_EXCHANGE || name !in exchanges {
        return false;
      }
      exchanges := exchanges - {name};
      bindings := set b | b in bindings && b.exchange != name;
      if persist {
        engine.Log(ExchangeDelete(name), []);
      }
      return true;
    }

    method Bind(b: Binding, persist: bool) returns (ok: bool)
      modifies this, engine`journal
      ensures State() == BindQueue(old(State()), b, persist).0 && ok == BindQueue(old(State()), b, persist).1
    {
      if b.exchange !in exchanges || b.queue !in engine.queues {
        return false;
      }
      bindings := bindings + {b};
      if persist {
        engine.Log(Journal.Bind(b.exchange, b.queue, b.routingKey), []);
      }
      return true;
    }

    method Unbind(b: Binding, persist: bool) returns (ok: bool)
      modifies this, engine`journal
      ensures State() == UnbindQueue(old(State()), b, persist).0 && ok == UnbindQueue(old(State()), b, persist).1
    {
      if b !in bindings {
        return false;
      }
      bindings := bindings - {b};
      if persist {
        engine.Log(Journal.Unbind(b.exchange, b.queue, b.routingKey), []);
      }
      return true;
    }

    /** route_targets: the bound queues, each once, in order. */
    method RouteTargets(exchange: string, routingKey: string) returns (targets: seq<QName>)
      ensures IsSorted(targets, Bound(State(), exchange, routingKey))
    {
      hide IsSorted, Insert;
      var left := Bound(State(), exchange, routingKey);
      ghost var all := left;
      targets := [];
      SortedNone();
      while left != {}
        invariant left <= all && IsSorted(targets, all - left)
        decreases |left|
      {
        var n :| n in left;
        InsertSorted(targets, all - left, n);
        assert all - left + {n} == all - (left - {n});
        targets := Insert(targets, n);
        left := left - {n};
      }
      assert all - left == all;
    }

    static lemma SortedNone()
      ensures forall names: set<QName> :: IsSorted([], names - names)
    {
    }

    method PrepareTarget(a: Address, persist: bool) returns (exchange: string, key: string)
      modifies this, engine`queues, engine`journal
      ensures (State(), exchange, key) == Prepare(old(State()), a, persist)
    {
      hide Engine.Declare;
      if a.queue.Some? && a.queue.value != "" && (a.exchange == None || a.exchange == Some("")) {
        var n := a.queue.value;
        if n !in engine.queues {
          engine.DeclareQueue(n, DEFAULT_ARGS, persist);
          var ok := Bind(Binding(DEFAULT_EXCHANGE, n, n), persist);
        }
        return DEFAULT_EXCHANGE, if a.routingKey == "" then n else a.routingKey;
      }
      return a.exchange.GetOr(DEFAULT_EXCHANGE), a.routingKey;
    }

    /** publish. "uuid" stands for the source of new ids. */
    method Publish(a: Address, payload: Bytes, maxAttempts: Option<int>, priority: int, headers: string, given: Option<Id>,
                   uuid: nat -> Id, now: Time, persist: bool)
      returns (p: Published, ghost targets: seq<QName>)
      modifies this, engine, engine.delayed
      ensures engine.delayed == old(engine.delayed)
      ensures
        var (r1, exchange, key) := Prepare(old(State()), a, persist);
        && IsSorted(targets, Bound(r1, exchange, key))
        && (State(), p) == PublishTo(old(State()), a, payload, maxAttempts, priority, headers, given, uuid, targets, now, persist)
    {
      hide Prepare, FanOut, IsSorted, Bound;
      var exchange, key := PrepareTarget(a, persist);
      var names := RouteTargets(exchange, key);
      targets := names;
      if exchange !in exchanges {
        NowhereBound(State(), exchange, key, names);
        return Published("", [], EnqueueNotFound), targets;
      }
      if names == [] {
        return Published("", [], EnqueueNotFound), targets;
      }
      var d := Draft(payload, maxAttempts, priority, headers, exchange, key);
      p := Send(names, CopyIds(names, given, uuid), d, now, persist);
    }

    static lemma NowhereBound(r: Router, exchange: string, key: string, names: seq<QName>)
      requires exchange !in r.exchanges && IsSorted(names, Bound(r, exchange, key))
      ensures names == []
    {
      hide InOrder;
      SortedEmpty(names, Bound(r, exchange, key));
    }

    method Send(names: seq<QName>, ids: seq<Id>, d: Draft, now: Time, persist: bool) returns (p: Published)
      requires |ids| == |names|
      modifies engine, engine.delayed
      ensures engine.delayed == old(engine.delayed)
      ensures (engine.State(), p) == FanOut(old(engine.State()), names, ids, d, now, persist, Published("", [], EnqueueOk))
    {
      hide FanOut, Engine.Enqueue, MaxAttempts;
      p := Published("", [], EnqueueOk);
      ghost var s := engine.State();
      var i := 0;
      assert names[i..] == names && ids[i..] == ids;
      while i < |names|
        invariant 0 <= i <= |names| && engine.delayed == old(engine.delayed)
        invariant FanOut(engine.State(), names[i..], ids[i..], d, now, persist, p) ==
                  FanOut(s, names, ids, d, now, persist, Published("", [], EnqueueOk))
        invariant engine.cfg == s.cfg
      {
        FanOutNext(engine.State(), names[i..], ids[i..], d, now, persist, p);
        assert names[i..][1..] == names[i + 1..] && ids[i..][1..] == ids[i + 1..];
        var r := engine.Enqueue(MessageFor(engine.cfg, d, names[i], ids[i], now), now, persist);
        if r == QueueFull {
          p := Published(ids[i], p.routed, QueueFull);
          return;
        }
        if r == EnqueueOk {
          p := Published(ids[i], p.routed + [names[i]], EnqueueOk);
        }
        i := i + 1;
      }
      FanOutNext(engine.State(), names[i..], ids[i..], d, now, persist, p);
      p := p.(result := if p.routed == [] then EnqueueNotFound else EnqueueOk);
    }

    // ----- saving and restoring -----

    /** snapshot_state. The dictionary and the set decide in which order exchanges and bindings are listed. */
    method SnapshotState() returns (saved: SavedRouter)
      requires RouterOk(State())
      ensures IsSavedRouter(State(), saved)
    {
      var list: seq<Exchange> := [];
      var names := exchanges.Keys;
      while names != {}
        invariant names <= exchanges.Keys
        invariant forall e :: e in list <==> e.name in exchanges && e.name !in names && exchanges[e.name] == e
        decreases |names|
      {
        var x :| x in names;
        names := names - {x};
        list := list + [exchanges[x]];
      }
      var bound: seq<Binding> := [];
      var left := bindings;
      while left != {}
        invariant left <= bindings && forall b :: b in bound <==> b in bindings && b !in left
        decreases |left|
      {
        var b :| b in left;
        left := left - {b};
        bound := bound + [b];
      }
      return SavedRouter(list, bound);
    }

    method RestoreState(saved: SavedRouter)
      modifies this, engine`journal
      ensures State() == RestoreRouter(old(State()), saved)
    {
      hide RestoreExchanges, RestoreBindings;
      exchanges, bindings := map[], {};
      Declare(DEFAULT_EXCHANGE, Direct, true, false);
      ghost var r0 := State();
      var i := 0;
      assert saved.exchanges[i..] == saved.exchanges;
      while i < |saved.exchanges|
        invariant 0 <= i <= |saved.exchanges|
        invariant RestoreExchanges(State(), saved.exchanges[i..]) == RestoreExchanges(r0, saved.exchanges)
      {
        ExchangesNext(State(), saved.exchanges[i..]);
        assert saved.exchanges[i..][1..] == saved.exchanges[i + 1..];
        Declare(saved.exchanges[i].name, saved.exchanges[i].kind, saved.exchanges[i].durable, false);
        i := i + 1;
      }
      ExchangesNext(State(), saved.exchanges[i..]);
      ghost var r1 := State();
      i := 0;
      assert saved.bindings[i..] == saved.bindings;
      while i < |saved.bindings|
        invariant 0 <= i <= |saved.bindings|
        invariant RestoreBindings(State(), saved.bindings[i..]) == RestoreBindings(r1, saved.bindings)
      {
        BindingsNext(State(), saved.bindings[i..]);
        assert saved.bindings[i..][1..] == saved.bindings[i + 1..];
        var ok := Bind(saved.bindings[i], false);
        i := i + 1;
      }
      BindingsNext(State(), saved.bindings[i..]);
    }

    static lemma ExchangesNext(r: Router, list: seq<Exchange>)
      ensures RestoreExchanges(r, list) ==
              if list == [] then r
              else RestoreExchanges(DeclareExchange(r, list[0].name, list[0].kind, list[0].durable, false), list[1..])
    {
      hide DeclareExchange;
    }

    static lemma BindingsNext(r: Router, list: seq<Binding>)
      ensures RestoreBindings(r, list) == if list == [] then r else RestoreBindings(BindQueue(r, list[0], false).0, list[1..])
    {
      hide BindQueue;
    }
  }
}
