/** Consumers, their prefetch accounts and round-robin delivery. The engine's state is part of the broker's:
    the consumer lists and the round-robin index are fields of the queues. */
module Consumers {
  import opened Types
  import opened Engine

  type ConnId = string

  /** A registered consumer with its prefetch account; a prefetch of zero or less is no limit. */
  datatype Consumer = Consumer(id: ConsumerId, connection: ConnId, queues: seq<QName>, prefetch: int, unacked: nat)

  datatype Broker = Broker(
    engine: State,
    consumers: map<ConsumerId, Consumer>,
    byConnection: map<ConnId, set<ConsumerId>>)

  // ----- the account -----

  predicate CanDeliver(c: Consumer) {
    c.prefetch <= 0 || c.unacked < c.prefetch
  }

  function OnDeliver(c: Consumer): Consumer {
    if CanDeliver(c) then c.(unacked := c.unacked + 1) else c
  }

  function OnAckOf(c: Consumer): Consumer {
    if c.unacked > 0 then c.(unacked := c.unacked - 1) else c
  }

  function SetPrefetch(c: Consumer, count: int): Consumer {
    c.(prefetch := if count > 0 then count else 0)
  }

  function OnAck(b: Broker, id: ConsumerId): Broker {
    if id in b.consumers then b.(consumers := b.consumers[id := OnAckOf(b.consumers[id])]) else b
  }

  function Qos(b: Broker, id: ConsumerId, count: int): (Broker, bool) {
    if id in b.consumers then (b.(consumers := b.consumers[id := SetPrefetch(b.consumers[id], count)]), true)
    else (b, false)
  }

  // ----- registering and cancelling -----

  function SetList(s: State, n: QName, ids: seq<ConsumerId>): State
    requires n in s.queues
  {
    SetQueue(s, n, s.queues[n].(consumerIds := ids))
  }

  lemma DeclaredNow(s: State, n: QName, a: DeclareArgs)
    ensures n in Declare(s, n, a, true).queues
  {
    DeclareKeepsQueues(s, n, a, true);
  }

  function Join(s: State, n: QName, id: ConsumerId): State {
    DeclaredNow(s, n, DEFAULT_ARGS);
    var s1 := Declare(s, n, DEFAULT_ARGS, true);
    if id in s1.queues[n].consumerIds then s1 else SetList(s1, n, s1.queues[n].consumerIds + [id])
  }

  function JoinAll(s: State, names: seq<QName>, id: ConsumerId): State
    decreases |names|
  {
    if names == [] then s else JoinAll(Join(s, names[0], id), names[1..], id)
  }

  function Members(b: Broker, conn: ConnId): set<ConsumerId> {
    if conn in b.byConnection then b.byConnection[conn] else {}
  }

  function Register(b: Broker, id: ConsumerId, conn: ConnId, names: seq<QName>, prefetch: int): Broker {
    Broker(JoinAll(b.engine, names, id),
           b.consumers[id := Consumer(id, conn, names, prefetch, 0)],
           b.byConnection[conn := Members(b, conn) + {id}])
  }

  /** list.remove: the first occurrence. */
  function RemoveFirst(ids: seq<ConsumerId>, id: ConsumerId): seq<ConsumerId> {
    if ids == [] then [] else if ids[0] == id then ids[1..] else [ids[0]] + RemoveFirst(ids[1..], id)
  }

  function Leave(s: State, n: QName, id: ConsumerId): State {
    if n in s.queues then SetList(s, n, RemoveFirst(s.queues[n].consumerIds, id)) else s
  }

  function LeaveAll(s: State, names: seq<QName>, id: ConsumerId): State
    decreases |names|
  {
    if names == [] then s else LeaveAll(Leave(s, names[0], id), names[1..], id)
  }

  /** The connection forgets the consumer, and is itself forgotten with its last one. */
  function Unlink(byConnection: map<ConnId, set<ConsumerId>>, conn: ConnId, id: ConsumerId): map<ConnId, set<ConsumerId>> {
    if conn !in byConnection then byConnection
    else if byConnection[conn] - {id} == {} then byConnection - {conn}
    else byConnection[conn := byConnection[conn] - {id}]
  }

  /** cancel, up to the recovery of the consumer's deliveries. */
  function Dismiss(b: Broker, id: ConsumerId): Broker
    requires id in b.consumers
  {
    var c := b.consumers[id];
    Broker(LeaveAll(b.engine, c.queues, id), b.consumers - {id}, Unlink(b.byConnection, c.connection, id))
  }

  /** cancel; "todo" lists the consumer's deliveries in the order of the dictionaries. */
  function Cancel(b: Broker, id: ConsumerId, todo: seq<Addr>, now: Time): (Broker, bool)
    requires id in b.consumers ==> forall a :: a in todo ==> a.queue in Dismiss(b, id).engine.queues
  {
    if id !in b.consumers then (b, false)
    else
      var b1 := Dismiss(b, id);
      (b1.(engine := Recover(b1.engine, todo, now, true)), true)
  }

  // ----- delivering -----

  predicate Eligible(b: Broker, id: ConsumerId) {
    id in b.consumers && CanDeliver(b.consumers[id])
  }

  /** Moves the round-robin index on. */
  function Advance(b: Broker, n: QName): Broker
    requires n in b.engine.queues
  {
    b.(engine := SetQueue(b.engine, n, b.engine.queues[n].(rrIndex := b.engine.queues[n].rrIndex + 1)))
  }

  datatype Item = Item(consumer: ConsumerId, message: Message)

  function Serve(b: Broker, n: QName, id: ConsumerId, now: Time): (Broker, Option<Item>)
    requires id in b.consumers
  {
    var (engine, r) := Reserve(b.engine, n, id, now);
    match r
    case None => (b.(engine := engine), None)
    case Some(m) => (b.(engine := engine, consumers := b.consumers[id := OnDeliver(b.consumers[id])]), Some(Item(id, m)))
  }

  /** The loop of try_reserve, with some rounds left. */
  function TryRounds(b: Broker, n: QName, now: Time, left: nat): (Broker, Option<Item>)
    requires n in b.engine.queues && b.engine.queues[n].consumerIds != []
    decreases left
  {
    if left == 0 then (b, None)
    else
      var q := b.engine.queues[n];
      var id := q.consumerIds[q.rrIndex % |q.consumerIds|];
      var b1 := Advance(b, n);
      if !Eligible(b, id) then TryRounds(b1, n, now, left - 1) else Serve(b1, n, id, now)
  }

  function TryReserve(b: Broker, n: QName, now: Time): (Broker, Option<Item>) {
    if n !in b.engine.queues || b.engine.queues[n].consumerIds == [] then (b, None)
    else TryRounds(b, n, now, |b.engine.queues[n].consumerIds|)
  }

  function ReadyCount(b: Broker, n: QName): nat {
    if n in b.engine.queues then |b.engine.queues[n].ready| else 0
  }

  // ----- what one attempt does -----

  /** The consumer that is asked in a round. */
  function Asked(b: Broker, n: QName, round: nat): ConsumerId
    requires n in b.engine.queues && b.engine.queues[n].consumerIds != []
  {
    var q := b.engine.queues[n];
    q.consumerIds[(q.rrIndex + round) % |q.consumerIds|]
  }

  /** How many of the rounds from one on ask consumers that are not eligible, before one is. */
  function Skips(b: Broker, n: QName, from: nat, left: nat): (k: nat)
    requires n in b.engine.queues && b.engine.queues[n].consumerIds != []
    ensures k <= left
    ensures forall j :: from <= j < from + k ==> !Eligible(b, Asked(b, n, j))
    ensures k < left ==> Eligible(b, Asked(b, n, from + k))
    decreases left
  {
    if left == 0 || Eligible(b, Asked(b, n, from)) then 0 else 1 + Skips(b, n, from + 1, left - 1)
  }

  /** The index moved on by some rounds. */
  function Rotated(b: Broker, n: QName, rounds: nat): Broker
    requires n in b.engine.queues
  {
    b.(engine := SetQueue(b.engine, n, b.engine.queues[n].(rrIndex := b.engine.queues[n].rrIndex + rounds)))
  }

  lemma RotatedNext(b: Broker, n: QName, rounds: nat)
    requires n in b.engine.queues
    ensures Rotated(b, n, 0) == b && Advance(Rotated(b, n, rounds), n) == Rotated(b, n, rounds + 1)
  {
    var q := b.engine.queues[n];
    assert b.engine.queues[n := q] == b.engine.queues;
    assert b.engine.queues[n := q.(rrIndex := q.rrIndex + rounds)][n := q.(rrIndex := q.rrIndex + rounds + 1)]
        == b.engine.queues[n := q.(rrIndex := q.rrIndex + rounds + 1)];
  }

  lemma RotatedAsks(b: Broker, n: QName, rounds: nat)
    requires n in b.engine.queues && b.engine.queues[n].consumerIds != []
    ensures Asked(Rotated(b, n, rounds), n, 0) == Asked(b, n, rounds)
    ensures forall id :: Eligible(Rotated(b, n, rounds), id) == Eligible(b, id)
  {
  }

  /** The rounds skip the consumers that are not eligible and serve the next one in turn. */
  lemma {:induction false} RoundsServe(b: Broker, n: QName, now: Time, done: nat, left: nat)
    requires n in b.engine.queues && b.engine.queues[n].consumerIds != []
    ensures
      var k := Skips(b, n, done, left);
      TryRounds(Rotated(b, n, done), n, now, left) ==
      if k == left then (Rotated(b, n, done + left), None)
      else Serve(Rotated(b, n, done + k + 1), n, Asked(b, n, done + k), now)
    decreases left
  {
    hide Serve, Eligible;
    RotatedNext(b, n, done);
    RotatedAsks(b, n, done);
    if left > 0 && !Eligible(b, Asked(b, n, done)) {
      RoundsServe(b, n, now, done + 1, left - 1);
    }
  }

  /** Every listed consumer is asked within one turn of the list. */
  lemma OneTurn(b: Broker, n: QName, i: nat) returns (j: nat)
    requires n in b.engine.queues && i < |b.engine.queues[n].consumerIds|
    ensures j < |b.engine.queues[n].consumerIds| && Asked(b, n, j) == b.engine.queues[n].consumerIds[i]
  {
    var len := |b.engine.queues[n].consumerIds|;
    var r := b.engine.queues[n].rrIndex % len;
    j := if i >= r then i - r else i - r + len;
    ModShift(b.engine.queues[n].rrIndex, j, len, i);
  }

  lemma ModShift(a: nat, j: nat, len: nat, i: nat)
    requires 0 < len && i < len && (a % len + j == i || a % len + j == i + len)
    ensures (a + j) % len == i
  {
    var k := a / len;
    assert a + j == len * k + (a % len + j);
    if a % len + j == i {
      ModUnique(a + j, len, k, i);
    } else {
      assert a + j == len * (k + 1) + i;
      ModUnique(a + j, len, k + 1, i);
    }
  }

  lemma MulMonotone(len: nat, a: nat, b: nat)
    requires a <= b
    ensures len * a <= len * b
  {
  }

  lemma ModUnique(x: nat, len: nat, k: nat, i: nat)
    requires 0 < len && i < len && x == len * k + i
    ensures x % len == i && x / len == k
  {
    var q := x / len;
    if q < k {
      MulMonotone(len, q + 1, k);
      assert false;
    } else if q > k {
      MulMonotone(len, k + 1, q);
      assert false;
    }
  }
}
