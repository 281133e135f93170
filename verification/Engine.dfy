/** The durable queue engine as a function of its state. Every function here is the meaning of the
    method of the same name of class QueueEngine; "now" is what the clock returns during the call. */
module Engine {
  import opened Types
  import opened DlqNames
  import opened Heaps
  import opened Backoffs
  import opened Journal

  datatype Config = Config(
    visibilityTimeout: Time,
    maxAttempts: int,
    maxLength: Option<int>,
    backoff: Backoff,
    baseDelay: Time,
    recentAckLimit: nat)

  datatype Spec = Spec(
    name: QName,
    durable: bool,
    maxLength: Option<int>,
    visibilityTimeout: Time,
    maxAttempts: int,
    deadLetter: bool)

  datatype Stats = Stats(published: int, delivered: int, acked: int, nacked: int, retried: int, dead: int)

  datatype Queue = Queue(
    spec: Spec,
    ready: seq<Entry<Id>>,
    delayedIds: set<Id>,
    inflight: map<Id, Delivery>,
    dlqIds: seq<Id>,
    messages: map<Id, Message>,
    stats: Stats,
    consumerIds: seq<ConsumerId>,
    rrIndex: nat)

  /** The engine's fields; the journal is the list of everything appended so far. */
  datatype State = State(
    cfg: Config,
    queues: map<QName, Queue>,
    byId: map<Id, QName>,
    recentAcks: seq<Id>,
    lastOrd: nat,
    visibility: seq<Entry<Addr>>,
    delayed: seq<Entry<Addr>>,
    journal: seq<Rec>)

  datatype EnqueueResult = EnqueueOk | QueueFull | EnqueueNotFound
  datatype AckResult = AckOk | AckNotFound | AlreadyAcked
  datatype NackResult = NackOk | NackNotFound | UnknownDelivery

  function Init(cfg: Config): State {
    State(cfg, map[], map[], [], 0, [], [], [])
  }

  function Log(s: State, meta: Meta, payload: Bytes, persist: bool): State {
    s.(journal := if persist then s.journal + [Rec(meta, payload)] else s.journal)
  }

  function SetQueue(s: State, n: QName, q: Queue): State {
    s.(queues := s.queues[n := q])
  }

  function Depth(q: Queue): nat {
    |q.ready| + |q.inflight| + |q.delayedIds|
  }

  function ReadyEntry(m: Message, ord: nat): Entry<Id> {
    Entry(-m.priority, ord, m.id)
  }

  // ----- declaring and deleting -----

  datatype DeclareArgs = DeclareArgs(
    durable: bool,
    maxLength: Option<int>,
    visibilityTimeout: Option<Time>,
    maxAttempts: Option<int>,
    deadLetter: bool)

  const DEFAULT_ARGS := DeclareArgs(true, None, None, None, true)

  function MakeSpec(cfg: Config, n: QName, a: DeclareArgs): Spec {
    Spec(n, a.durable,
         if a.maxLength.Some? then a.maxLength else cfg.maxLength,
         if a.visibilityTimeout.Some? then a.visibilityTimeout.value else cfg.visibilityTimeout,
         if a.maxAttempts.Some? then a.maxAttempts.value else cfg.maxAttempts,
         a.deadLetter && !IsDlq(n))
  }

  function NewQueue(spec: Spec): Queue {
    Queue(spec, [], {}, map[], [], map[], Stats(0, 0, 0, 0, 0, 0), [], 0)
  }

  function DeclareMeta(spec: Spec): Meta {
    QueueDeclare(spec.name, spec.durable, spec.maxLength, spec.visibilityTimeout, spec.maxAttempts, spec.deadLetter)
  }

  function DlqArgs(spec: Spec): DeclareArgs {
    DeclareArgs(true, None, Some(spec.visibilityTimeout), Some(1), false)
  }

  function Declare(s: State, n: QName, a: DeclareArgs, persist: bool): State
    decreases if IsDlq(n) then 0 else 1
  {
    if n in s.queues then s
    else
      var spec := MakeSpec(s.cfg, n, a);
      var s1 := SetQueue(s, n, NewQueue(spec));
      var s2 := if spec.deadLetter then Declare(s1, DlqName(n), DlqArgs(spec), persist) else s1;
      Log(s2, DeclareMeta(spec), [], persist)
  }

  function Delete(s: State, n: QName, persist: bool): (State, bool)
    decreases |s.queues|
  {
    if n !in s.queues then (s, false)
    else
      var q := s.queues[n];
      var s1 := s.(queues := s.queues - {n}, byId := s.byId - q.messages.Keys);
      assert s.queues.Keys == s1.queues.Keys + {n};
      var s2 := Log(s1, QueueDelete(n), [], persist);
      if q.spec.deadLetter then (Delete(s2, DlqName(n), persist).0, true) else (s2, true)
  }

  // ----- messages coming in and going out -----

  predicate Later(m: Message, now: Time) {
    m.availableAt.Some? && m.availableAt.value > now
  }

  predicate Full(q: Queue) {
    q.spec.maxLength.Some? && Depth(q) >= q.spec.maxLength.value
  }

  /** The message as it is stored: a due time that has passed is forgotten. */
  function Stored(m: Message, now: Time): Message {
    if Later(m, now) then m else m.(availableAt := None)
  }

  function Admit(q: Queue, m: Message, now: Time, ord: nat): Queue {
    q.(messages := q.messages[m.id := Stored(m, now)],
       delayedIds := if Later(m, now) then q.delayedIds + {m.id} else q.delayedIds,
       ready := if Later(m, now) then q.ready else Push(q.ready, ReadyEntry(m, ord)),
       stats := q.stats.(published := q.stats.published + 1))
  }

  function Enqueue(s: State, m: Message, now: Time, persist: bool): (State, EnqueueResult) {
    if m.queue !in s.queues then (s, EnqueueNotFound)
    else if Full(s.queues[m.queue]) then (s, QueueFull)
    else
      var ord := s.lastOrd + 1;
      var s1 := SetQueue(s, m.queue, Admit(s.queues[m.queue], m, now, ord)).(
        byId := s.byId[m.id := m.queue],
        lastOrd := ord,
        delayed := if Later(m, now) then Push(s.delayed, Entry(m.availableAt.value, ord, Addr(m.queue, m.id)))
                   else s.delayed);
      (Log(s1, PublishRec(Stored(m, now)).meta, m.payload, persist), EnqueueOk)
  }

  function PopReady(q: Queue): Queue
    requires q.ready != []
  {
    q.(ready := q.ready[1..])
  }

  function Deliver(q: Queue, d: Delivery): Queue {
    q.(inflight := q.inflight[d.id := d], stats := q.stats.(delivered := q.stats.delivered + 1))
  }

  /** A ready entry whose message is gone or is not ready any more. */
  predicate Stale(q: Queue, id: Id) {
    id !in q.messages || id in q.inflight || id in q.delayedIds
  }

  function Reserve(s: State, n: QName, c: ConsumerId, now: Time): (State, Option<Message>)
    decreases if n in s.queues then |s.queues[n].ready| else 0
  {
    if n !in s.queues || s.queues[n].ready == [] then (s, None)
    else
      var q := PopReady(s.queues[n]);
      var id := s.queues[n].ready[0].item;
      if Stale(q, id) then Reserve(SetQueue(s, n, q), n, c, now)
      else
        var d := Delivery(id, n, c, now, now + q.spec.visibilityTimeout);
        var ord := s.lastOrd + 1;
        (SetQueue(s, n, Deliver(q, d)).(
           lastOrd := ord,
           visibility := Push(s.visibility, Entry(d.deadline, ord, Addr(n, id)))),
         Some(q.messages[id]))
  }

  /** Whether the index leads to a delivery of this message. */
  predicate InFlight(s: State, id: Id) {
    id in s.byId && s.byId[id] in s.queues && id in s.queues[s.byId[id]].inflight
  }

  function InflightConsumer(s: State, id: Id): Option<ConsumerId> {
    if InFlight(s, id) then Some(s.queues[s.byId[id]].inflight[id].consumer) else None
  }

  /** _remember_ack: the oldest ids go first. */
  function Trim(acks: seq<Id>, limit: nat): seq<Id> {
    if |acks| > limit then Trim(acks[1..], limit) else acks
  }

  function Discharge(q: Queue, id: Id): Queue {
    q.(inflight := q.inflight - {id}, messages := q.messages - {id}, stats := q.stats.(acked := q.stats.acked + 1))
  }

  function Ack(s: State, id: Id, persist: bool): (State, AckResult) {
    if id in s.recentAcks then (s, AlreadyAcked)
    else if !InFlight(s, id) then (s, AckNotFound)
    else
      var n := s.byId[id];
      var s1 := SetQueue(s, n, Discharge(s.queues[n], id)).(
        byId := s.byId - {id},
        recentAcks := Trim(s.recentAcks + [id], s.cfg.recentAckLimit));
      (Log(s1, MessageAck(id, n), [], persist), AckOk)
  }

  // ----- retry and dead-lettering -----

  function TakeBack(q: Queue, id: Id): Queue {
    q.(inflight := q.inflight - {id})
  }

  function Bury(q: Queue, id: Id): Queue {
    q.(messages := q.messages - {id}, stats := q.stats.(dead := q.stats.dead + 1))
  }

  /** A dead message arriving in its dead-letter queue. */
  function Inter(d: Queue, m: Message, ord: nat): Queue {
    d.(messages := d.messages[m.id := m],
       ready := Push(d.ready, ReadyEntry(m, ord)),
       dlqIds := d.dlqIds + [m.id],
       stats := d.stats.(published := d.stats.published + 1))
  }

  function DeadMessage(m: Message, n: QName): Message {
    m.(queue := DlqName(n), availableAt := None)
  }

  /** The part of _move_to_dlq that takes the message out of its queue. */
  function Remove(s: State, n: QName, m: Message, persist: bool): State
    requires n in s.queues
  {
    Log(SetQueue(s, n, Bury(s.queues[n], m.id)).(byId := s.byId - {m.id}),
        MessageDead(m.id, n, m.attempts), m.payload, persist)
  }

  /** The part of _move_to_dlq that puts the message into the dead-letter queue. */
  function Lay(s: State, m: Message): State
    requires m.queue in s.queues
  {
    SetQueue(s, m.queue, Inter(s.queues[m.queue], m, s.lastOrd + 1)).(
      byId := s.byId[m.id := m.queue],
      lastOrd := s.lastOrd + 1)
  }

  /** _move_to_dlq, on a message whose attempts were already counted. */
  function MoveToDlq(s: State, n: QName, m: Message, persist: bool): State
    requires n in s.queues
  {
    var s1 := Remove(s, n, m, persist);
    if !s.queues[n].spec.deadLetter then s1
    else Lay(Declare(s1, DlqName(n), DEFAULT_ARGS.(deadLetter := false), false), DeadMessage(m, n))
  }

  function Postpone(q: Queue, m: Message): Queue {
    q.(messages := q.messages[m.id := m],
       delayedIds := q.delayedIds + {m.id},
       stats := q.stats.(retried := q.stats.retried + 1))
  }

  function Retry(s: State, n: QName, m: Message, at: Time, persist: bool): State
    requires n in s.queues
  {
    var ord := s.lastOrd + 1;
    var s1 := SetQueue(s, n, Postpone(s.queues[n], m.(availableAt := Some(at)))).(
      lastOrd := ord,
      delayed := Push(s.delayed, Entry(at, ord, Addr(n, m.id))));
    Log(s1, MessageRetry(m.id, n, at, m.attempts), [], persist)
  }

  function RetryOrDead(s: State, n: QName, m: Message, now: Time, persist: bool): State
    requires n in s.queues
  {
    var m1 := m.(attempts := m.attempts + 1);
    if m1.attempts >= m1.maxAttempts then MoveToDlq(s, n, m1, persist)
    else Retry(s, n, m1, now + RetryDelay(m1.attempts, s.cfg.backoff, s.cfg.baseDelay), persist)
  }

  function CountNack(q: Queue): Queue {
    q.(stats := q.stats.(nacked := q.stats.nacked + 1))
  }

  function Nack(s: State, id: Id, requeue: bool, now: Time, persist: bool): (State, NackResult) {
    if id !in s.byId then (s, if id in s.recentAcks then NackNotFound else UnknownDelivery)
    else if s.byId[id] !in s.queues then (s, NackNotFound)
    else if !InFlight(s, id) then (s, UnknownDelivery)
    else
      var n := s.byId[id];
      var q := TakeBack(s.queues[n], id);
      if id !in q.messages then (SetQueue(s, n, q), NackNotFound)
      else
        var s1 := Log(SetQueue(s, n, CountNack(q)), MessageNack(id, n, requeue), [], persist);
        (if requeue then RetryOrDead(s1, n, q.messages[id], now, persist)
         else MoveToDlq(s1, n, q.messages[id], persist),
         NackOk)
  }

  /** Takes one delivery back: the common step of recover_consumer and _timeout_inflight. */
  function Expire(s: State, n: QName, id: Id, now: Time, persist: bool): State
    requires n in s.queues
  {
    var q := TakeBack(s.queues[n], id);
    if id in q.messages then RetryOrDead(SetQueue(s, n, q), n, q.messages[id], now, persist) else SetQueue(s, n, q)
  }

  lemma DeclareKeepsQueues(s: State, n: QName, a: DeclareArgs, persist: bool)
    ensures s.queues.Keys <= Declare(s, n, a, persist).queues.Keys
    ensures n in Declare(s, n, a, persist).queues
    decreases if IsDlq(n) then 0 else 1
  {
  }

  lemma MoveKeepsQueues(s: State, n: QName, m: Message, persist: bool)
    requires n in s.queues
    ensures s.queues.Keys <= MoveToDlq(s, n, m, persist).queues.Keys
  {
    hide Push, Declare, IsDlq;
    DeclareKeepsQueues(Remove(s, n, m, persist), DlqName(n), DEFAULT_ARGS.(deadLetter := false), false);
  }

  lemma ExpireKeepsQueues(s: State, n: QName, id: Id, now: Time, persist: bool)
    requires n in s.queues
    ensures s.queues.Keys <= Expire(s, n, id, now, persist).queues.Keys
  {
    hide Push, MoveToDlq, RetryDelay;
    var q := TakeBack(s.queues[n], id);
    if id in q.messages {
      var m := q.messages[id];
      MoveKeepsQueues(SetQueue(s, n, q), n, m.(attempts := m.attempts + 1), persist);
    }
  }

  /** recover_consumer, for the deliveries in the order in which the dictionaries list them. */
  function Recover(s: State, todo: seq<Addr>, now: Time, persist: bool): State
    requires forall a :: a in todo ==> a.queue in s.queues
    decreases |todo|
  {
    if todo == [] then s
    else
      ExpireKeepsQueues(s, todo[0].queue, todo[0].id, now, persist);
      Recover(Expire(s, todo[0].queue, todo[0].id, now, persist), todo[1..], now, persist)
  }

  /** The number that recover_consumer returns: the deliveries whose message was found. */
  function RecoverCount(s: State, todo: seq<Addr>, now: Time, persist: bool): nat
    requires forall a :: a in todo ==> a.queue in s.queues
    decreases |todo|
  {
    if todo == [] then 0
    else
      ExpireKeepsQueues(s, todo[0].queue, todo[0].id, now, persist);
      (if todo[0].id in s.queues[todo[0].queue].messages then 1 else 0)
      + RecoverCount(Expire(s, todo[0].queue, todo[0].id, now, persist), todo[1..], now, persist)
  }

  // ----- time -----

  /** The loop of DelayedHeap.pop_due; the engine's filter accepts every id. */
  function PopDue(h: seq<Entry<Addr>>, now: Time): (seq<Addr>, seq<Entry<Addr>>) {
    if h == [] || h[0].key > now then ([], h)
    else
      var (due, rest) := PopDue(h[1..], now);
      ([h[0].item] + due, rest)
  }

  function Undelay(q: Queue, id: Id): Queue {
    q.(delayedIds := q.delayedIds - {id})
  }

  function Mature(q: Queue, m: Message, ord: nat): Queue {
    q.(messages := q.messages[m.id := m], ready := Push(q.ready, ReadyEntry(m, ord)))
  }

  function ReleaseOne(s: State, a: Addr): State {
    if a.queue !in s.queues || a.id !in s.queues[a.queue].delayedIds then s
    else
      var q := Undelay(s.queues[a.queue], a.id);
      if a.id !in q.messages || a.id in q.inflight then SetQueue(s, a.queue, q)
      else
        var m := q.messages[a.id].(availableAt := None);
        SetQueue(s, a.queue, Mature(q, m, s.lastOrd + 1)).(lastOrd := s.lastOrd + 1)
  }

  function ReleaseAll(s: State, due: seq<Addr>): State
    decreases |due|
  {
    if due == [] then s else ReleaseAll(ReleaseOne(s, due[0]), due[1..])
  }

  /** The number of messages that the loop makes ready. */
  function ReleaseCount(s: State, due: seq<Addr>): nat
    decreases |due|
  {
    if due == [] then 0
    else (if Releasable(s, due[0]) then 1 else 0) + ReleaseCount(ReleaseOne(s, due[0]), due[1..])
  }

  /** A popped message that is still there and still delayed. */
  predicate Releasable(s: State, a: Addr) {
    && a.queue in s.queues && a.id in s.queues[a.queue].delayedIds
    && a.id in s.queues[a.queue].messages && a.id !in s.queues[a.queue].inflight
  }

  function ReleaseDelayed(s: State, ts: Time): State {
    var (due, rest) := PopDue(s.delayed, ts);
    ReleaseAll(s.(delayed := rest), due)
  }

  /** Whether a popped visibility entry still describes the current delivery. */
  predicate Current(s: State, e: Entry<Addr>) {
    && e.item.queue in s.queues
    && e.item.id in s.queues[e.item.queue].inflight
    && s.queues[e.item.queue].inflight[e.item.id].deadline == e.key
  }

  function TimeoutOne(s: State, e: Entry<Addr>, now: Time): State {
    if Current(s, e) then Expire(s, e.item.queue, e.item.id, now, true) else s
  }

  lemma TimeoutKeepsHeap(s: State, e: Entry<Addr>, now: Time)
    ensures TimeoutOne(s, e, now).visibility == s.visibility
  {
  }

  function TimeoutInflight(s: State, ts: Time, now: Time): State
    decreases |s.visibility|
  {
    if s.visibility == [] || s.visibility[0].key > ts then s
    else
      var e := s.visibility[0];
      TimeoutKeepsHeap(s.(visibility := s.visibility[1..]), e, now);
      TimeoutInflight(TimeoutOne(s.(visibility := s.visibility[1..]), e, now), ts, now)
  }

  /** The number of deliveries that the loop takes back. */
  function TimeoutCount(s: State, ts: Time, now: Time): nat
    decreases |s.visibility|
  {
    if s.visibility == [] || s.visibility[0].key > ts then 0
    else
      var e := s.visibility[0];
      var s1 := s.(visibility := s.visibility[1..]);
      TimeoutKeepsHeap(s1, e, now);
      (if Current(s1, e) && e.item.id in s1.queues[e.item.queue].messages then 1 else 0)
      + TimeoutCount(TimeoutOne(s1, e, now), ts, now)
  }

  /** The number that tick returns. */
  function TickCount(s: State, ts: Time, now: Time): nat {
    var (due, rest) := PopDue(s.delayed, ts);
    ReleaseCount(s.(delayed := rest), due) + TimeoutCount(ReleaseDelayed(s, ts), ts, now)
  }

  function Tick(s: State, ts: Time, now: Time): State {
    TimeoutInflight(ReleaseDelayed(s, ts), ts, now)
  }

  // ----- dead letters going back -----

  function Without(ids: seq<Id>, id: Id): seq<Id> {
    if ids == [] then []
    else (if ids[0] == id then [] else [ids[0]]) + Without(ids[1..], id)
  }

  function Withdraw(d: Queue, id: Id): Queue {
    d.(messages := d.messages - {id}, ready := Drop(d.ready, id), dlqIds := Without(d.dlqIds, id))
  }

  function Revived(m: Message, origin: QName): Message {
    m.(queue := origin, attempts := 0, availableAt := None)
  }

  function DlqRequeue(s: State, n: QName, id: Id, now: Time, persist: bool): (State, bool) {
    var origin := OriginQueue(n);
    var dn := DlqName(origin);
    if dn !in s.queues || origin !in s.queues || id !in s.queues[dn].messages then (s, false)
    else
      var m := Revived(s.queues[dn].messages[id], origin);
      var s1 := SetQueue(s, dn, Withdraw(s.queues[dn], id)).(byId := s.byId - {id});
      var (s2, r) := Enqueue(s1, m, now, false);
      if r == EnqueueOk then
        (Log(s2, MessageRequeue(id, dn, origin), [], persist), true)
      else
        (SetQueue(s2, dn, Mature(s2.queues[dn], m.(queue := dn), s2.lastOrd + 1)).(
           byId := s2.byId[id := dn],
           lastOrd := s2.lastOrd + 1),
         false)
  }
}
