/** Whole runs of the engine: any operations, in any order, at any positive clock readings. */
module Runs {
  import opened Types
  import opened DlqNames
  import opened Heaps
  import opened Backoffs
  import opened Engine
  import opened Index
  import opened Invariant
  import opened InvariantOps
  import opened Places
  import opened Ticks
  import opened Requeue

  datatype Op =
    | DoDeclare(name: QName, args: DeclareArgs)
    | DoDelete(name: QName)
    | DoPublish(message: Message)
    | DoReserve(queue: QName, consumer: ConsumerId)
    | DoAck(id: Id)
    | DoNack(id: Id, requeue: bool)
    | DoRecover(consumer: ConsumerId, todo: seq<Addr>)
    | DoTick(ts: Time)
    | DoRequeue(name: QName, id: Id)

  datatype Event = Event(op: Op, now: Time)

  predicate HeldBy(s: State, n: QName, id: Id, c: ConsumerId) {
    n in s.queues && id in s.queues[n].inflight && s.queues[n].inflight[id].consumer == c
  }

  /** Deliveries of one consumer, none of them twice. */
  ghost predicate DeliveriesIn(s: State, c: ConsumerId, todo: seq<Addr>) {
    && (forall a :: a in todo ==> HeldBy(s, a.queue, a.id, c))
    && (forall i, j :: 0 <= i < j < |todo| ==> todo[i] != todo[j])
  }

  /** All the deliveries of one consumer, each once, in some order. */
  ghost predicate DeliveriesOf(s: State, c: ConsumerId, todo: seq<Addr>) {
    DeliveriesIn(s, c, todo) && forall a: Addr :: HeldBy(s, a.queue, a.id, c) ==> a in todo
  }

  /** The deliveries of one consumer, each once, except those in the queues that were not visited. */
  ghost predicate DeliveriesBut(s: State, c: ConsumerId, todo: seq<Addr>, left: set<QName>) {
    DeliveriesIn(s, c, todo) && forall a: Addr :: HeldBy(s, a.queue, a.id, c) ==> (a in todo <==> a.queue !in left)
  }

  /** Taking the deliveries back makes the queue map grow, which the loop over the queues answers with an error. */
  predicate Grows(s: State, todo: seq<Addr>, now: Time, persist: bool) {
    (forall a :: a in todo ==> a.queue in s.queues) && Recover(s, todo, now, persist).queues.Keys != s.queues.Keys
  }

  ghost predicate OneQueue(todo: seq<Addr>) {
    forall i, j :: 0 <= i < j < |todo| ==> todo[i].queue == todo[j].queue
  }

  /** If the deliveries taken back make the queue map grow, those of the last queue visited do. */
  ghost predicate GrownByLast(s: State, todo: seq<Addr>, now: Time, persist: bool) {
    exists k: nat :: k <= |todo| && !Grows(s, todo[..k], now, persist) && OneQueue(todo[k..])
  }

  /** What recover_consumer takes back: every delivery of the consumer, unless the queue map grows; then every
      delivery in the queues visited until then. */
  ghost predicate TakenBack(s: State, c: ConsumerId, todo: seq<Addr>, left: set<QName>, now: Time, persist: bool) {
    && (forall a :: a in todo ==> a.queue in s.queues)
    && DeliveriesBut(s, c, todo, left) && GrownByLast(s, todo, now, persist) && (Grows(s, todo, now, persist) || left == {})
  }

  /** recover_consumer iterates over the queue map and raises an error when a dead-letter queue has to be
      created meanwhile; with these in place it does not. */
  predicate DlqsPresent(s: State) {
    forall n :: n in s.queues && s.queues[n].spec.deadLetter ==> DlqName(n) in s.queues
  }

  /** What the source itself needs: the deliveries to recover were found in the queue map. */
  predicate Callable(s: State, op: Op) {
    op.DoRecover? ==> forall a :: a in op.todo ==> a.queue in s.queues
  }

  ghost predicate Allowed(s: State, ev: Event) {
    && ev.now > 0 && Callable(s, ev.op)
    && match ev.op
       case DoPublish(m) => Fresh(s, m.id)
       case DoRecover(c, todo) => DeliveriesIn(s, c, todo)
       case DoRequeue(n, id) => Found(s, n, id) ==> id in Items(s.queues[DlqName(OriginQueue(n))].ready)
       case _ => true
  }

  lemma AllowedCallable(s: State, ev: Event)
    requires Allowed(s, ev)
    ensures Callable(s, ev.op)
  {
  }

  lemma TakenFacts(s: State, c: ConsumerId, todo: seq<Addr>, left: set<QName>, now: Time,
                   persist: bool)
    requires TakenBack(s, c, todo, left, now, persist)
    ensures (forall a :: a in todo ==> a.queue in s.queues) && DeliveriesBut(s, c, todo, left) && DeliveriesIn(s, c, todo)
    ensures !Grows(s, todo, now, persist) ==> left == {} && DeliveriesOf(s, c, todo)
  {
    hide Grows, GrownByLast, HeldBy;
  }

  lemma AllowedTodo(s: State, c: ConsumerId, todo: seq<Addr>)
    requires DeliveriesIn(s, c, todo)
    ensures AllInflight(s, todo)
    ensures forall a :: a in todo ==> a.queue in s.queues
  {
    assert forall a :: a in todo ==> HeldBy(s, a.queue, a.id, c);
  }

  function Step(s: State, ev: Event): State
    requires Callable(s, ev.op)
  {
    match ev.op
    case DoDeclare(n, a) => Declare(s, n, a, true)
    case DoDelete(n) => Delete(s, n, true).0
    case DoPublish(m) => Enqueue(s, m, ev.now, true).0
    case DoReserve(n, c) => Reserve(s, n, c, ev.now).0
    case DoAck(id) => Ack(s, id, true).0
    case DoNack(id, requeue) => Nack(s, id, requeue, ev.now, true).0
    case DoRecover(c, todo) => Recover(s, todo, ev.now, true)
    case DoTick(ts) => Tick(s, ts, ev.now)
    case DoRequeue(n, id) => DlqRequeue(s, n, id, ev.now, true).0
  }

  /** Where a message goes when a delivery of it is refused without requeueing. */
  function Killed(s: State, p: Place): Place {
    if p.InflightIn? && p.queue in s.queues then AfterDeath(s.queues[p.queue].spec.deadLetter, p.queue, p.message) else p
  }

  function Arrived(m: Message, now: Time): Place {
    if m.availableAt.Some? && m.availableAt.value > now then DelayedIn(m.queue, m)
    else ReadyIn(m.queue, m.(availableAt := None))
  }

  function Revival(p: Place, n: QName): Place {
    if p == Gone then Gone else ReadyIn(n, p.message.(queue := n, attempts := 0, availableAt := None))
  }

  /** The place of message id after an event, from its place before. */
  function Next(s: State, ev: Event, id: Id): Place {
    var p := PlaceOf(s, id);
    match ev.op
    case DoDeclare(_, _) => p
    case DoDelete(n) => if p != Gone && Deleted(s, n, p.queue) then Gone else p
    case DoPublish(m) => if m.id == id && Enqueue(s, m, ev.now, true).1 == EnqueueOk then Arrived(m, ev.now) else p
    case DoReserve(n, c) =>
      if Reserve(s, n, c, ev.now).1 == None || Reserve(s, n, c, ev.now).1.value.id != id || n !in s.queues then p
      else InflightIn(n, Reserve(s, n, c, ev.now).1.value,
                      Delivery(id, n, c, ev.now, ev.now + s.queues[n].spec.visibilityTimeout))
    case DoAck(x) => if x == id && p.InflightIn? && id !in s.recentAcks then Gone else p
    case DoNack(x, requeue) => if x != id then p else if requeue then Failed(s, p, ev.now) else Killed(s, p)
    case DoRecover(_, todo) => if Listed(todo, id) then Failed(s, p, ev.now) else p
    case DoTick(ts) => Ticked(s, p, ts, ev.now)
    case DoRequeue(n, x) =>
      if x != id || !Found(s, n, x) then p
      else Revival(p, if DlqRequeue(s, n, x, ev.now, true).1 then OriginQueue(n) else DlqName(OriginQueue(n)))
  }

  lemma StepInv(s: State, ev: Event)
    requires Inv(s) && Allowed(s, ev) && s.cfg.baseDelay >= 0
    ensures Inv(Step(s, ev))
  {
    hide Inv, Fresh, Items, Found, DeliveriesIn, AllInflight;
    match ev.op
    case DoDeclare(n, a) => DeclareInv(s, n, a, true);
    case DoDelete(n) => DeleteInv(s, n, true);
    case DoPublish(m) => EnqueueInv(s, m, ev.now, true);
    case DoReserve(n, c) => ReserveInv(s, n, c, ev.now);
    case DoAck(id) => AckInv(s, id, true);
    case DoNack(id, requeue) => NackInv(s, id, requeue, ev.now, true);
    case DoRecover(c, todo) =>
      AllowedTodo(s, c, todo);
      RecoverInv(s, todo, ev.now, true);
    case DoTick(ts) => TickIsScan(s, ts, ev.now);
    case DoRequeue(n, id) => RequeueStep(s, n, id, ev.now);
  }

  lemma RequeueStep(s: State, n: QName, id: Id, now: Time)
    requires Inv(s) && now > 0
    requires Found(s, n, id) ==> id in Items(s.queues[DlqName(OriginQueue(n))].ready)
    ensures Inv(DlqRequeue(s, n, id, now, true).0)
  {
    hide PartsOk, HeapsOk, TablesAgree, Items, Found, DlqRequeue;
    RequeueForm(s, n, id, now, true);
    if Found(s, n, id) {
      RequeueInv(s, n, id, now, true);
    }
  }

  lemma PublishMoves(s: State, m: Message, now: Time, id: Id)
    requires Inv(s) && Fresh(s, m.id)
    ensures PlaceOf(Enqueue(s, m, now, true).0, id) ==
            if m.id == id && Enqueue(s, m, now, true).1 == EnqueueOk then Arrived(m, now) else PlaceOf(s, id)
  {
    hide Inv, Fresh, PlaceOf, Enqueue;
    EnqueueAnswer(s, m, now, true);
    if Enqueue(s, m, now, true).1 == EnqueueOk {
      EnqueuePlace(s, m, now, true);
    }
  }

  lemma NackMoves(s: State, x: Id, requeue: bool, now: Time, id: Id)
    requires Inv(s)
    ensures
      var p := PlaceOf(s, id);
      PlaceOf(Nack(s, x, requeue, now, true).0, id) ==
      if x != id then p else if requeue then Failed(s, p, now) else Killed(s, p)
  {
    hide Inv, PlaceOf, Nack, AfterFailure, AfterDeath;
    NackPlace(s, x, requeue, now, true);
  }

  lemma RecoverMoves(s: State, c: ConsumerId, todo: seq<Addr>, now: Time, id: Id)
    requires Inv(s) && DeliveriesIn(s, c, todo) && now > 0 && s.cfg.baseDelay >= 0
    requires forall a :: a in todo ==> a.queue in s.queues
    ensures
      var p := PlaceOf(s, id);
      PlaceOf(Recover(s, todo, now, true), id) == if Listed(todo, id) then Failed(s, p, now) else p
  {
    hide Inv, PlaceOf, Recover, AllInflight, DeliveriesIn, AfterFailure;
    AllowedTodo(s, c, todo);
    RecoverPlace(s, todo, now, true, id);
  }

  lemma RequeueMoves(s: State, n: QName, x: Id, now: Time, id: Id)
    requires Inv(s)
    requires Found(s, n, x) ==> x in Items(s.queues[DlqName(OriginQueue(n))].ready)
    ensures
      var p := PlaceOf(s, id);
      var (s', ok) := DlqRequeue(s, n, x, now, true);
      PlaceOf(s', id) ==
      if x != id || !Found(s, n, x) then p else Revival(p, if ok then OriginQueue(n) else DlqName(OriginQueue(n)))
  {
    hide PartsOk, HeapsOk, TablesAgree, Items, Found, DlqRequeue, PlaceOf;
    RequeueForm(s, n, x, now, true);
    if Found(s, n, x) {
      RequeuePlace(s, n, x, now, true);
    }
  }

  /** The transition system: an event moves each message, however many there are, from its place to the
      one place that the event and the message's own record determine. */
  lemma StepMoves(s: State, ev: Event, id: Id)
    requires Inv(s) && Allowed(s, ev) && s.cfg.baseDelay >= 0
    ensures PlaceOf(Step(s, ev), id) == Next(s, ev, id)
  {
    hide Inv, Fresh, Items, Found, DeliveriesIn, AllInflight, PlaceOf, Failed, Killed, Ticked, Arrived,
      Revival,
      Declare, Delete, Enqueue, Reserve, Ack, Nack, Recover, Tick, DlqRequeue, Deleted, Holds;
    match ev.op
    case DoDeclare(n, a) => DeclarePlaces(s, n, a, true);
    case DoDelete(n) =>
      InvIndex(s);
      DeletePlace(s, n, true);
    case DoPublish(m) => PublishMoves(s, m, ev.now, id);
    case DoReserve(n, c) => ReserveMoves(s, n, c, ev.now, id);
    case DoAck(x) => AckPlace(s, x, true);
    case DoNack(x, requeue) => NackMoves(s, x, requeue, ev.now, id);
    case DoRecover(c, todo) =>
      AllowedTodo(s, c, todo);
      RecoverMoves(s, c, todo, ev.now, id);
    case DoTick(ts) => TickIsScan(s, ts, ev.now);
    case DoRequeue(n, x) => RequeueMoves(s, n, x, ev.now, id);
  }

  lemma InvIndex(s: State)
    requires Inv(s)
    ensures IndexOk(s)
  {
  }

  lemma ReserveMoves(s: State, n: QName, c: ConsumerId, now: Time, id: Id)
    requires Inv(s)
    ensures
      var (s', r) := Reserve(s, n, c, now);
      PlaceOf(s', id) ==
      if r == None || r.value.id != id || n !in s.queues then PlaceOf(s, id)
      else InflightIn(n, r.value, Delivery(id, n, c, now, now + s.queues[n].spec.visibilityTimeout))
  {
    hide Inv, PlaceOf, Reserve, Items;
    ReservePlace(s, n, c, now);
    var r := Reserve(s, n, c, now).1;
    if r.Some? {
      PlaceQueue(s, r.value.id);
    }
  }

  // ----- specifications never change under a queue -----

  lemma RecoverSpecs(s: State, todo: seq<Addr>, now: Time, persist: bool)
    requires forall a :: a in todo ==> a.queue in s.queues
    ensures SameSpecs(s, Recover(s, todo, now, persist))
    decreases |todo|
  {
    hide Expire;
    if todo != [] {
      ExpireKeepsQueues(s, todo[0].queue, todo[0].id, now, persist);
      ExpireSpecs(s, todo[0].queue, todo[0].id, now, persist);
      RecoverSpecs(Expire(s, todo[0].queue, todo[0].id, now, persist), todo[1..], now, persist);
    }
  }

  lemma MoveToDlqCfg(s: State, n: QName, m: Message, persist: bool)
    requires n in s.queues
    ensures MoveToDlq(s, n, m, persist).cfg == s.cfg
  {
    hide Push, IsDlq, Declare;
    var s1 := Remove(s, n, m, persist);
    DeclareKeepsQueues(s1, DlqName(n), DEFAULT_ARGS.(deadLetter := false), false);
    DeclareCfg(s1, DlqName(n), DEFAULT_ARGS.(deadLetter := false), false);
  }

  lemma NackSpecs(s: State, id: Id, requeue: bool, now: Time, persist: bool)
    ensures SameSpecs(s, Nack(s, id, requeue, now, persist).0)
  {
    hide MoveToDlq, RetryDelay, IsDlq, Push;
    if InFlight(s, id) {
      var n := s.byId[id];
      var q := TakeBack(s.queues[n], id);
      if id in q.messages {
        var s1 := Log(SetQueue(s, n, CountNack(q)), Journal.MessageNack(id, n, requeue), [], persist);
        var m := q.messages[id];
        if requeue {
          RetryOrDeadFrame(s1, n, m, now, persist);
          MoveToDlqCfg(s1, n, m.(attempts := m.attempts + 1), persist);
          FrameSpecs(s, n, CountNack(q), RetryOrDead(s1, n, m, now, persist));
        } else {
          MoveToDlqFrame(s1, n, m, persist);
          MoveToDlqCfg(s1, n, m, persist);
          FrameSpecs(s, n, CountNack(q), MoveToDlq(s1, n, m, persist));
        }
      }
    }
  }

  lemma FrameSpecs(s: State, n: QName, q: Queue, s': State)
    requires n in s.queues && q.spec == s.queues[n].spec && s'.cfg == s.cfg
    requires SameFrame(s.queues[n := q], s'.queues)
    ensures SameSpecs(s, s')
  {
    var queues := s.queues[n := q];
    forall n' | n' in s.queues
      ensures n' in s'.queues && s'.queues[n'].spec == s.queues[n'].spec
    {
      assert n' in queues && KeepsFrame(queues[n'], s'.queues[n']);
    }
  }

  lemma DeleteCfg(s: State, n: QName, persist: bool)
    ensures Delete(s, n, persist).0.cfg == s.cfg
    decreases |s.queues|
  {
    hide IsDlq;
    if n in s.queues && s.queues[n].spec.deadLetter {
      var s1 := DeleteOne(s, n);
      assert s.queues.Keys == s1.queues.Keys + {n};
      DeleteCfg(Log(s1, Journal.QueueDelete(n), [], persist), DlqName(n), persist);
    }
  }

  /** No event changes the configuration or the specification of a queue that survives it. */
  lemma StepSpecs(s: State, ev: Event)
    requires Inv(s) && Allowed(s, ev) && s.cfg.baseDelay >= 0
    ensures Step(s, ev).cfg == s.cfg
    ensures forall n :: n in s.queues && n in Step(s, ev).queues ==> Step(s, ev).queues[n].spec == s.queues[n].spec
    ensures !ev.op.DoDelete? ==> SameSpecs(s, Step(s, ev))
  {
    hide PartsOk, HeapsOk, TablesAgree, Fresh, Items, DeliveriesIn, IsDlq, Push, Declare, Delete, Nack,
      Recover, Tick,
      RetryDelay, Stored, Drop, Without, Deleted, PlaceOf, DlqRequeue, Enqueue, Reserve, Trim;
    match ev.op
    case DoDeclare(n, a) =>
      DeclareFrame(s, n, a, true);
      DeclareCfg(s, n, a, true);
    case DoDelete(n) =>
      DeletePlace(s, n, true);
      DeleteCfg(s, n, true);
    case DoPublish(m) => EnqueueSpecs(s, m, ev.now, true);
    case DoReserve(n, c) => ReserveSpecs(s, n, c, ev.now);
    case DoAck(id) =>
    case DoNack(id, requeue) => NackSpecs(s, id, requeue, ev.now, true);
    case DoRecover(c, todo) =>
      AllowedTodo(s, c, todo);
      RecoverSpecs(s, todo, ev.now, true);
    case DoTick(ts) => TickIsScan(s, ts, ev.now);
    case DoRequeue(n, id) => RequeueSpecs(s, n, id, ev.now, true);
  }

  lemma EnqueueSpecs(s: State, m: Message, now: Time, persist: bool)
    ensures SameSpecs(s, Enqueue(s, m, now, persist).0)
  {
    hide Push, Stored, Later, Full;
  }

  lemma ReserveSpecs(s: State, n: QName, c: ConsumerId, now: Time)
    requires Inv(s)
    ensures SameSpecs(s, Reserve(s, n, c, now).0)
  {
    hide PartsOk, HeapsOk, TablesAgree, Push, Reserve;
    if n in s.queues && s.queues[n].ready != [] {
      ReserveHead(s, n, c, now);
    } else {
      ReserveNothing(s, n, c, now);
    }
  }

  lemma ReserveNothing(s: State, n: QName, c: ConsumerId, now: Time)
    requires n !in s.queues || s.queues[n].ready == []
    ensures Reserve(s, n, c, now) == (s, None)
  {
  }

  lemma RequeueSpecs(s: State, n: QName, id: Id, now: Time, persist: bool)
    requires IndexOk(s)
    ensures SameSpecs(s, DlqRequeue(s, n, id, now, persist).0)
  {
    hide TablesAgree, Drop, Without, IsDlq, Push, Enqueue, DlqRequeue, BackMessage;
    RequeueForm(s, n, id, now, persist);
    if Found(s, n, id) {
      EnqueueSpecs(Withdrawn(s, DlqName(OriginQueue(n)), id), BackMessage(s, n, id), now, false);
    }
  }

  // ----- the index alone -----

  /** The index needs less: ids that are not in use, and deliveries that were found; a requeue may be of any
      dead letter, ready or not, and may succeed or be rolled back. */
  predicate Indexed(s: State, ev: Event) {
    Callable(s, ev.op) && (ev.op.DoPublish? ==> ev.op.message.id !in s.byId)
  }

  lemma StepIndex(s: State, ev: Event)
    requires IndexOk(s) && Indexed(s, ev)
    ensures IndexOk(Step(s, ev))
  {
    hide TablesAgree;
    match ev.op
    case DoDeclare(n, a) => DeclareIndex(s, n, a, true);
    case DoDelete(n) => DeleteIndex(s, n, true);
    case DoPublish(m) => EnqueueIndex(s, m, ev.now, true);
    case DoReserve(n, c) => ReserveIndex(s, n, c, ev.now);
    case DoAck(id) => AckIndex(s, id, true);
    case DoNack(id, requeue) => NackIndex(s, id, requeue, ev.now, true);
    case DoRecover(c, todo) => RecoverIndex(s, todo, ev.now, true);
    case DoTick(ts) => TickIndex(s, ts, ev.now);
    case DoRequeue(n, id) => DlqRequeueIndex(s, n, id, ev.now, true);
  }

  ghost predicate IndexedRun(s: State, run: seq<Event>)
    decreases |run|
  {
    run == [] || (Indexed(s, run[0]) && IndexedRun(Step(s, run[0]), run[1..]))
  }

  ghost function IndexedEnd(s: State, run: seq<Event>): State
    requires IndexedRun(s, run)
    decreases |run|
  {
    if run == [] then s else IndexedEnd(Step(s, run[0]), run[1..])
  }

  lemma {:induction false} RunIndex(s: State, run: seq<Event>)
    requires IndexOk(s) && IndexedRun(s, run)
    ensures IndexOk(IndexedEnd(s, run))
    decreases |run|
  {
    hide TablesAgree, Step, Callable;
    if run != [] {
      StepIndex(s, run[0]);
      RunIndex(Step(s, run[0]), run[1..]);
    }
  }

  /** After any run from an empty engine, whatever is requeued, deleted or dead-lettered: the index maps an id
      to a queue exactly when the queue exists and stores the id, so no id is stored in two queues. */
  lemma IndexAgrees(cfg: Config, run: seq<Event>, id: Id, n: QName, other: QName)
    requires IndexedRun(Init(cfg), run)
    ensures
      var s := IndexedEnd(Init(cfg), run);
      && (Holds(s, n, id) <==> id in s.byId && s.byId[id] == n)
      && (Holds(s, n, id) && Holds(s, other, id) ==> n == other)
  {
    hide QueueIndexOk, Step, Callable;
    RunIndex(Init(cfg), run);
    var s := IndexedEnd(Init(cfg), run);
    if Holds(s, n, id) {
      IndexAt(s, n, id);
    }
    if Holds(s, other, id) {
      IndexAt(s, other, id);
    }
  }

  // ----- runs -----

  ghost predicate AllowedRun(s: State, run: seq<Event>)
    decreases |run|
  {
    run == [] || (Allowed(s, run[0]) && AllowedRun(Step(s, run[0]), run[1..]))
  }

  ghost function Run(s: State, run: seq<Event>): State
    requires AllowedRun(s, run)
    decreases |run|
  {
    if run == [] then s else Run(Step(s, run[0]), run[1..])
  }

  lemma InitInv(cfg: Config)
    ensures Inv(Init(cfg))
  {
  }

  /** No message is ever stranded or duplicated: the invariant holds after every run. */
  lemma {:induction false} RunInv(s: State, run: seq<Event>)
    requires Inv(s) && s.cfg.baseDelay >= 0 && AllowedRun(s, run)
    ensures Inv(Run(s, run)) && Run(s, run).cfg == s.cfg
    decreases |run|
  {
    hide Inv, Step, Allowed;
    if run != [] {
      AllowedCallable(s, run[0]);
      StepInv(s, run[0]);
      StepSpecs(s, run[0]);
      RunInv(Step(s, run[0]), run[1..]);
    }
  }
}
