/** What runs guarantee about single messages and single queues: bounded delivery and backoff,
    exclusive delivery, and capacity. */
module Bounds {
  import opened Types
  import opened DlqNames
  import opened Heaps
  import opened Backoffs
  import opened Engine
  import opened Index
  import opened Invariant
  import opened InvariantOps
  import opened Places
  import opened Ticks
  import opened Requeue
  import opened Runs

  // ----- bounded delivery and bounded backoff -----

  /** How often a message was reserved, and how long it was delayed in all, since it was published or
      last requeued out of the dead-letter queue. */
  datatype Track = Track(deliveries: nat, delay: Time)

  function TrackStep(s: State, ev: Event, id: Id, t: Track): Track {
    var p, p' := PlaceOf(s, id), Next(s, ev, id);
    if ev.op.DoPublish? && ev.op.message.id == id then Track(0, 0)
    else if ev.op.DoRequeue? && ev.op.id == id && Found(s, ev.op.name, id) then Track(0, 0)
    else if !p.InflightIn? && p'.InflightIn? then t.(deliveries := t.deliveries + 1)
    else if p.InflightIn? && p'.DelayedIn? then t.(delay := t.delay + p'.message.availableAt.GetOr(ev.now) - ev.now)
    else t
  }

  ghost function TrackRun(s: State, run: seq<Event>, id: Id, t: Track): Track
    requires AllowedRun(s, run)
    decreases |run|
  {
    if run == [] then t else TrackRun(Step(s, run[0]), run[1..], id, TrackStep(s, run[0], id, t))
  }

  /** Messages are published with no attempts counted. */
  predicate Unattempted(run: seq<Event>) {
    forall ev :: ev in run && ev.op.DoPublish? ==> ev.op.message.attempts == 0
  }

  predicate TrackOk(cfg: Config, p: Place, t: Track) {
    p != Gone && !IsDlq(p.queue) && p.message.maxAttempts >= 1 ==>
      && p.message.attempts < p.message.maxAttempts
      && t.deliveries == p.message.attempts + (if p.InflightIn? then 1 else 0)
      && t.delay == TotalDelay(p.message.attempts, cfg.backoff, cfg.baseDelay)
  }

  lemma FailedTrack(s: State, p: Place, now: Time, t: Track)
    requires p.InflightIn? && p.queue in s.queues && TrackOk(s.cfg, p, t)
    ensures
      var p' := Failed(s, p, now);
      TrackOk(s.cfg, p', if p'.DelayedIn? then t.(delay := t.delay + p'.message.availableAt.GetOr(now) - now) else t)
  {
    hide IsDlq, RetryDelay;
  }

  lemma StepTrack(s: State, ev: Event, id: Id, t: Track)
    requires Inv(s) && Allowed(s, ev) && TrackOk(s.cfg, PlaceOf(s, id), t)
    requires ev.op.DoPublish? ==> ev.op.message.attempts == 0
    ensures TrackOk(s.cfg, Next(s, ev, id), TrackStep(s, ev, id, t))
  {
    hide Inv, Fresh, Items, DeliveriesIn, PlaceOf, IsDlq, Reserve, Enqueue, DlqRequeue, AfterFailure,
      Found, Holds;
    var p := PlaceOf(s, id);
    PlaceQueue(s, id);
    match ev.op
    case DoPublish(m) =>
      FreshGone(s, m.id);
    case DoReserve(n, c) => ReservePlace(s, n, c, ev.now);
    case DoNack(x, requeue) =>
      if p.InflightIn? {
        FailedTrack(s, p, ev.now, t);
      }
    case DoRecover(_, _) =>
      if p.InflightIn? {
        FailedTrack(s, p, ev.now, t);
      }
    case DoTick(ts) =>
      if p.InflightIn? {
        FailedTrack(s, p, ev.now, t);
      }
    case _ =>
  }

  lemma FreshGone(s: State, id: Id)
    requires Inv(s) && Fresh(s, id)
    ensures PlaceOf(s, id) == Gone
  {
  }

  lemma {:induction false} RunTrack(s: State, run: seq<Event>, id: Id, t: Track)
    requires Inv(s) && s.cfg.baseDelay >= 0 && AllowedRun(s, run) && Unattempted(run)
    requires TrackOk(s.cfg, PlaceOf(s, id), t)
    ensures TrackOk(s.cfg, PlaceOf(Run(s, run), id), TrackRun(s, run, id, t))
    decreases |run|
  {
    hide Inv, Step, Allowed, TrackOk, TrackStep, Next, PlaceOf;
    if run != [] {
      AllowedCallable(s, run[0]);
      StepInv(s, run[0]);
      StepSpecs(s, run[0]);
      StepMoves(s, run[0], id);
      StepTrack(s, run[0], id, t);
      RunTrack(Step(s, run[0]), run[1..], id, TrackStep(s, run[0], id, t));
    }
  }

  /** In any run of a new engine, a message in an ordinary queue has attempts left, was reserved at most
      max_attempts times, and its exponential delays add up to at most base * (2^(max_attempts-1) - 1). */
  lemma BoundedDelivery(cfg: Config, run: seq<Event>, id: Id)
    requires cfg.baseDelay >= 0 && AllowedRun(Init(cfg), run) && Unattempted(run)
    ensures
      var p := PlaceOf(Run(Init(cfg), run), id);
      var t := TrackRun(Init(cfg), run, id, Track(0, 0));
      p != Gone && !IsDlq(p.queue) && p.message.maxAttempts >= 1 ==>
        && p.message.attempts < p.message.maxAttempts
        && t.deliveries <= p.message.maxAttempts
        && (cfg.backoff == Exponential ==> t.delay <= cfg.baseDelay * (Pow2(p.message.maxAttempts - 1) - 1))
        && (cfg.backoff == Fixed ==> t.delay <= cfg.baseDelay * (p.message.maxAttempts - 1))
  {
    hide PlaceOf, Inv, Run, TrackRun, AllowedRun, IsDlq, TotalDelay, Pow2;
    InitInv(cfg);
    InitGone(cfg, id);
    RunTrack(Init(cfg), run, id, Track(0, 0));
    var p := PlaceOf(Run(Init(cfg), run), id);
    if p != Gone && !IsDlq(p.queue) && p.message.maxAttempts >= 1 {
      DelayBound(p.message.attempts, p.message.maxAttempts - 1, cfg.backoff, cfg.baseDelay);
    }
  }

  lemma DelayBound(a: nat, b: nat, mode: Backoff, base: Time)
    requires a <= b && base >= 0
    ensures mode == Exponential ==> TotalDelay(a, mode, base) <= base * (Pow2(b) - 1)
    ensures mode == Fixed ==> TotalDelay(a, mode, base) <= base * b
  {
    hide TotalDelay, Pow2;
    TotalDelayClosed(a, mode, base);
    Pow2Monotone(a, b);
    MulMonotone(base, Pow2(a) - 1, Pow2(b) - 1);
    MulMonotone(base, a, b);
  }

  lemma MulMonotone(x: int, y: int, z: int)
    requires x >= 0 && y <= z
    ensures x * y <= x * z && x * y == y * x
  {
  }

  lemma InitGone(cfg: Config, id: Id)
    ensures PlaceOf(Init(cfg), id) == Gone
  {
  }

  // ----- exclusive delivery -----

  /** The event may end the delivery of message id: its settlement, its deadline, the end of its consumer
      or the end of its queue. */
  predicate Ends(s: State, ev: Event, id: Id) {
    var p := PlaceOf(s, id);
    p.InflightIn? &&
      match ev.op
      case DoAck(x) => x == id
      case DoNack(x, _) => x == id
      case DoRecover(_, todo) => Listed(todo, id)
      case DoTick(ts) => p.delivery.deadline <= ts
      case DoDelete(n) => Deleted(s, n, p.queue)
      case _ => false
  }

  ghost predicate Uninterrupted(s: State, run: seq<Event>, id: Id)
    requires AllowedRun(s, run)
    decreases |run|
  {
    run == [] || (!Ends(s, run[0], id) && Uninterrupted(Step(s, run[0]), run[1..], id))
  }

  predicate Reserves(s: State, ev: Event, id: Id) {
    ev.op.DoReserve? &&
    var r := Reserve(s, ev.op.queue, ev.op.consumer, ev.now).1;
    r.Some? && r.value.id == id
  }

  ghost predicate ReservedIn(s: State, run: seq<Event>, id: Id)
    requires AllowedRun(s, run)
    decreases |run|
  {
    run != [] && (Reserves(s, run[0], id) || ReservedIn(Step(s, run[0]), run[1..], id))
  }

  lemma StepKeepsDelivery(s: State, ev: Event, id: Id)
    requires Inv(s) && Allowed(s, ev) && PlaceOf(s, id).InflightIn? && !Ends(s, ev, id)
    ensures Next(s, ev, id) == PlaceOf(s, id) && !Reserves(s, ev, id)
  {
    hide Inv, Fresh, DeliveriesIn, PlaceOf, IsDlq, Reserve, Enqueue, DlqRequeue, AfterFailure, Holds,
      Deleted, Items;
    match ev.op
    case DoReserve(n, c) => ReservePlace(s, n, c, ev.now);
    case DoPublish(m) => FreshGone(s, m.id);
    case DoRequeue(n, x) =>
      if Found(s, n, x) && x == id {
        FoundPlace(s, n, x);
      }
    case _ =>
  }

  lemma FoundPlace(s: State, n: QName, id: Id)
    requires Inv(s) && Found(s, n, id) && id in Items(s.queues[DlqName(OriginQueue(n))].ready)
    ensures PlaceOf(s, id).ReadyIn?
  {
    hide Inv, PlaceOf, IsDlq, Items;
    PlaceMeaning(s, DlqName(OriginQueue(n)), id);
  }

  /** Between a delivery and the event that ends it, no reserve on any queue returns the message again. */
  lemma {:induction false} ExclusiveDelivery(s: State, run: seq<Event>, id: Id)
    requires Inv(s) && s.cfg.baseDelay >= 0 && AllowedRun(s, run)
    requires PlaceOf(s, id).InflightIn? && Uninterrupted(s, run, id)
    ensures PlaceOf(Run(s, run), id) == PlaceOf(s, id)
    ensures !ReservedIn(s, run, id)
    decreases |run|
  {
    hide Inv, Step, Allowed, Next, PlaceOf, Ends, Reserves;
    if run != [] {
      AllowedCallable(s, run[0]);
      StepInv(s, run[0]);
      StepSpecs(s, run[0]);
      StepMoves(s, run[0], id);
      StepKeepsDelivery(s, run[0], id);
      ExclusiveDelivery(Step(s, run[0]), run[1..], id);
    }
  }

  // ----- capacity -----

  predicate Bounded(n: QName, q: Queue) {
    !IsDlq(n) && q.spec.maxLength.Some? ==>
      |q.messages| <= if q.spec.maxLength.value > 0 then q.spec.maxLength.value else 0
  }

  predicate CapacityOk(s: State) {
    forall n :: n in s.queues ==> Bounded(n, s.queues[n])
  }

  lemma {:induction false} SubsetSize(a: set<Id>, b: set<Id>)
    requires a <= b
    ensures |a| <= |b|
    decreases a
  {
    if a != {} {
      var x :| x in a;
      SubsetSize(a - {x}, b - {x});
    }
  }

  /** The ids that an event adds to an ordinary queue. */
  predicate Adds(s: State, ev: Event, n: QName, id: Id) {
    || (ev.op.DoPublish? && ev.op.message.id == id && ev.op.message.queue == n && Enqueue(s, ev.op.message, ev.now, true).1 == EnqueueOk)
    || (ev.op.DoRequeue? && ev.op.id == id && Found(s, ev.op.name, id) && OriginQueue(ev.op.name) == n &&
        DlqRequeue(s, ev.op.name, id, ev.now, true).1)
  }

  lemma NextStays(s: State, ev: Event, n: QName, id: Id)
    requires Inv(s) && Allowed(s, ev) && !IsDlq(n)
    requires Next(s, ev, id) != Gone && Next(s, ev, id).queue == n && !Adds(s, ev, n, id)
    ensures PlaceOf(s, id) != Gone && PlaceOf(s, id).queue == n && n in s.queues
  {
    hide Inv, Fresh, Items, DeliveriesIn, PlaceOf, IsDlq, Reserve, Enqueue, DlqRequeue, Found, Holds,
      RetryDelay;
    PlaceQueue(s, id);
    match ev.op
    case DoReserve(n, c) => ReservePlace(s, n, c, ev.now);
    case _ =>
  }

  lemma StepContents(s: State, ev: Event, n: QName, id: Id)
    requires Inv(s) && Allowed(s, ev) && s.cfg.baseDelay >= 0 && !IsDlq(n)
    requires n in Step(s, ev).queues && id in Step(s, ev).queues[n].messages && !Adds(s, ev, n, id)
    ensures n in s.queues && id in s.queues[n].messages
  {
    hide Inv, Allowed, Step, Next, PlaceOf, IsDlq, Adds;
    AllowedCallable(s, ev);
    StepInv(s, ev);
    StepMoves(s, ev, id);
    PlaceMeaning(Step(s, ev), n, id);
    NextStays(s, ev, n, id);
    PlaceMeaning(s, n, id);
  }

  lemma AddsOne(s: State, ev: Event, n: QName)
    requires Inv(s) && Allowed(s, ev) && !IsDlq(n) && n in s.queues
    ensures forall id, id' :: Adds(s, ev, n, id) && Adds(s, ev, n, id') ==> id == id'
    ensures (exists id :: Adds(s, ev, n, id)) && s.queues[n].spec.maxLength.Some? ==>
              |s.queues[n].messages| < s.queues[n].spec.maxLength.value
  {
    hide Inv, Fresh, Items, DeliveriesIn, PlaceOf, IsDlq, Reserve, Enqueue, DlqRequeue, Found, Holds,
      SameElsewhere;
    match ev.op
    case DoPublish(m) => EnqueueAnswer(s, m, ev.now, true);
    case DoRequeue(x, id) =>
      if Found(s, x, id) {
        RequeuePlace(s, x, id, ev.now, true);
      }
    case _ =>
  }

  lemma StepCapacity(s: State, ev: Event, n: QName)
    requires Inv(s) && Allowed(s, ev) && s.cfg.baseDelay >= 0 && CapacityOk(s) && n in Step(s, ev).queues
    ensures Bounded(n, Step(s, ev).queues[n])
  {
    hide Inv, Allowed, Step, Adds, IsDlq, SameSpecs;
    AllowedCallable(s, ev);
    var s' := Step(s, ev);
    if !IsDlq(n) && s'.queues[n].spec.maxLength.Some? {
      var after := s'.queues[n].messages.Keys;
      StepSpecs(s, ev);
      forall id | id in after && !Adds(s, ev, n, id)
        ensures n in s.queues && id in s.queues[n].messages
      {
        StepContents(s, ev, n, id);
      }
      if n in s.queues {
        AddsOne(s, ev, n);
        var before := s.queues[n].messages.Keys;
        if id :| Adds(s, ev, n, id) {
          assert after <= before + {id};
          SubsetSize(after, before + {id});
        } else {
          SubsetSize(after, before);
        }
        assert |before| == |s.queues[n].messages| && |after| == |s'.queues[n].messages|;
      } else {
        NewQueueEmpty(s, ev, n);
      }
    }
  }

  lemma NewQueueEmpty(s: State, ev: Event, n: QName)
    requires Inv(s) && Allowed(s, ev) && s.cfg.baseDelay >= 0 && !IsDlq(n) && n !in s.queues && n in Step(s, ev).queues
    ensures Step(s, ev).queues[n].messages == map[]
  {
    hide Inv, Step, IsDlq, Fresh, Items, DeliveriesIn, DlqRequeue, Enqueue, Allowed;
    AllowedCallable(s, ev);
    forall id | id in Step(s, ev).queues[n].messages
      ensures false
    {
      AddsKnown(s, ev, n, id);
      StepContents(s, ev, n, id);
    }
  }

  lemma AddsKnown(s: State, ev: Event, n: QName, id: Id)
    requires n !in s.queues
    ensures !Adds(s, ev, n, id)
  {
    hide IsDlq;
  }

  /** A queue that is not a dead-letter queue never stores more messages than its limit. */
  lemma {:induction false} RunCapacity(s: State, run: seq<Event>)
    requires Inv(s) && s.cfg.baseDelay >= 0 && AllowedRun(s, run) && CapacityOk(s)
    ensures CapacityOk(Run(s, run))
    decreases |run|
  {
    hide Inv, Step, Allowed, Bounded;
    if run != [] {
      AllowedCallable(s, run[0]);
      StepInv(s, run[0]);
      StepSpecs(s, run[0]);
      var s1 := Step(s, run[0]);
      forall n | n in s1.queues
        ensures Bounded(n, s1.queues[n])
      {
        StepCapacity(s, run[0], n);
      }
      RunCapacity(s1, run[1..]);
    }
  }
}
