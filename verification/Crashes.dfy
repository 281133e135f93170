/** Any number of snapshots, crashes with torn logs, and restarts: no live, written message is ever lost. */
module Crashes {
  import opened Types
  import opened DlqNames
  import opened Journal
  import opened Engine
  import opened Index
  import opened Requeue
  import opened Runs
  import opened Replay
  import opened Recovery
  import opened Restarts

  // ----- one live step and its records -----

  /** A requeue named after a doubly suffixed queue needs an origin that keeps dead letters; every other
      requeue is straight. */
  predicate Straight(s: State, n: QName) {
    var target := OriginQueue(n);
    var origin := OriginQueue(target);
    IsDlq(target) && !IsDlq(origin) && origin in s.queues ==> s.queues[origin].spec.deadLetter
  }

  /** Operations on unbounded queues, with ids never used before. */
  predicate Journalled(s: State, ev: Event, used: set<Id>) {
    && Callable(s, ev.op)
    && match ev.op
       case DoPublish(m) => m.id !in used
       case DoDeclare(_, a) => a.maxLength == None
       case DoRequeue(n, _) => Straight(s, n)
       case _ => true
  }

  function Published(ev: Event): set<Id> {
    if ev.op.DoPublish? then {ev.op.message.id} else {}
  }

  /** The records that a step appends to the journal. */
  function Emitted(s: State, ev: Event): seq<Rec>
    requires Callable(s, ev.op)
  {
    var j := Step(s, ev).journal;
    if |j| > |s.journal| then j[|s.journal|..] else []
  }

  lemma EmittedIs(s: State, ev: Event, recs: seq<Rec>)
    requires Callable(s, ev.op) && Step(s, ev).journal == s.journal + recs
    ensures Emitted(s, ev) == recs
  {
    hide Step;
  }

  /** Events that only lose messages and dead-letter them. */
  predicate Waning(op: Op) {
    op.DoReserve? || op.DoAck? || op.DoNack? || op.DoRecover? || op.DoTick?
  }

  lemma StepWane(s: State, ev: Event)
    requires IndexOk(s) && Callable(s, ev.op) && Waning(ev.op)
    ensures Wane(s, Step(s, ev)) && IndexOk(Step(s, ev))
  {
    hide TablesAgree, Wane, Reserve, Ack, Nack, Recover, Tick;
    match ev.op
    case DoReserve(n, c) =>
      ReserveWane(s, n, c, ev.now);
      ReserveIndex(s, n, c, ev.now);
    case DoAck(id) =>
      AckWane(s, id, true);
      AckIndex(s, id, true);
    case DoNack(id, requeue) =>
      NackWane(s, id, requeue, ev.now, true);
      NackIndex(s, id, requeue, ev.now, true);
    case DoRecover(c, todo) =>
      RecoverWane(s, todo, ev.now, true);
      RecoverIndex(s, todo, ev.now, true);
    case DoTick(ts) =>
      TickWane(s, ts, ev.now);
      TickIndex(s, ts, ev.now);
  }

  lemma QuietEmitted(s: State, ev: Event)
    requires Callable(s, ev.op) && QuietGrowth(s.journal, Step(s, ev).journal)
    ensures forall rec :: rec in Emitted(s, ev) ==> Quiet(rec.meta)
  {
    hide Step, Quiet;
    var j := Step(s, ev).journal;
    forall rec | rec in Emitted(s, ev)
      ensures Quiet(rec.meta)
    {
      var i :| 0 <= i < |j[|s.journal|..]| && j[|s.journal|..][i] == rec;
      assert j[|s.journal| + i] == rec;
    }
  }

  lemma WaneRoomy(s: State, s': State)
    requires Roomy(s) && Wane(s, s')
    ensures Roomy(s')
  {
    hide IsDlq, Decay, Letter, QuietGrowth;
  }

  lemma WaneFacts(s: State, s': State)
    requires Wane(s, s')
    ensures QuietGrowth(s.journal, s'.journal) && s'.cfg == s.cfg
  {
    hide SameNames, Decay, Letter, QuietGrowth;
  }

  /** What one live step and the replay of its records do to the simulation. */
  ghost predicate StepsAlong(live: State, ev: Event, back: State, used: set<Id>, clock: seq<Time>)
    requires Callable(live, ev.op) && |clock| == |Emitted(live, ev)|
  {
    && Sim(Step(live, ev), ReplayAll(back, Emitted(live, ev), clock), used + Published(ev))
    && Roomy(Step(live, ev)) && Step(live, ev).cfg == live.cfg
    && forall rec :: rec in Emitted(live, ev) ==> Unlimited(rec) && RecIds(rec) <= Published(ev)
  }

  lemma QuietUnlimited(rec: Rec)
    requires Quiet(rec.meta)
    ensures Unlimited(rec) && RecIds(rec) == {}
  {
  }

  lemma WaneStep(live: State, ev: Event, back: State, used: set<Id>, clock: seq<Time>)
    requires Sim(live, back, used) && Roomy(live) && Callable(live, ev.op) && Waning(ev.op) && |clock| == |Emitted(live, ev)|
    ensures StepsAlong(live, ev, back, used, clock)
  {
    hide TablesAgree, Wane, Step, Emitted, AllKept, SameShape, Quiet, Unlimited, RecIds, Roomy, QuietGrowth, Idle;
    StepWane(live, ev);
    WaneFacts(live, Step(live, ev));
    QuietEmitted(live, ev);
    forall rec | rec in Emitted(live, ev)
      ensures Unlimited(rec) && RecIds(rec) == {}
    {
      QuietUnlimited(rec);
    }
    QuietReplay(back, Emitted(live, ev), clock);
    WaneSim(live, Step(live, ev), back, used);
    WaneRoomy(live, Step(live, ev));
    assert used + Published(ev) == used;
  }

  lemma DeclareRecsUnlimited(s: State, n: QName, a: DeclareArgs)
    requires s.cfg.maxLength == None && a.maxLength == None
    ensures forall rec :: rec in DeclareRecs(s, n, a) ==> Unlimited(rec) && RecIds(rec) == {}
  {
    hide IsDlq;
  }

  lemma DeclareStep(live: State, n: QName, a: DeclareArgs, now: Time, back: State, used: set<Id>, clock: seq<Time>)
    requires Sim(live, back, used) && Roomy(live) && a.maxLength == None
    requires |clock| == |Emitted(live, Event(DoDeclare(n, a), now))|
    ensures StepsAlong(live, Event(DoDeclare(n, a), now), back, used, clock)
  {
    hide TablesAgree, Sim, Declare, DeclareRecs, ReplayAll, Emitted, Unlimited, RecIds;
    var ev := Event(DoDeclare(n, a), now);
    DeclareJournal(live, n, a);
    EmittedIs(live, ev, DeclareRecs(live, n, a));
    DeclareSim(live, back, n, a, used, clock);
    DeclareRoomy(live, n, a, true);
    DeclareCfgSame(live, n, a);
    DeclareRecsUnlimited(live, n, a);
    assert used + Published(ev) == used;
  }

  lemma DeclareCfgSame(s: State, n: QName, a: DeclareArgs)
    ensures Declare(s, n, a, true).cfg == s.cfg
  {
    hide Declare;
    DeclareTables(s, n, a, true);
  }

  lemma DeleteRoomy(s: State, n: QName)
    requires IndexOk(s) && Roomy(s)
    ensures Roomy(Delete(s, n, true).0) && Delete(s, n, true).0.cfg == s.cfg
  {
    hide TablesAgree, Delete, Deleted, IsDlq;
    DeletePlace(s, n, true);
    DeleteCfg(s, n, true);
  }

  lemma DeleteStep(live: State, n: QName, now: Time, back: State, used: set<Id>, clock: seq<Time>)
    requires Sim(live, back, used) && Roomy(live) && |clock| == |Emitted(live, Event(DoDelete(n), now))|
    ensures StepsAlong(live, Event(DoDelete(n), now), back, used, clock)
  {
    hide TablesAgree, Delete, ReplayAll, Emitted, AllKept, SameShape, Roomy, Idle, IsDlq;
    var ev := Event(DoDelete(n), now);
    DeleteJournal(live, n);
    EmittedIs(live, ev, DeleteRecs(live, n));
    DeleteSim(live, back, n, used, clock);
    DeleteRoomy(live, n);
    assert used + Published(ev) == used;
  }

  lemma MoreUsed(live: State, back: State, used: set<Id>, more: set<Id>)
    requires Sim(live, back, used)
    ensures Sim(live, back, used + more)
  {
    hide TablesAgree, AllKept, SameShape, Idle;
  }

  lemma PublishStep(live: State, m: Message, now: Time, back: State, used: set<Id>, clock: seq<Time>)
    requires Sim(live, back, used) && Roomy(live) && Roomy(back) && m.id !in used
    requires |clock| == |Emitted(live, Event(DoPublish(m), now))|
    ensures StepsAlong(live, Event(DoPublish(m), now), back, used, clock)
  {
    hide TablesAgree, Enqueue, Declare, ReplayAll, Emitted, Letter, AllKept, SameShape, Roomy, Idle, IsDlq, Apply,
      Full, Stored,
      SameHouses, SameLetters;
    var ev := Event(DoPublish(m), now);
    SimRoom(live, back, used, m.id);
    EnqueueLetters(live, m, now, true);
    EnqueueSpecs(live, m, now, true);
    HousesRoomy(live, Step(live, ev));
    if Enqueue(live, m, now, true).1 == EnqueueOk {
      var rec := PublishRec(Stored(m, now));
      StoredAgain(m, now, now);
      EmittedIs(live, ev, [rec]);
      ReplayOne(back, rec, clock);
      PublishSim(live, back, m, now, used, clock[0]);
      DeclareContinues(back, m.queue, DEFAULT_ARGS);
      NeverFull(Declare(back, m.queue, DEFAULT_ARGS, false), m.queue);
    } else {
      EmittedIs(live, ev, []);
      ReplayNone(back, clock);
      MoreUsed(live, back, used, {m.id});
    }
  }

  lemma StraightCarried(live: State, back: State, n: QName, id: Id, used: set<Id>)
    requires Sim(live, back, used) && Roomy(back) && Straight(live, n) && Found(live, n, id)
    ensures Carried(live, back, n, id)
  {
    hide TablesAgree, AllKept, SameShape, Roomy, Idle, IsDlq, Full, Letter, SameLetter;
    var target := OriginQueue(n);
    var origin := OriginQueue(target);
    if Found(back, target, id) {
      NeverFull(back, origin);
      if IsDlq(target) {
        StraightShape(live, back, origin);
        LetterAt(live, DlqName(target), id);
        LetterAt(back, DlqName(origin), id);
        KeptAt(live, back, id);
        if IsDlq(origin) && origin in live.queues {
          SpecIndex(live, origin);
        }
      }
    }
  }

  lemma KeptAt(live: State, back: State, id: Id)
    requires AllKept(live, back)
    ensures Kept(live.queues, Letter(live, id), Letter(back, id))
  {
    hide Letter, Kept;
  }

  lemma StraightShape(live: State, back: State, n: QName)
    requires SameShape(live.queues, back.queues)
    ensures !IsDlq(n) && n in back.queues ==> n in live.queues
  {
    hide IsDlq;
  }

  lemma RequeueStepRoomy(s: State, n: QName, id: Id, now: Time)
    requires IndexOk(s) && Roomy(s)
    ensures Roomy(DlqRequeue(s, n, id, now, true).0) && DlqRequeue(s, n, id, now, true).0.cfg == s.cfg
  {
    hide TablesAgree, DlqRequeue, SameHouses, Roomy, SameLetters, IsDlq;
    RequeueSame(s, n, id, now, true);
    RequeueSpecs(s, n, id, now, true);
    HousesRoomy(s, DlqRequeue(s, n, id, now, true).0);
  }

  lemma RequeueStepSim(live: State, n: QName, id: Id, now: Time, back: State, used: set<Id>, clock: seq<Time>)
    requires Sim(live, back, used) && Roomy(live) && Roomy(back) && Straight(live, n)
    requires |clock| == |Emitted(live, Event(DoRequeue(n, id), now))|
    ensures StepsAlong(live, Event(DoRequeue(n, id), now), back, used, clock)
  {
    hide TablesAgree, DlqRequeue, ReplayAll, Emitted, AllKept, SameShape, Roomy, Idle, IsDlq, Apply, Found, Carried,
      Straight;
    var ev := Event(DoRequeue(n, id), now);
    RequeueStepRoomy(live, n, id, now);
    assert used + Published(ev) == used;
    if DlqRequeue(live, n, id, now, true).1 {
      var rec := Rec(MessageRequeue(id, DlqName(OriginQueue(n)), OriginQueue(n)), []);
      var later := if |clock| == 1 then clock[0] else now;
      RequeueSim(live, back, n, id, now, used, later);
      EmittedIs(live, ev, [rec]);
      ReplayOne(back, rec, clock);
      StraightCarried(live, back, n, id, used);
    } else {
      RequeueRefusedSim(live, back, n, id, now, used);
      EmittedIs(live, ev, []);
      ReplayNone(back, clock);
    }
  }

  /** The records of the router. A queue is bound only while it exists. */
  predicate Routed(s: State, meta: Meta) {
    meta.ExchangeDeclare? || meta.ExchangeDelete? || meta.Unbind? || (meta.Bind? && meta.queue in s.queues)
  }

  /** A router record keeps the simulation: replaying a binding may declare the queue, but only one that is
      there already or a dead-letter queue. */
  lemma RouteSim(live: State, meta: Meta, back: State, used: set<Id>, later: Time)
    requires Sim(live, back, used) && Routed(live, meta)
    ensures Sim(Log(live, meta, [], true), Apply(back, Rec(meta, []), later), used)
  {
    hide TablesAgree, Declare, SameShape, Idle, AllKept;
    if meta.Bind? {
      BackSim(live, back, meta.queue, DEFAULT_ARGS, used);
    }
    var live' := Log(live, meta, [], true);
    LogSim(live, live', Apply(back, Rec(meta, []), later), used);
  }

  /** The simulation does not look at the journal. */
  lemma LogSim(live: State, live': State, back: State, used: set<Id>)
    requires Sim(live, back, used) && live'.queues == live.queues && live'.byId == live.byId
    ensures Sim(live', back, used)
  {
    hide TablesAgree, SameShape, Idle, Kept;
    forall id
      ensures Letter(live', id) == Letter(live, id)
    {
    }
  }

  /** Every live step keeps the simulation, once its records are replayed, whatever the clock says then. */
  lemma StepSim(live: State, ev: Event, back: State, used: set<Id>, clock: seq<Time>)
    requires Sim(live, back, used) && Roomy(live) && Roomy(back) && Journalled(live, ev, used)
    requires |clock| == |Emitted(live, ev)|
    ensures StepsAlong(live, ev, back, used, clock)
  {
    hide Sim, Roomy, Straight, Emitted, StepsAlong, Step;
    match ev.op
    case DoDeclare(n, a) => DeclareStep(live, n, a, ev.now, back, used, clock);
    case DoDelete(n) => DeleteStep(live, n, ev.now, back, used, clock);
    case DoPublish(m) => PublishStep(live, m, ev.now, back, used, clock);
    case DoRequeue(n, id) => RequeueStepSim(live, n, id, ev.now, back, used, clock);
    case _ => WaneStep(live, ev, back, used, clock);
  }

  // ----- a live message keeps its identity -----

  /** The same message, in the same queue or moved between a queue and its dead-letter queue. */
  predicate SameLife(o: Option<Message>, o': Option<Message>) {
    o'.Some? ==> o.Some? && SameLetter(o.value, o'.value) && OriginQueue(o'.value.queue) == OriginQueue(o.value.queue)
  }

  lemma DecayLife(s: State, o: Option<Message>, o': Option<Message>)
    requires IndexOk(s) && Decay(s.queues, o, o')
    ensures SameLife(o, o')
  {
    hide TablesAgree, IsDlq;
    if o'.Some? && o.value.queue in s.queues {
      SpecIndex(s, o.value.queue);
    }
  }

  lemma LifeItself(o: Option<Message>)
    ensures SameLife(o, o)
  {
  }

  lemma WaneLife(s: State, s': State, id: Id)
    requires IndexOk(s) && Wane(s, s')
    ensures SameLife(Letter(s, id), Letter(s', id))
  {
    hide TablesAgree, SameNames, QuietGrowth, Letter, Decay, SameLife;
    DecayLife(s, Letter(s, id), Letter(s', id));
  }

  lemma DeclareLife(s: State, n: QName, a: DeclareArgs, id: Id)
    requires IndexOk(s)
    ensures Letter(Declare(s, n, a, true), id) == Letter(s, id)
  {
    hide TablesAgree, Declared, Letter, Declare;
    DeclareTables(s, n, a, true);
    DeclaredLetters(s, Declare(s, n, a, true), n, MakeSpec(s.cfg, n, a));
  }

  lemma DeleteLife(s: State, n: QName, id: Id)
    requires IndexOk(s)
    ensures Letter(Delete(s, n, true).0, id) == None || Letter(Delete(s, n, true).0, id) == Letter(s, id)
  {
    hide TablesAgree, Deleted, Letter, Delete, IsDlq;
    DeletePlace(s, n, true);
    DeleteIndex(s, n, true);
    DeletedLetters(s, Delete(s, n, true).0, n);
  }

  lemma RequeueLife(s: State, n: QName, id: Id, now: Time, x: Id)
    requires IndexOk(s)
    ensures SameLife(Letter(s, x), Letter(DlqRequeue(s, n, id, now, true).0, x))
  {
    hide TablesAgree, DlqRequeue, Letter, SameHouses, Found, IsDlq, Full;
    RequeueForm(s, n, id, now, true);
    LifeItself(Letter(s, x));
    if Found(s, n, id) {
      RequeueLetters(s, n, id, now, true);
      RequeueFamily(n);
    }
  }

  lemma RequeueFamily(n: QName)
    ensures OriginQueue(DlqName(OriginQueue(n))) == OriginQueue(OriginQueue(n))
  {
    DoubleSuffix(n);
    if !IsDlq(OriginQueue(n)) {
      DlqNameRoundTrip(n, n);
    }
  }

  lemma PublishLife(s: State, m: Message, now: Time, x: Id)
    requires IndexOk(s) && m.id !in s.byId && x != m.id
    ensures Letter(Enqueue(s, m, now, true).0, x) == Letter(s, x)
  {
    hide TablesAgree, Enqueue, Letter, SameHouses, Full, Stored;
    EnqueueLetters(s, m, now, true);
  }

  /** Through any step a message that is still live is the same message as before. */
  lemma StepLife(s: State, ev: Event, used: set<Id>, id: Id)
    requires IndexOk(s) && s.byId.Keys <= used && Journalled(s, ev, used) && id !in Published(ev)
    ensures SameLife(Letter(s, id), Letter(Step(s, ev), id))
  {
    hide TablesAgree, Letter, Straight, Declare, Delete, Enqueue, DlqRequeue, Reserve, Ack, Nack, Recover, Tick,
      SameLife, Wane;
    LifeItself(Letter(s, id));
    match ev.op
    case DoDeclare(n, a) => DeclareLife(s, n, a, id);
    case DoDelete(n) =>
      DeleteLife(s, n, id);
      LifeGone(Letter(s, id));
    case DoPublish(m) => PublishLife(s, m, ev.now, id);
    case DoRequeue(n, x) => RequeueLife(s, n, x, ev.now, id);
    case _ =>
      StepWane(s, ev);
      WaneLife(s, Step(s, ev), id);
  }

  lemma LifeGone(o: Option<Message>)
    ensures SameLife(o, None)
  {
  }
}
