/** The router over a restart: what replaying the journal makes of exchanges and bindings, and what a snapshot
    does. */
module RouterReplay {
  import opened Types
  import opened DlqNames
  import opened Journal
  import opened Engine
  import opened Index
  import opened Requeue
  import opened Runs
  import opened Replay
  import opened Recovery
  import opened Crashes
  import opened Routing

  // ----- one record -----

  function KindOf(name: string): Kind {
    if name == "fanout" then Fanout else Direct
  }

  function KindName(kind: Kind): string {
    if kind == Direct then "direct" else "fanout"
  }

  /** apply_record, for engine and router together. */
  function RouterApply(r: Router, rec: Rec, now: Time): Router {
    var r1 := r.(engine := Apply(r.engine, rec, now));
    match rec.meta
    case QueueDeclare(n, _, _, _, _, _) => OnQueueDeclared(r1, n, false)
    case ExchangeDeclare(x, kind, durable) => DeclareExchange(r1, x, KindOf(kind), durable, false)
    case ExchangeDelete(x) => DeleteExchange(r1, x, false).0
    case Bind(x, q, key) => BindQueue(r1, Binding(x, q, key), false).0
    case Unbind(x, q, key) => UnbindQueue(r1, Binding(x, q, key), false).0
    case MessagePublish(_, q, _, _, _, _, _) => if q in r.engine.queues then r1 else OnQueueDeclared(r1, q, false)
    case _ => r1
  }

  /** The engine's part does not depend on the router. */
  lemma RouterApplyEngine(r: Router, rec: Rec, now: Time)
    ensures RouterApply(r, rec, now).engine == Apply(r.engine, rec, now)
  {
    hide Apply;
  }

  function RouterReplayAll(r: Router, recs: seq<Rec>, clock: seq<Time>): Router
    requires |clock| == |recs|
    decreases |recs|
  {
    if recs == [] then r else RouterReplayAll(RouterApply(r, recs[0], clock[0]), recs[1..], clock[1..])
  }

  lemma {:induction false} RouterReplayEngine(r: Router, recs: seq<Rec>, clock: seq<Time>)
    requires |clock| == |recs|
    ensures RouterReplayAll(r, recs, clock).engine == ReplayAll(r.engine, recs, clock)
    decreases |recs|
  {
    hide RouterApply, Apply;
    if recs != [] {
      RouterApplyEngine(r, recs[0], clock[0]);
      RouterReplayEngine(RouterApply(r, recs[0], clock[0]), recs[1..], clock[1..]);
    }
  }

  lemma RouterReplayConcat(r: Router, a: seq<Rec>, b: seq<Rec>, clock: seq<Time>)
    requires |clock| == |a| + |b|
    ensures RouterReplayAll(r, a + b, clock) ==
            RouterReplayAll(RouterReplayAll(r, a, clock[..|a|]), b, clock[|a|..])
    decreases |a|
  {
    hide RouterApply;
    if a == [] {
      assert a + b == b && clock[|a|..] == clock;
    } else {
      assert (a + b)[1..] == a[1..] + b;
      RouterReplayConcat(RouterApply(r, a[0], clock[0]), a[1..], b, clock[1..]);
      assert clock[1..][..|a[1..]|] == clock[..|a|][1..];
      assert clock[1..][|a[1..]|..] == clock[|a|..];
    }
  }

  // ----- what the replaying router has -----

  /** The binding that a queue gets when it is declared. */
  predicate Own(b: Binding) {
    b.exchange == DEFAULT_EXCHANGE && b.routingKey == b.queue
  }

  /** The same exchanges, all the bindings, and otherwise only bindings of queues under their own name. */
  ghost predicate Follows(live: Router, back: Router) {
    && RouterOk(live) && back.exchanges == live.exchanges && live.bindings <= back.bindings
    && forall b :: b in back.bindings ==> b in live.bindings || Own(b)
  }

  predicate RouterMeta(meta: Meta) {
    meta.ExchangeDeclare? || meta.ExchangeDelete? || meta.Bind? || meta.Unbind?
  }

  /** A record of the engine adds at most the binding of a queue under its own name. */
  lemma EngineRecord(live: Router, back: Router, rec: Rec, now: Time)
    requires Follows(live, back) && !RouterMeta(rec.meta)
    ensures Follows(live, RouterApply(back, rec, now))
  {
    hide Apply, RouterOk;
  }

  lemma {:induction false} EngineRecords(live: Router, back: Router, recs: seq<Rec>, clock: seq<Time>)
    requires Follows(live, back) && |clock| == |recs| && forall rec :: rec in recs ==> !RouterMeta(rec.meta)
    ensures Follows(live, RouterReplayAll(back, recs, clock))
    decreases |recs|
  {
    hide Follows, RouterApply, RouterMeta;
    if recs != [] {
      assert recs[0] in recs && forall rec :: rec in recs[1..] ==> rec in recs;
      EngineRecord(live, back, recs[0], clock[0]);
      EngineRecords(live, RouterApply(back, recs[0], clock[0]), recs[1..], clock[1..]);
    }
  }

  // ----- the engine writes no router records -----

  lemma QuietNotRouter(rec: Rec)
    requires Quiet(rec.meta)
    ensures !RouterMeta(rec.meta)
  {
  }

  lemma DeclareNotRouter(s: State, n: QName, a: DeclareArgs)
    ensures forall rec :: rec in DeclareRecs(s, n, a) ==> !RouterMeta(rec.meta)
  {
    hide IsDlq;
  }

  lemma EnqueueJournal(s: State, m: Message, now: Time)
    ensures
      var j := Enqueue(s, m, now, true).0.journal;
      j == s.journal || j == s.journal + [PublishRec(Stored(m, now))]
  {
    hide Heaps.Push, Full, Later;
  }

  lemma EnqueueSilent(s: State, m: Message, now: Time)
    ensures Enqueue(s, m, now, false).0.journal == s.journal
  {
    hide Heaps.Push, Full, Later;
  }

  lemma RequeueJournal(s: State, n: QName, id: Id, now: Time)
    requires IndexOk(s)
    ensures
      var j := DlqRequeue(s, n, id, now, true).0.journal;
      j == s.journal || j == s.journal + [Rec(MessageRequeue(id, DlqName(OriginQueue(n)), OriginQueue(n)), [])]
  {
    hide TablesAgree, IsDlq, DlqRequeue, Enqueue, BackMessage;
    RequeueForm(s, n, id, now, true);
    if Found(s, n, id) {
      EnqueueSilent(Withdrawn(s, DlqName(OriginQueue(n)), id), BackMessage(s, n, id), now);
    }
  }

  lemma EngineJournals(s: State, ev: Event)
    requires IndexOk(s) && Callable(s, ev.op)
    ensures s.journal <= Step(s, ev).journal
    ensures forall rec :: rec in Emitted(s, ev) ==> !RouterMeta(rec.meta)
  {
    hide TablesAgree, RouterMeta, Declare, Delete, Enqueue, DlqRequeue, Reserve, Ack, Nack, Recover, Tick, DeclareRecs, DeleteRecs, Wane;
    match ev.op
    case DoDeclare(n, a) =>
      DeclareJournal(s, n, a);
      EmittedIs(s, ev, DeclareRecs(s, n, a));
      DeclareNotRouter(s, n, a);
    case DoDelete(n) =>
      DeleteJournal(s, n);
      EmittedIs(s, ev, DeleteRecs(s, n));
      DeleteNotRouter(s, n);
    case DoPublish(m) =>
      EnqueueJournal(s, m, ev.now);
      OneRecord(s, ev, PublishRec(Stored(m, ev.now)));
    case DoRequeue(n, id) =>
      RequeueJournal(s, n, id, ev.now);
      OneRecord(s, ev, Rec(MessageRequeue(id, DlqName(OriginQueue(n)), OriginQueue(n)), []));
    case _ => WaneJournals(s, ev);
  }

  lemma DeleteNotRouter(s: State, n: QName)
    ensures forall rec :: rec in DeleteRecs(s, n) ==> !RouterMeta(rec.meta)
  {
    hide IsDlq;
  }

  lemma OneRecord(s: State, ev: Event, rec: Rec)
    requires Callable(s, ev.op) && (rec.meta.MessagePublish? || rec.meta.MessageRequeue?)
    requires Step(s, ev).journal == s.journal || Step(s, ev).journal == s.journal + [rec]
    ensures forall x :: x in Emitted(s, ev) ==> !RouterMeta(x.meta)
  {
    hide Step;
  }

  lemma WaneJournals(s: State, ev: Event)
    requires IndexOk(s) && Callable(s, ev.op) && Waning(ev.op)
    ensures s.journal <= Step(s, ev).journal
    ensures forall rec :: rec in Emitted(s, ev) ==> !RouterMeta(rec.meta)
  {
    hide TablesAgree, RouterMeta, Quiet, Step, Wane;
    StepWane(s, ev);
    WaneFacts(s, Step(s, ev));
    QuietEmitted(s, ev);
    forall rec | rec in Emitted(s, ev)
      ensures !RouterMeta(rec.meta)
    {
      QuietNotRouter(rec);
    }
  }

  // ----- live steps of engine and router -----

  datatype RouterOp =
    | OnEngine(ev: Event)
    | MakeExchange(name: string, kind: Kind, durable: bool)
    | DropExchange(name: string)
    | MakeBinding(b: Binding)
    | DropBinding(b: Binding)

  predicate RouterCan(r: Router, op: RouterOp) {
    op.OnEngine? ==> Indexed(r.engine, op.ev)
  }

  function RouterStep(r: Router, op: RouterOp): Router
    requires RouterCan(r, op)
  {
    match op
    case OnEngine(ev) => r.(engine := Step(r.engine, ev))
    case MakeExchange(name, kind, durable) => DeclareExchange(r, name, kind, durable, true)
    case DropExchange(name) => DeleteExchange(r, name, true).0
    case MakeBinding(b) => BindQueue(r, b, true).0
    case DropBinding(b) => UnbindQueue(r, b, true).0
  }

  /** The records that a step appends. */
  function RouterEmitted(r: Router, op: RouterOp): seq<Rec>
    requires RouterCan(r, op)
  {
    match op
    case OnEngine(ev) => Emitted(r.engine, ev)
    case MakeExchange(name, kind, durable) =>
      if name in r.exchanges then [] else [Rec(ExchangeDeclare(name, KindName(kind), durable), [])]
    case DropExchange(name) =>
      if name == DEFAULT_EXCHANGE || name !in r.exchanges then [] else [Rec(ExchangeDelete(name), [])]
    case MakeBinding(b) =>
      if b.exchange !in r.exchanges || b.queue !in r.engine.queues then [] else [Rec(Bind(b.exchange, b.queue, b.routingKey), [])]
    case DropBinding(b) => if b !in r.bindings then [] else [Rec(Unbind(b.exchange, b.queue, b.routingKey), [])]
  }

  /** Those are what the journal gains; and a router record is one that the recovery theorems allow. */
  lemma RouterJournals(r: Router, op: RouterOp)
    requires RouterCan(r, op) && IndexOk(r.engine)
    ensures RouterStep(r, op).engine.journal == r.engine.journal + RouterEmitted(r, op)
    ensures !op.OnEngine? ==>
      || (RouterEmitted(r, op) == [] && RouterStep(r, op).engine == r.engine)
      || exists meta :: RouterEmitted(r, op) == [Rec(meta, [])] && Routed(r.engine, meta)
                        && RouterStep(r, op).engine == Log(r.engine, meta, [], true)
  {
    hide TablesAgree, Step;
    if op.OnEngine? {
      EngineJournals(r.engine, op.ev);
    }
  }

  lemma StepFollows(live: Router, op: RouterOp, back: Router, clock: seq<Time>)
    requires Follows(live, back) && RouterCan(live, op) && IndexOk(live.engine) && |clock| == |RouterEmitted(live, op)|
    ensures Follows(RouterStep(live, op), RouterReplayAll(back, RouterEmitted(live, op), clock))
  {
    hide TablesAgree, Step, Emitted, Apply, RouterReplayAll, Follows, RouterApply;
    if op.OnEngine? {
      EngineFollows(live, op.ev, back, clock);
    } else if RouterEmitted(live, op) == [] {
      NothingFollows(live, op, back, clock);
    } else {
      OneFollows(live, op, back, clock);
    }
  }

  lemma EngineFollows(live: Router, ev: Event, back: Router, clock: seq<Time>)
    requires Follows(live, back) && Indexed(live.engine, ev) && IndexOk(live.engine) && |clock| == |Emitted(live.engine, ev)|
    ensures Follows(RouterStep(live, OnEngine(ev)), RouterReplayAll(back, RouterEmitted(live, OnEngine(ev)), clock))
  {
    hide TablesAgree, Step, Emitted, RouterReplayAll, Follows, RouterMeta;
    EngineJournals(live.engine, ev);
    EngineRecords(live, back, Emitted(live.engine, ev), clock);
    EngineAside(live, RouterStep(live, OnEngine(ev)), RouterReplayAll(back, Emitted(live.engine, ev), clock));
  }

  lemma EngineAside(live: Router, live': Router, back: Router)
    requires Follows(live, back) && live'.exchanges == live.exchanges && live'.bindings == live.bindings
    ensures Follows(live', back)
  {
  }

  lemma NothingFollows(live: Router, op: RouterOp, back: Router, clock: seq<Time>)
    requires Follows(live, back) && RouterCan(live, op) && !op.OnEngine? && RouterEmitted(live, op) == [] && clock == []
    ensures Follows(RouterStep(live, op), RouterReplayAll(back, RouterEmitted(live, op), clock))
  {
    hide Apply, Follows;
  }

  lemma OneFollows(live: Router, op: RouterOp, back: Router, clock: seq<Time>)
    requires Follows(live, back) && RouterCan(live, op) && !op.OnEngine? && RouterEmitted(live, op) != []
    requires |clock| == |RouterEmitted(live, op)|
    ensures Follows(RouterStep(live, op), RouterReplayAll(back, RouterEmitted(live, op), clock))
  {
    hide Apply, RouterReplayAll, RouterApply;
    var rec := RouterEmitted(live, op)[0];
    assert RouterEmitted(live, op) == [rec];
    RouterReplayOne(back, rec, clock);
    RecordFollows(live, op, back, rec, clock[0]);
  }

  lemma RouterReplayOne(r: Router, rec: Rec, clock: seq<Time>)
    requires |clock| == 1
    ensures RouterReplayAll(r, [rec], clock) == RouterApply(r, rec, clock[0])
  {
    hide RouterApply;
  }

  lemma RecordFollows(live: Router, op: RouterOp, back: Router, rec: Rec, now: Time)
    requires Follows(live, back) && RouterCan(live, op) && !op.OnEngine? && RouterEmitted(live, op) == [rec]
    ensures Follows(RouterStep(live, op), RouterApply(back, rec, now))
  {
    hide Declare;
    if op.MakeBinding? {
      DeclareKeepsQueues(back.engine, op.b.queue, DEFAULT_ARGS, false);
    }
  }

  // ----- whole runs -----

  ghost predicate RouterCanAll(r: Router, ops: seq<RouterOp>)
    decreases |ops|
  {
    ops == [] || (RouterCan(r, ops[0]) && RouterCanAll(RouterStep(r, ops[0]), ops[1..]))
  }

  ghost function RouterRun(r: Router, ops: seq<RouterOp>): Router
    requires RouterCanAll(r, ops)
    decreases |ops|
  {
    if ops == [] then r else RouterRun(RouterStep(r, ops[0]), ops[1..])
  }

  /** A router on an empty engine. */
  function NewRouter(cfg: Config): Router {
    DeclareExchange(Router(Init(cfg), map[], {}), DEFAULT_EXCHANGE, Direct, true, false)
  }

  lemma RouterIndex(r: Router, op: RouterOp)
    requires RouterCan(r, op) && IndexOk(r.engine)
    ensures IndexOk(RouterStep(r, op).engine)
  {
    hide TablesAgree, Step;
    if op.OnEngine? {
      StepIndex(r.engine, op.ev);
    } else {
      RouterJournals(r, op);
      if RouterStep(r, op).engine != r.engine {
        var meta :| RouterStep(r, op).engine == Log(r.engine, meta, [], true);
        LogIndex(r.engine, meta);
      }
    }
  }

  lemma LogIndex(s: State, meta: Meta)
    requires IndexOk(s)
    ensures IndexOk(Log(s, meta, [], true))
  {
  }

  lemma {:induction false} RunFollows(cfg: Config, live: Router, ops: seq<RouterOp>, clock: seq<Time>)
    requires IndexOk(live.engine) && RouterCanAll(live, ops) && |clock| == |RouterRun(live, ops).engine.journal|
    requires forall t: seq<Time> :: |t| == |live.engine.journal| ==> Follows(live, RouterReplayAll(NewRouter(cfg), live.engine.journal, t))
    ensures Follows(RouterRun(live, ops), RouterReplayAll(NewRouter(cfg), RouterRun(live, ops).engine.journal, clock))
    decreases |ops|
  {
    hide IndexOk, RouterCan, RouterStep, RouterEmitted, RouterReplayAll, Follows, NewRouter;
    if ops != [] {
      var op := ops[0];
      var live' := RouterStep(live, op);
      RouterIndex(live, op);
      RouterJournals(live, op);
      forall t: seq<Time> | |t| == |live'.engine.journal|
        ensures Follows(live', RouterReplayAll(NewRouter(cfg), live'.engine.journal, t))
      {
        var n := |live.engine.journal|;
        RouterReplayConcat(NewRouter(cfg), live.engine.journal, RouterEmitted(live, op), t);
        StepFollows(live, op, RouterReplayAll(NewRouter(cfg), live.engine.journal, t[..n]), t[n..]);
      }
      RunFollows(cfg, live', ops[1..], clock);
    }
  }

  /** The router survives a restart that replays its whole journal: after any run, of any operations on queues,
      exchanges and bindings, the replaying router has the same exchanges and every binding, and what it has
      besides are bindings of queues under their own name to the default exchange. */
  lemma RouterSurvives(cfg: Config, ops: seq<RouterOp>, clock: seq<Time>)
    requires RouterCanAll(NewRouter(cfg), ops) && |clock| == |RouterRun(NewRouter(cfg), ops).engine.journal|
    ensures
      var live := RouterRun(NewRouter(cfg), ops);
      var back := RouterReplayAll(NewRouter(cfg), live.engine.journal, clock);
      && back.exchanges == live.exchanges && live.bindings <= back.bindings
      && forall b :: b in back.bindings && b !in live.bindings ==> Own(b)
  {
    hide RouterCanAll, RouterRun, RouterReplayAll;
    forall t: seq<Time> | |t| == 0
      ensures Follows(NewRouter(cfg), RouterReplayAll(NewRouter(cfg), [], t))
    {
      NewFollows(cfg, t);
    }
    RunFollows(cfg, NewRouter(cfg), ops, clock);
  }

  lemma NewFollows(cfg: Config, t: seq<Time>)
    requires |t| == 0
    ensures Follows(NewRouter(cfg), RouterReplayAll(NewRouter(cfg), [], t))
  {
  }

  /** It can have more: a restart binds the dead-letter queue of every queue that was declared with a record,
      which the live router does not. */
  lemma DeadLettersBound(cfg: Config, n: QName, now: Time, clock: seq<Time>)
    requires !IsDlq(n) && |clock| == 2
    ensures
      var live := RouterStep(NewRouter(cfg), OnEngine(Event(DoDeclare(n, DEFAULT_ARGS), now)));
      var own := Binding(DEFAULT_EXCHANGE, DlqName(n), DlqName(n));
      && |live.engine.journal| == 2 && own !in live.bindings
      && own in RouterReplayAll(NewRouter(cfg), live.engine.journal, clock).bindings
  {
    hide IsDlq, Declare, Apply, RouterReplayAll, RouterApply;
    var s := Declare(Init(cfg), n, DEFAULT_ARGS, true);
    var recs := DeclareRecs(Init(cfg), n, DEFAULT_ARGS);
    DeclareJournal(Init(cfg), n, DEFAULT_ARGS);
    assert recs == [recs[0], recs[1]] && Init(cfg).journal + recs == recs;
    var first := RouterApply(NewRouter(cfg), recs[0], clock[0]);
    DeclareBinds(NewRouter(cfg), recs[0], clock[0]);
    assert [recs[0]] + [recs[1]] == recs;
    RouterReplayConcat(NewRouter(cfg), [recs[0]], [recs[1]], clock);
    RouterReplayOne(NewRouter(cfg), recs[0], clock[..1]);
    RouterReplayOne(first, recs[1], clock[1..]);
    DeclareBinds(first, recs[1], clock[1]);
    assert RouterReplayAll(NewRouter(cfg), recs, clock) == RouterApply(first, recs[1], clock[1]);
  }

  lemma DeclareBinds(r: Router, rec: Rec, now: Time)
    requires rec.meta.QueueDeclare? && DEFAULT_EXCHANGE in r.exchanges
    ensures RouterApply(r, rec, now).exchanges == r.exchanges
    ensures RouterApply(r, rec, now).bindings == r.bindings + {Binding(DEFAULT_EXCHANGE, rec.meta.name, rec.meta.name)}
  {
    hide Declare;
    var a := DeclareArgs(rec.meta.durable, rec.meta.maxLength, Some(rec.meta.visibilityTimeout), Some(rec.meta.maxAttempts),
                         rec.meta.deadLetter);
    DeclareKeepsQueues(r.engine, rec.meta.name, a, false);
  }

  // ----- snapshots -----

  lemma RestoredExchanges(r: Router, list: seq<Exchange>, all: map<string, Exchange>)
    requires forall x :: x in r.exchanges ==> x in all && all[x] == r.exchanges[x]
    requires forall e :: e in list ==> e.name in all && all[e.name] == e
    ensures
      var r' := RestoreExchanges(r, list);
      && r'.engine == r.engine && r'.bindings == r.bindings
      && (forall x :: x in r'.exchanges ==> x in all && all[x] == r'.exchanges[x])
      && (forall x :: x in r.exchanges ==> x in r'.exchanges) && (forall e :: e in list ==> e.name in r'.exchanges)
    decreases |list|
  {
    if list != [] {
      assert list[0] in list && forall e :: e in list[1..] ==> e in list;
      assert list == [list[0]] + list[1..];
      RestoredExchanges(DeclareExchange(r, list[0].name, list[0].kind, list[0].durable, false), list[1..], all);
    }
  }

  lemma RestoredBindings(r: Router, list: seq<Binding>)
    requires forall b :: b in list ==> b.exchange in r.exchanges
    ensures
      var r' := RestoreBindings(r, list);
      && r'.engine == r.engine && r'.exchanges == r.exchanges
      && forall b :: b in r'.bindings <==> b in r.bindings || (b in list && b.queue in r.engine.queues)
    decreases |list|
  {
    if list != [] {
      assert list[0] in list && forall b :: b in list[1..] ==> b in list;
      assert list == [list[0]] + list[1..];
      RestoredBindings(BindQueue(r, list[0], false).0, list[1..]);
    }
  }

  /** Restoring a snapshot gives back every exchange, and exactly those bindings whose queue exists. */
  lemma RouterRoundTrip(live: Router, saved: SavedRouter, engine: State)
    requires RouterOk(live) && IsSavedRouter(live, saved) && engine.queues.Keys == live.engine.queues.Keys
    ensures
      var back := RestoreRouter(Router(engine, map[], {}), saved);
      && back.engine == engine && back.exchanges == live.exchanges
      && forall b :: b in back.bindings <==> b in live.bindings && b.queue in live.engine.queues
  {
    hide RestoreExchanges, RestoreBindings;
    var r0 := DeclareExchange(Router(engine, map[], {}), DEFAULT_EXCHANGE, Direct, true, false);
    RestoredExchanges(r0, saved.exchanges, live.exchanges);
    var r1 := RestoreExchanges(r0, saved.exchanges);
    forall x | x in live.exchanges
      ensures x in r1.exchanges && r1.exchanges[x] == live.exchanges[x]
    {
      assert live.exchanges[x] in saved.exchanges;
    }
    assert r1.exchanges == live.exchanges;
    RestoredBindings(r1, saved.bindings);
    forall n
      ensures n in engine.queues <==> n in live.engine.queues
    {
      assert n in engine.queues.Keys <==> n in live.engine.queues.Keys;
    }
  }

  /** So the restored router follows the live one if and only if no binding is left of a deleted queue. Such a
      binding works again once its queue is declared anew, but not after a snapshot and a restart. */
  lemma SavedFollowsIff(live: Router, saved: SavedRouter, engine: State)
    requires RouterOk(live) && IsSavedRouter(live, saved) && engine.queues.Keys == live.engine.queues.Keys
    ensures Follows(live, RestoreRouter(Router(engine, map[], {}), saved)) <==>
            forall b :: b in live.bindings ==> b.queue in live.engine.queues
  {
    hide RestoreRouter, IsSavedRouter;
    RouterRoundTrip(live, saved, engine);
  }

  lemma FollowsItself(r: Router)
    requires RouterOk(r)
    ensures Follows(r, r)
  {
    hide RouterOk;
  }

  /** That is how a binding gets lost: its queue is deleted, a snapshot is taken, and the queue is declared
      again. The live router sends to the queue, the one that restarts does not. */
  lemma RevivedBindingLost(live: Router, saved: SavedRouter, engine: State, b: Binding, now: Time, clock: seq<Time>)
    requires RouterOk(live) && IsSavedRouter(live, saved) && engine.queues.Keys == live.engine.queues.Keys
    requires b in live.bindings && b.queue !in live.engine.queues && !Own(b)
    requires |clock| == |DeclareRecs(live.engine, b.queue, DEFAULT_ARGS)|
    ensures
      var live' := RouterStep(live, OnEngine(Event(DoDeclare(b.queue, DEFAULT_ARGS), now)));
      var recs := DeclareRecs(live.engine, b.queue, DEFAULT_ARGS);
      var back := RouterReplayAll(RestoreRouter(Router(engine, map[], {}), saved), recs, clock);
      && live'.engine.journal == live.engine.journal + recs
      && b.queue in Bound(live', b.exchange, b.routingKey) && b.queue in live'.engine.queues
      && b !in back.bindings
  {
    hide IsSavedRouter, RestoreRouter, RouterReplayAll, DeclareRecs, Declare, RouterMeta, Own;
    var back := RestoreRouter(Router(engine, map[], {}), saved);
    RouterRoundTrip(live, saved, engine);
    FollowsItself(back);
    DeclareNotRouter(live.engine, b.queue, DEFAULT_ARGS);
    EngineRecords(back, back, DeclareRecs(live.engine, b.queue, DEFAULT_ARGS), clock);
    DeclareJournal(live.engine, b.queue, DEFAULT_ARGS);
    DeclareKeepsQueues(live.engine, b.queue, DEFAULT_ARGS, true);
  }

  /** A new broker reaches such a binding: a queue is declared, bound to an exchange and deleted. */
  lemma RevivedBindingReached(cfg: Config, n: QName, x: string, key: string, kind: Kind, now: Time, saved: SavedRouter,
                              engine: State, clock: seq<Time>)
    requires !IsDlq(n) && x != DEFAULT_EXCHANGE
    ensures
      var b := Binding(x, n, key);
      var ops := [OnEngine(Event(DoDeclare(n, DEFAULT_ARGS), now)), MakeExchange(x, kind, true), MakeBinding(b),
                  OnEngine(Event(DoDelete(n), now))];
      && RouterCanAll(NewRouter(cfg), ops)
      && var live := RouterRun(NewRouter(cfg), ops);
      var live' := RouterStep(live, OnEngine(Event(DoDeclare(n, DEFAULT_ARGS), now)));
      var recs := DeclareRecs(live.engine, n, DEFAULT_ARGS);
      && b in live'.bindings && n in live'.engine.queues && live'.engine.journal == live.engine.journal + recs
      && (IsSavedRouter(live, saved) && engine.queues.Keys == live.engine.queues.Keys && |clock| == |recs| ==>
            b !in RouterReplayAll(RestoreRouter(Router(engine, map[], {}), saved), recs, clock).bindings)
  {
    hide IsDlq, Declare, Delete, DeclareRecs, IsSavedRouter, RestoreRouter, RouterReplayAll;
    var b := Binding(x, n, key);
    var r1 := NewRouter(cfg).(engine := Declare(Init(cfg), n, DEFAULT_ARGS, true));
    DeclareKeepsQueues(Init(cfg), n, DEFAULT_ARGS, true);
    var r3 := BindQueue(DeclareExchange(r1, x, kind, true, true), b, true).0;
    var live := r3.(engine := Delete(r3.engine, n, true).0);
    FourOps(NewRouter(cfg), n, x, kind, b, now);
    DeletedGone(r3.engine, n);
    DeclareJournal(live.engine, n, DEFAULT_ARGS);
    DeclareKeepsQueues(live.engine, n, DEFAULT_ARGS, true);
    if IsSavedRouter(live, saved) && engine.queues.Keys == live.engine.queues.Keys && |clock| == |DeclareRecs(live.engine, n, DEFAULT_ARGS)| {
      RevivedBindingLost(live, saved, engine, b, now, clock);
    }
  }

  lemma FourOps(r: Router, n: QName, x: string, kind: Kind, b: Binding, now: Time)
    ensures
      var ops := [OnEngine(Event(DoDeclare(n, DEFAULT_ARGS), now)), MakeExchange(x, kind, true), MakeBinding(b),
                  OnEngine(Event(DoDelete(n), now))];
      var r1 := r.(engine := Declare(r.engine, n, DEFAULT_ARGS, true));
      var r3 := BindQueue(DeclareExchange(r1, x, kind, true, true), b, true).0;
      RouterCanAll(r, ops) && RouterRun(r, ops) == r3.(engine := Delete(r3.engine, n, true).0)
  {
    hide Declare, Delete;
    var ops := [OnEngine(Event(DoDeclare(n, DEFAULT_ARGS), now)), MakeExchange(x, kind, true), MakeBinding(b),
                OnEngine(Event(DoDelete(n), now))];
    assert ops[1..] == [ops[1], ops[2], ops[3]] && ops[1..][1..] == [ops[2], ops[3]] && ops[1..][1..][1..] == [ops[3]];
    assert [ops[3]][1..] == [];
    var r1 := RouterStep(r, ops[0]);
    var r2 := RouterStep(r1, ops[1]);
    var r3 := RouterStep(r2, ops[2]);
    assert RouterCanAll(r3, [ops[3]]) && RouterRun(r3, [ops[3]]) == RouterStep(r3, ops[3]);
    assert RouterCanAll(r2, [ops[2], ops[3]]) && RouterRun(r2, [ops[2], ops[3]]) == RouterRun(r3, [ops[3]]);
    assert RouterCanAll(r1, ops[1..]) && RouterRun(r1, ops[1..]) == RouterRun(r2, [ops[2], ops[3]]);
  }

  lemma DeletedGone(s: State, n: QName)
    ensures n !in Delete(s, n, true).0.queues
    decreases |s.queues|
  {
    hide IsDlq;
    if n in s.queues {
      DeleteShrinks(Log(DeleteOne(s, n), QueueDelete(n), [], true), DlqName(n));
    }
  }

  lemma DeleteShrinks(s: State, n: QName)
    ensures Delete(s, n, true).0.queues.Keys <= s.queues.Keys
    decreases |s.queues|
  {
    hide IsDlq, DlqName;
    if n in s.queues && s.queues[n].spec.deadLetter {
      var s1 := DeleteOne(s, n);
      assert s.queues.Keys == s1.queues.Keys + {n};
      DeleteShrinks(Log(s1, QueueDelete(n), [], true), DlqName(n));
    }
  }
}
