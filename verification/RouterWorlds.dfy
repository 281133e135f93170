/** The router together with the broker and its disk, over any number of lifetimes. */
module RouterWorlds {
  import opened Types
  import opened Journal
  import opened Engine
  import opened Index
  import opened Runs
  import opened Snapshot
  import opened Replay
  import opened Recovery
  import opened Restoring
  import opened Restarts
  import opened Crashes
  import W = Worlds
  import opened Routing
  import opened RouterReplay
  import opened RouterBindings

  // ----- recovering the router -----

  /** The router of the snapshot, on the engine of the snapshot. */
  function BaseRouter(cfg: Config, base: Option<Saved>, saved: Option<SavedRouter>, now: Time): Router {
    var r := NewRouter(cfg).(engine := W.Base(cfg, base, now));
    if saved.Some? then RestoreRouter(r, saved.value) else r
  }

  /** The router and the engine before the tick that ends recovery. */
  function Back(cfg: Config, disk: W.Disk, saved: Option<SavedRouter>, now: Time, clock: seq<Time>): Router
    requires |clock| == |disk.log|
  {
    RouterReplayAll(BaseRouter(cfg, disk.base, saved, now), disk.log, clock)
  }

  /** The state that recovery ends in. */
  function Recovered(cfg: Config, disk: W.Disk, saved: Option<SavedRouter>, c: W.Clocks): Router
    requires |c.replay| == |disk.log|
  {
    var r := Back(cfg, disk, saved, c.restore, c.replay);
    r.(engine := Tick(r.engine, c.tick, c.now))
  }

  lemma RestoreEngine(r: Router, saved: SavedRouter)
    ensures RestoreRouter(r, saved).engine == r.engine
  {
    hide RestoreExchanges, RestoreBindings;
    var r0 := DeclareExchange(Router(r.engine, map[], {}), DEFAULT_EXCHANGE, Direct, true, false);
    ExchangesEngine(r0, saved.exchanges);
    BindingsEngine(RestoreExchanges(r0, saved.exchanges), saved.bindings);
  }

  lemma ExchangesEngine(r: Router, list: seq<Exchange>)
    ensures RestoreExchanges(r, list).engine == r.engine
    decreases |list|
  {
  }

  lemma BindingsEngine(r: Router, list: seq<Binding>)
    ensures RestoreBindings(r, list).engine == r.engine
    decreases |list|
  {
  }

  lemma BaseEngine(cfg: Config, base: Option<Saved>, saved: Option<SavedRouter>, now: Time)
    ensures BaseRouter(cfg, base, saved, now).engine == W.Base(cfg, base, now)
  {
    hide W.Base, RestoreRouter;
    if saved.Some? {
      RestoreEngine(NewRouter(cfg).(engine := W.Base(cfg, base, now)), saved.value);
    }
  }

  /** The recovered engine is the one that the theorems about crashes and restarts speak of. */
  lemma RecoveredEngine(cfg: Config, disk: W.Disk, saved: Option<SavedRouter>, c: W.Clocks)
    requires |c.replay| == |disk.log|
    ensures Back(cfg, disk, saved, c.restore, c.replay).engine == W.Replayed(cfg, disk, c.restore, c.replay)
    ensures Recovered(cfg, disk, saved, c).engine == W.Recovered(cfg, disk, c)
  {
    hide W.Base, ReplayAll, Tick, RouterReplayAll, BaseRouter;
    BaseEngine(cfg, disk.base, saved, c.restore);
    RouterReplayEngine(BaseRouter(cfg, disk.base, saved, c.restore), disk.log, c.replay);
  }

  // ----- what every replay keeps -----

  lemma ExchangesOk(r: Router, list: seq<Exchange>)
    requires RouterOk(r)
    ensures RouterOk(RestoreExchanges(r, list))
    decreases |list|
  {
  }

  lemma BindingsOk(r: Router, list: seq<Binding>)
    requires RouterOk(r)
    ensures RouterOk(RestoreBindings(r, list))
    decreases |list|
  {
  }

  lemma BaseOk(cfg: Config, base: Option<Saved>, saved: Option<SavedRouter>, now: Time)
    ensures RouterOk(BaseRouter(cfg, base, saved, now))
  {
    hide W.Base, RestoreExchanges, RestoreBindings;
    if saved.Some? {
      var r0 := DeclareExchange(Router(W.Base(cfg, base, now), map[], {}), DEFAULT_EXCHANGE, Direct, true, false);
      ExchangesOk(r0, saved.value.exchanges);
      BindingsOk(RestoreExchanges(r0, saved.value.exchanges), saved.value.bindings);
    }
  }

  lemma ApplyOk(r: Router, rec: Rec, now: Time)
    requires RouterOk(r)
    ensures RouterOk(RouterApply(r, rec, now))
  {
    hide Apply;
  }

  lemma {:induction false} ReplayOk(r: Router, recs: seq<Rec>, clock: seq<Time>)
    requires RouterOk(r) && |clock| == |recs|
    ensures RouterOk(RouterReplayAll(r, recs, clock))
    decreases |recs|
  {
    hide RouterOk, RouterApply;
    if recs != [] {
      ApplyOk(r, recs[0], clock[0]);
      ReplayOk(RouterApply(r, recs[0], clock[0]), recs[1..], clock[1..]);
    }
  }

  // ----- the clock does not matter -----

  /** The same exchanges and bindings, and the same queues. */
  ghost predicate Alike(a: Router, b: Router) {
    b.exchanges == a.exchanges && b.bindings == a.bindings && Twins(a.engine, b.engine)
  }

  lemma ApplyAlike(a: Router, b: Router, rec: Rec, t: Time, t': Time)
    requires Alike(a, b) && Roomy(a.engine) && Roomy(b.engine) && IndexOk(a.engine) && IndexOk(b.engine)
    requires Idle(a.engine.queues) && Idle(b.engine.queues)
    ensures Alike(RouterApply(a, rec, t), RouterApply(b, rec, t'))
  {
    hide Apply, Twins, Roomy, TablesAgree, Idle;
    ApplyTwins(a.engine, b.engine, rec, t, t');
    SameNames(a.engine, b.engine);
    SameNames(Apply(a.engine, rec, t), Apply(b.engine, rec, t'));
    RouterApplyEngine(a, rec, t);
    RouterApplyEngine(b, rec, t');
  }

  lemma SameNames(a: State, b: State)
    requires Twins(a, b)
    ensures forall n :: n in a.queues <==> n in b.queues
  {
    hide Restarts.Alike;
    assert a.queues.Keys == b.queues.Keys;
    forall n
      ensures n in a.queues <==> n in b.queues
    {
      assert n in a.queues.Keys <==> n in b.queues.Keys;
    }
  }

  lemma {:induction false} ReplayAlike(a: Router, b: Router, recs: seq<Rec>, clock: seq<Time>, clock': seq<Time>)
    requires Alike(a, b) && Roomy(a.engine) && Roomy(b.engine) && IndexOk(a.engine) && IndexOk(b.engine)
    requires Idle(a.engine.queues) && Idle(b.engine.queues)
    requires |clock| == |clock'| == |recs| && forall rec :: rec in recs ==> Unlimited(rec)
    ensures Alike(RouterReplayAll(a, recs, clock), RouterReplayAll(b, recs, clock'))
    decreases |recs|
  {
    hide IndexOk, Idle, Roomy, Alike, RouterApply, Apply, Unlimited;
    if recs != [] {
      assert recs[0] in recs && forall rec :: rec in recs[1..] ==> rec in recs;
      ApplyContinues(a.engine, recs[0], clock[0]);
      ApplyContinues(b.engine, recs[0], clock'[0]);
      RouterApplyEngine(a, recs[0], clock[0]);
      RouterApplyEngine(b, recs[0], clock'[0]);
      ApplyAlike(a, b, recs[0], clock[0], clock'[0]);
      ReplayAlike(RouterApply(a, recs[0], clock[0]), RouterApply(b, recs[0], clock'[0]), recs[1..], clock[1..], clock'[1..]);
    }
  }

  lemma ExchangesAlike(a: Router, b: Router, list: seq<Exchange>)
    requires Alike(a, b)
    ensures Alike(RestoreExchanges(a, list), RestoreExchanges(b, list))
    decreases |list|
  {
    hide Twins;
    if list != [] {
      ExchangesAlike(DeclareExchange(a, list[0].name, list[0].kind, list[0].durable, false),
                     DeclareExchange(b, list[0].name, list[0].kind, list[0].durable, false), list[1..]);
    }
  }

  lemma BindingsAlike(a: Router, b: Router, list: seq<Binding>)
    requires Alike(a, b)
    ensures Alike(RestoreBindings(a, list), RestoreBindings(b, list))
    decreases |list|
  {
    hide Twins;
    if list != [] {
      SameNames(a.engine, b.engine);
      BindingsAlike(BindQueue(a, list[0], false).0, BindQueue(b, list[0], false).0, list[1..]);
    }
  }

  lemma BaseAlike(cfg: Config, base: Option<Saved>, saved: Option<SavedRouter>, t: Time, t': Time)
    requires W.BaseOk(cfg, base)
    ensures Alike(BaseRouter(cfg, base, saved, t), BaseRouter(cfg, base, saved, t'))
  {
    hide W.Base, W.BaseOk, RestoreExchanges, RestoreBindings, Twins;
    W.BaseTwins(cfg, base, t, t');
    if saved.Some? {
      var a := DeclareExchange(Router(W.Base(cfg, base, t), map[], {}), DEFAULT_EXCHANGE, Direct, true, false);
      var b := DeclareExchange(Router(W.Base(cfg, base, t'), map[], {}), DEFAULT_EXCHANGE, Direct, true, false);
      ExchangesAlike(a, b, saved.value.exchanges);
      BindingsAlike(RestoreExchanges(a, saved.value.exchanges), RestoreExchanges(b, saved.value.exchanges), saved.value.bindings);
    }
  }

  /** Two recoveries of the same disk, at different times, give the same exchanges and bindings. */
  lemma BackAlike(cfg: Config, disk: W.Disk, saved: Option<SavedRouter>, t: Time, clock: seq<Time>, t': Time, clock': seq<Time>)
    requires W.BaseOk(cfg, disk.base) && cfg.maxLength == None && |clock| == |clock'| == |disk.log|
    requires forall rec :: rec in disk.log ==> Unlimited(rec)
    ensures Alike(Back(cfg, disk, saved, t, clock), Back(cfg, disk, saved, t', clock'))
  {
    hide IndexOk, Idle, Roomy, Alike, W.BaseOk, W.Base, BaseRouter, RouterReplayAll, Unlimited;
    W.BaseFacts(cfg, disk.base, t);
    W.BaseFacts(cfg, disk.base, t');
    BaseEngine(cfg, disk.base, saved, t);
    BaseEngine(cfg, disk.base, saved, t');
    BaseAlike(cfg, disk.base, saved, t, t');
    ReplayAlike(BaseRouter(cfg, disk.base, saved, t), BaseRouter(cfg, disk.base, saved, t'), disk.log, clock, clock');
  }

  // ----- histories -----

  /** The broker, its disk and its router, and the router's part of the snapshot. "lost" are the bindings that were
      left of deleted queues when the snapshot was taken and were not made again since. */
  datatype RouterWorld = RouterWorld(w: W.World, r: Router, saved: Option<SavedRouter>, lost: set<Binding>)

  datatype Incident =
    | Operate(op: RouterOp)
    | Flush(upTo: nat)
    | Store(saved: Saved, router: SavedRouter)
    | Fail(kept: nat, clocks: W.Clocks)

  /** The bindings left of queues that were deleted. */
  function Dangling(r: Router): set<Binding> {
    set b | b in r.bindings && b.queue !in r.engine.queues
  }

  function LostAfter(r: Router, op: RouterOp, lost: set<Binding>): set<Binding> {
    if op.MakeBinding? && op.b.exchange in r.exchanges && op.b.queue in r.engine.queues then lost - {op.b} else lost
  }

  ghost predicate CanHappen(x: RouterWorld, h: Incident) {
    match h
    case Operate(op) =>
      RouterCan(x.r, op) && (op.OnEngine? ==> W.Possible(x.w, W.Work(op.ev)))
    case Flush(upTo) => W.Possible(x.w, W.Sync(upTo))
    case Store(saved, router) => W.Possible(x.w, W.Save(saved)) && IsSavedRouter(x.r, router)
    case Fail(kept, c) => W.Possible(x.w, W.Crash(kept, c))
  }

  /** What the router's step is for the broker: work, a record, or nothing. */
  ghost function Operated(x: RouterWorld, op: RouterOp): W.World
    requires CanHappen(x, Operate(op))
  {
    W.World(RouterStep(x.r, op).engine, W.Disk(x.w.disk.base, x.w.disk.log + RouterEmitted(x.r, op)), x.w.durable,
            x.w.used + if op.OnEngine? then Crashes.Published(op.ev) else {})
  }

  ghost function AfterIncident(x: RouterWorld, h: Incident): RouterWorld
    requires CanHappen(x, h)
  {
    match h
    case Operate(op) => RouterWorld(Operated(x, op), RouterStep(x.r, op), x.saved, LostAfter(x.r, op, x.lost))
    case Flush(upTo) => x.(w := W.After(x.w, W.Sync(upTo)))
    case Store(saved, router) => RouterWorld(W.After(x.w, W.Save(saved)), x.r, Some(router), Dangling(x.r))
    case Fail(kept, c) =>
      RouterWorld(W.After(x.w, W.Crash(kept, c)), Recovered(x.w.live.cfg, W.Cut(x.w.disk, kept), x.saved, c), x.saved, {})
  }

  /** The router without the lost bindings. */
  function Remaining(r: Router, lost: set<Binding>): Router {
    r.(bindings := r.bindings - lost)
  }

  /** Whatever the clock says, recovering the whole log gives a router that follows the live one. */
  ghost predicate Followed(x: RouterWorld) {
    forall t, clock ::
      |clock| == |x.w.disk.log| ==> Follows(Remaining(x.r, x.lost), Back(x.w.live.cfg, x.w.disk, x.saved, t, clock))
  }

  ghost predicate RouterWorldOk(x: RouterWorld) {
    W.WorldOk(x.w) && x.r.engine == x.w.live && RouterOk(x.r) && Followed(x)
  }

  /** An operation of the router is work, a record of the router, or nothing, for the broker. */
  lemma OperatedOk(x: RouterWorld, op: RouterOp)
    requires RouterWorldOk(x) && CanHappen(x, Operate(op))
    ensures W.WorldOk(Operated(x, op)) && IndexOk(x.w.live) && Operated(x, op).live.cfg == x.w.live.cfg
  {
    hide TablesAgree, Followed, Step, Emitted, W.Torn, W.Exact, W.BaseOk, Roomy, Unlimited, W.Written, Follows;
    RouterJournals(x.r, op);
    if op.OnEngine? {
      W.WorkOk(x.w, op.ev);
      W.WorkExact(x.w, op.ev);
    } else if RouterEmitted(x.r, op) == [] {
      assert x.w.disk.log + [] == x.w.disk.log;
      assert Operated(x, op) == x.w;
    } else {
      var meta :| RouterEmitted(x.r, op) == [Rec(meta, [])] && Routed(x.r.engine, meta)
                  && RouterStep(x.r, op).engine == Log(x.r.engine, meta, [], true);
      W.RouteOk(x.w, meta);
      assert x.w.used + {} == x.w.used;
    }
  }

  lemma BackMore(cfg: Config, base: Option<Saved>, log: seq<Rec>, more: seq<Rec>, saved: Option<SavedRouter>, t: Time,
                 clock: seq<Time>)
    requires |clock| == |log| + |more|
    ensures Back(cfg, W.Disk(base, log + more), saved, t, clock) ==
            RouterReplayAll(Back(cfg, W.Disk(base, log), saved, t, clock[..|log|]), more, clock[|log|..])
  {
    hide BaseRouter, RouterReplayAll;
    RouterReplayConcat(BaseRouter(cfg, base, saved, t), log, more, clock);
  }

  /** An operation of the router, up to the lost bindings. */
  lemma StepFollowsKept(live: Router, op: RouterOp, back: Router, clock: seq<Time>, lost: set<Binding>)
    requires Follows(Remaining(live, lost), back) && RouterCan(live, op) && IndexOk(live.engine)
    requires |clock| == |RouterEmitted(live, op)|
    ensures Follows(Remaining(RouterStep(live, op), LostAfter(live, op, lost)), RouterReplayAll(back, RouterEmitted(live, op), clock))
  {
    hide TablesAgree, Step, Emitted, RouterReplayAll, Follows;
    var kept := Remaining(live, lost);
    if op.DropBinding? && op.b in live.bindings && op.b in lost {
      RouterReplayOne(back, RouterEmitted(live, op)[0], clock);
      UnbindLost(live, op.b, back, clock[0], lost);
    } else {
      StepFollows(kept, op, back, clock);
      assert RouterStep(kept, op).bindings == Remaining(RouterStep(live, op), LostAfter(live, op, lost)).bindings;
      SameFollows(RouterStep(kept, op), Remaining(RouterStep(live, op), LostAfter(live, op, lost)),
                  RouterReplayAll(back, RouterEmitted(live, op), clock));
    }
  }

  lemma SameFollows(a: Router, b: Router, back: Router)
    requires Follows(a, back) && b.exchanges == a.exchanges && b.bindings == a.bindings
    ensures Follows(b, back)
  {
  }

  /** Removing a lost binding. */
  lemma UnbindLost(live: Router, b: Binding, back: Router, now: Time, lost: set<Binding>)
    requires Follows(Remaining(live, lost), back) && b in live.bindings && b in lost
    ensures Follows(Remaining(UnbindQueue(live, b, true).0, lost),
                    RouterApply(back, Rec(Unbind(b.exchange, b.queue, b.routingKey), []), now))
  {
  }

  lemma OperatedFollowed(x: RouterWorld, op: RouterOp)
    requires RouterWorldOk(x) && CanHappen(x, Operate(op))
    ensures RouterWorldOk(AfterIncident(x, Operate(op)))
  {
    hide W.WorldOk, Follows, RouterStep, RouterCan, Back, TablesAgree, RouterOk, RouterEmitted, Remaining, LostAfter;
    OperatedOk(x, op);
    var cfg := x.w.live.cfg;
    var log := x.w.disk.log;
    var more := RouterEmitted(x.r, op);
    StepOk(x.r, op);
    assert W.Disk(x.w.disk.base, log) == x.w.disk;
    forall t, clock: seq<Time> | |clock| == |log| + |more|
      ensures Follows(Remaining(RouterStep(x.r, op), LostAfter(x.r, op, x.lost)),
                      Back(cfg, W.Disk(x.w.disk.base, log + more), x.saved, t, clock))
    {
      BackMore(cfg, x.w.disk.base, log, more, x.saved, t, clock);
      StepFollowsKept(x.r, op, Back(cfg, x.w.disk, x.saved, t, clock[..|log|]), clock[|log|..], x.lost);
    }
  }

  lemma StepOk(r: Router, op: RouterOp)
    requires RouterOk(r) && RouterCan(r, op)
    ensures RouterOk(RouterStep(r, op))
  {
    hide Step;
  }

  lemma FlushFollowed(x: RouterWorld, upTo: nat)
    requires RouterWorldOk(x) && CanHappen(x, Flush(upTo))
    ensures RouterWorldOk(AfterIncident(x, Flush(upTo)))
  {
    hide W.WorldOk, Follows, Back, RouterOk;
    W.SyncOk(x.w, upTo);
  }

  lemma StoreFollowed(x: RouterWorld, saved: Saved, router: SavedRouter)
    requires RouterWorldOk(x) && CanHappen(x, Store(saved, router))
    ensures RouterWorldOk(AfterIncident(x, Store(saved, router)))
  {
    hide W.WorldOk, Follows, RouterOk, IsSnapshot, IsSavedRouter, RestoreRouter, W.Base, NewRouter;
    W.SaveOk(x.w, saved);
    var cfg := x.w.live.cfg;
    forall t, clock: seq<Time> | |clock| == 0
      ensures Follows(Remaining(x.r, Dangling(x.r)), Back(cfg, W.Disk(Some(saved), []), Some(router), t, clock))
    {
      StoredKeys(x.w, saved, t);
      RestoreAnyway(NewRouter(cfg).(engine := W.Base(cfg, Some(saved), t)), router);
      SavedFollowsKept(x.r, router, W.Base(cfg, Some(saved), t));
    }
  }

  /** A restored router has every binding but those of deleted queues. */
  lemma SavedFollowsKept(live: Router, saved: SavedRouter, engine: State)
    requires RouterOk(live) && IsSavedRouter(live, saved) && engine.queues.Keys == live.engine.queues.Keys
    ensures Follows(Remaining(live, Dangling(live)), RestoreRouter(Router(engine, map[], {}), saved))
  {
    hide RestoreRouter, IsSavedRouter;
    RouterRoundTrip(live, saved, engine);
  }

  lemma RestoreAnyway(r: Router, saved: SavedRouter)
    ensures RestoreRouter(r, saved) == RestoreRouter(Router(r.engine, map[], {}), saved)
  {
    hide RestoreExchanges, RestoreBindings;
  }

  lemma StoredKeys(w: W.World, saved: Saved, t: Time)
    requires W.WorldOk(w) && IsSnapshot(w.live, saved)
    ensures W.Base(w.live.cfg, Some(saved), t).queues.Keys == w.live.queues.Keys
  {
    hide IndexOk, IsSnapshot, Restore, Partial, Letter, W.Exact, W.Torn, W.BaseOk, Roomy, W.Written, Unlimited;
    RestoreTables(w.live, saved, Init(w.live.cfg), t);
  }

  lemma FailFollowed(x: RouterWorld, kept: nat, c: W.Clocks)
    requires RouterWorldOk(x) && CanHappen(x, Fail(kept, c))
    ensures RouterWorldOk(AfterIncident(x, Fail(kept, c)))
  {
    hide W.WorldOk, Follows, Back, RouterOk, W.Cut, Alike, W.Recovered, W.Replayed, Unlimited, W.BaseOk;
    var cfg := x.w.live.cfg;
    var disk := W.Cut(x.w.disk, kept);
    W.CrashOk(x.w, kept, c);
    W.CutFacts(x.w.disk, kept);
    DiskFacts(x.w, kept);
    RecoveredEngine(cfg, disk, x.saved, c);
    CrashCfg(x.w, kept, c);
    BackOk(cfg, disk, x.saved, c.restore, c.replay);
    var r' := Recovered(cfg, disk, x.saved, c);
    forall t, clock: seq<Time> | |clock| == |disk.log|
      ensures Follows(Remaining(r', {}), Back(cfg, disk, x.saved, t, clock))
    {
      BackAlike(cfg, disk, x.saved, c.restore, c.replay, t, clock);
      AlikeFollows(Remaining(r', {}), Back(cfg, disk, x.saved, c.restore, c.replay), Back(cfg, disk, x.saved, t, clock));
    }
    EngineOk(r', Back(cfg, disk, x.saved, c.restore, c.replay));
  }

  lemma DiskFacts(w: W.World, kept: nat)
    requires W.WorldOk(w) && kept <= |w.disk.log|
    ensures W.BaseOk(w.live.cfg, w.disk.base) && w.live.cfg.maxLength == None
    ensures forall rec :: rec in W.Cut(w.disk, kept).log ==> Unlimited(rec)
  {
    hide IndexOk, W.BaseOk, Unlimited, W.Exact, W.Torn, W.Written;
  }

  lemma CrashCfg(w: W.World, kept: nat, c: W.Clocks)
    requires W.WorldOk(w) && W.Possible(w, W.Crash(kept, c))
    ensures W.After(w, W.Crash(kept, c)).live == W.Recovered(w.live.cfg, W.Cut(w.disk, kept), c)
    ensures W.After(w, W.Crash(kept, c)).live.cfg == w.live.cfg
  {
    hide IndexOk, Roomy, W.BaseOk, Unlimited, W.Written, W.Exact, W.Torn, W.Recovered, Sim, Twins, W.Replayed, W.Cut;
    W.CutFacts(w.disk, kept);
    DiskFacts(w, kept);
    W.RecoveredTwins(w.live.cfg, W.Cut(w.disk, kept), c, c.restore, c.replay);
  }

  lemma BackOk(cfg: Config, disk: W.Disk, saved: Option<SavedRouter>, t: Time, clock: seq<Time>)
    requires |clock| == |disk.log|
    ensures RouterOk(Back(cfg, disk, saved, t, clock))
  {
    hide RouterOk, BaseRouter, RouterReplayAll;
    BaseOk(cfg, disk.base, saved, t);
    ReplayOk(BaseRouter(cfg, disk.base, saved, t), disk.log, clock);
  }

  lemma AlikeFollows(r: Router, a: Router, b: Router)
    requires Alike(a, b) && RouterOk(a) && r.exchanges == a.exchanges && r.bindings == a.bindings
    ensures Follows(r, b)
  {
    hide Twins;
  }

  lemma EngineOk(r: Router, a: Router)
    requires RouterOk(a) && r.exchanges == a.exchanges && r.bindings == a.bindings
    ensures RouterOk(r)
  {
  }

  lemma IncidentOk(x: RouterWorld, h: Incident)
    requires RouterWorldOk(x) && CanHappen(x, h)
    ensures RouterWorldOk(AfterIncident(x, h))
  {
    hide RouterWorldOk, CanHappen, AfterIncident;
    match h
    case Operate(op) => OperatedFollowed(x, op);
    case Flush(upTo) => FlushFollowed(x, upTo);
    case Store(saved, router) => StoreFollowed(x, saved, router);
    case Fail(kept, c) => FailFollowed(x, kept, c);
  }

  ghost predicate CanHappenAll(x: RouterWorld, run: seq<Incident>)
    decreases |run|
  {
    run == [] || (CanHappen(x, run[0]) && CanHappenAll(AfterIncident(x, run[0]), run[1..]))
  }

  ghost function AfterIncidents(x: RouterWorld, run: seq<Incident>): RouterWorld
    requires CanHappenAll(x, run)
    decreases |run|
  {
    if run == [] then x else AfterIncidents(AfterIncident(x, run[0]), run[1..])
  }

  lemma {:induction false} IncidentsOk(x: RouterWorld, run: seq<Incident>)
    requires RouterWorldOk(x) && CanHappenAll(x, run)
    ensures RouterWorldOk(AfterIncidents(x, run))
    decreases |run|
  {
    hide RouterWorldOk, CanHappen, AfterIncident;
    if run != [] {
      IncidentOk(x, run[0]);
      IncidentsOk(AfterIncident(x, run[0]), run[1..]);
    }
  }

  /** A new broker on an empty disk. */
  ghost function NewWorld(cfg: Config): RouterWorld {
    RouterWorld(W.World(Init(cfg), W.Disk(None, []), 0, {}), NewRouter(cfg), None, {})
  }

  lemma NewWorldOk(cfg: Config)
    requires cfg.maxLength == None
    ensures RouterWorldOk(NewWorld(cfg))
  {
    hide W.WorldOk;
    W.StartOk(cfg);
  }

  /** The router over any number of lifetimes. After any history of operations on the engine and the router,
      flushes, snapshots, crashes that tear the log, and restarts: recovering the whole log gives back every
      exchange, and of the bindings, apart from those of queues to the default exchange under their own name, exactly
      the live ones that were not left of a deleted queue at the last snapshot, or were made again or recovered since.
      A queue's own binding comes back under the same condition, and may come in addition. */
  lemma RouterLasts(cfg: Config, run: seq<Incident>, c: W.Clocks, b: Binding)
    requires cfg.maxLength == None && CanHappenAll(NewWorld(cfg), run)
    requires |c.replay| == |AfterIncidents(NewWorld(cfg), run).w.disk.log|
    ensures
      var x := AfterIncidents(NewWorld(cfg), run);
      var back := Recovered(x.w.live.cfg, x.w.disk, x.saved, c);
      && back.exchanges == x.r.exchanges
      && (b in x.r.bindings && b !in x.lost ==> b in back.bindings)
      && (b in back.bindings && !Own(b) ==> b in x.r.bindings && b !in x.lost)
  {
    hide CanHappenAll, AfterIncidents, W.WorldOk, Back;
    NewWorldOk(cfg);
    IncidentsOk(NewWorld(cfg), run);
  }

  /** Exactly which bindings a recovery has, whatever the snapshot and the log are: those of the snapshot's router
      and those that a record brings, except those that a later record takes away. */
  lemma RecoveredBindings(cfg: Config, disk: W.Disk, saved: Option<SavedRouter>, c: W.Clocks, b: Binding)
    requires |c.replay| == |disk.log|
    ensures
      var r := BaseRouter(cfg, disk.base, saved, c.restore);
      b in Recovered(cfg, disk, saved, c).bindings <==>
      exists i: nat :: i <= |disk.log| && Comes(r, disk.log, c.replay, b, i) && Lasts(disk.log, b, i, |disk.log|)
  {
    hide BaseRouter, RouterReplayAll, Tick, Comes, Lasts;
    var r := BaseRouter(cfg, disk.base, saved, c.restore);
    BaseOk(cfg, disk.base, saved, c.restore);
    OkRooted(r);
    ReplayBindings(r, disk.log, c.replay, b);
  }

  lemma OkRooted(r: Router)
    requires RouterOk(r)
    ensures Rooted(r)
  {
  }
}
