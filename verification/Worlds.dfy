/** The broker and its disk over any number of lifetimes: work, snapshots, flushes, crashes that tear the
    tail off the log, and restarts at any clock readings. */
module Worlds {
  import opened Types
  import opened DlqNames
  import opened Journal
  import opened Engine
  import opened Index
  import opened Requeue
  import opened Runs
  import opened Snapshot
  import opened Replay
  import opened Recovery
  import opened Restoring
  import opened Restarts
  import opened Crashes

  /** The snapshot file, if any, and the records after it. */
  datatype Disk = Disk(base: Option<Saved>, log: seq<Rec>)

  /** The clock readings of one recovery. */
  datatype Clocks = Clocks(restore: Time, replay: seq<Time>, tick: Time, now: Time)

  /** "durable" counts the records of the log that a crash cannot take away. */
  datatype World = World(live: State, disk: Disk, durable: nat, used: set<Id>)

  datatype Happening =
    | Work(ev: Event)
    | Route(meta: Meta)
    | Sync(upTo: nat)
    | Save(saved: Saved)
    | Crash(kept: nat, clocks: Clocks)

  function Base(cfg: Config, base: Option<Saved>, now: Time): State {
    if base.Some? then Restore(Init(cfg), base.value, now) else Init(cfg)
  }

  function Replayed(cfg: Config, disk: Disk, restore: Time, clock: seq<Time>): State
    requires |clock| == |disk.log|
  {
    ReplayAll(Base(cfg, disk.base, restore), disk.log, clock)
  }

  /** recover_into: the snapshot, the records after it, and one tick. */
  function Recovered(cfg: Config, disk: Disk, c: Clocks): State
    requires |c.replay| == |disk.log|
  {
    Tick(Replayed(cfg, disk, c.restore, c.replay), c.tick, c.now)
  }

  function Cut(disk: Disk, kept: nat): Disk
    requires kept <= |disk.log|
  {
    Disk(disk.base, disk.log[..kept])
  }

  ghost predicate Possible(w: World, h: Happening) {
    match h
    case Work(ev) => Journalled(w.live, ev, w.used)
    case Route(meta) => Routed(w.live, meta)
    case Sync(upTo) => w.durable <= upTo <= |w.disk.log|
    case Save(saved) => IsSnapshot(w.live, saved)
    case Crash(kept, clocks) => w.durable <= kept <= |w.disk.log| && |clocks.replay| == kept
  }

  ghost function After(w: World, h: Happening): World
    requires Possible(w, h)
  {
    match h
    case Work(ev) =>
      World(Step(w.live, ev), Disk(w.disk.base, w.disk.log + Emitted(w.live, ev)), w.durable, w.used + Published(ev))
    case Route(meta) =>
      w.(live := Log(w.live, meta, [], true), disk := Disk(w.disk.base, w.disk.log + [Rec(meta, [])]))
    case Sync(upTo) => w.(durable := upTo)
    case Save(saved) => w.(disk := Disk(Some(saved), []), durable := 0)
    case Crash(kept, clocks) =>
      World(Recovered(w.live.cfg, Cut(w.disk, kept), clocks), Cut(w.disk, kept), kept, w.used)
  }

  // ----- what is on the disk -----

  ghost function SavedIds(base: Option<Saved>): set<Id> {
    if base.Some? then set sq, sm | sq in base.value.queues && sm in sq.messages :: sm.message.id else {}
  }

  function LogIds(log: seq<Rec>): set<Id>
    decreases |log|
  {
    if log == [] then {} else RecIds(log[0]) + LogIds(log[1..])
  }

  /** The ids of the messages that the disk knows of. */
  ghost function Written(disk: Disk): set<Id> {
    SavedIds(disk.base) + LogIds(disk.log)
  }

  lemma LogIdsConcat(a: seq<Rec>, b: seq<Rec>)
    ensures LogIds(a + b) == LogIds(a) + LogIds(b)
    decreases |a|
  {
    if a == [] {
      assert a + b == b;
    } else {
      assert (a + b)[1..] == a[1..] + b;
      LogIdsConcat(a[1..], b);
    }
  }

  lemma LogIdsWithin(log: seq<Rec>, ids: set<Id>)
    requires forall rec :: rec in log ==> RecIds(rec) <= ids
    ensures LogIds(log) <= ids
    decreases |log|
  {
    hide RecIds;
    if log != [] {
      assert log[0] in log && forall rec :: rec in log[1..] ==> rec in log;
      LogIdsWithin(log[1..], ids);
    }
  }

  lemma CutWritten(disk: Disk, kept: nat)
    requires kept <= |disk.log|
    ensures Written(Cut(disk, kept)) <= Written(disk)
  {
    hide LogIds;
    LogIdsConcat(disk.log[..kept], disk.log[kept..]);
    assert disk.log[..kept] + disk.log[kept..] == disk.log;
  }

  // ----- the snapshot as the base of a replay -----

  /** The snapshot was taken of some engine with sound tables and unbounded queues. */
  ghost predicate BaseOk(cfg: Config, base: Option<Saved>) {
    base.Some? ==> exists src :: IndexOk(src) && Roomy(src) && src.cfg == cfg && IsSnapshot(src, base.value)
  }

  lemma PartialRoomy(src: State, s: State)
    requires Roomy(src) && Partial(src.queues, s.queues) && s.cfg == src.cfg
    ensures Roomy(s)
  {
  }

  lemma SavedKnown(src: State, saved: Saved, id: Id)
    requires IndexOk(src) && IsSnapshot(src, saved) && id in src.byId
    ensures id in SavedIds(Some(saved))
  {
    hide QueueIndexOk, DistinctNames, DistinctIds, NameOf;
    var n := src.byId[id];
    assert Named(saved.queues, n);
    var sq :| sq in saved.queues && sq.spec.name == n;
    assert Describes(src.queues[n], sq);
    var sm := ListedMember(sq.messages, id);
  }

  lemma BaseFacts(cfg: Config, base: Option<Saved>, now: Time)
    requires BaseOk(cfg, base) && cfg.maxLength == None
    ensures
      var s := Base(cfg, base, now);
      IndexOk(s) && Idle(s.queues) && Roomy(s) && s.cfg == cfg && s.byId.Keys <= SavedIds(base)
  {
    hide IndexOk, Idle, Roomy, IsSnapshot, Restore, SavedIds;
    if base.Some? {
      var src :| IndexOk(src) && Roomy(src) && src.cfg == cfg && IsSnapshot(src, base.value);
      RestoreTables(src, base.value, Init(cfg), now);
      PartialRoomy(src, Base(cfg, base, now));
      forall id | id in src.byId
        ensures id in SavedIds(base)
      {
        SavedKnown(src, base.value, id);
      }
    } else {
      EmptyFacts(cfg);
    }
  }

  lemma EmptyFacts(cfg: Config)
    requires cfg.maxLength == None
    ensures IndexOk(Init(cfg)) && Idle(Init(cfg).queues) && Roomy(Init(cfg))
  {
  }

  lemma PartialTwins(src: State, a: State, b: State)
    requires Partial(src.queues, a.queues) && Partial(src.queues, b.queues)
    requires a.queues.Keys == b.queues.Keys && a.byId == b.byId && a.cfg == b.cfg
    ensures Twins(a, b)
  {
  }

  lemma BaseTwins(cfg: Config, base: Option<Saved>, now: Time, later: Time)
    requires BaseOk(cfg, base)
    ensures Twins(Base(cfg, base, now), Base(cfg, base, later))
  {
    hide IndexOk, Idle, Roomy, IsSnapshot, Restore, Partial, Twins;
    if base.Some? {
      var src :| IndexOk(src) && Roomy(src) && src.cfg == cfg && IsSnapshot(src, base.value);
      RestoreTables(src, base.value, Init(cfg), now);
      RestoreTables(src, base.value, Init(cfg), later);
      PartialTwins(src, Base(cfg, base, now), Base(cfg, base, later));
    } else {
      TwinsItself(Init(cfg));
    }
  }

  /** Two recoveries of the same disk, at different times, hold the same messages. */
  lemma ReplayedTwins(cfg: Config, disk: Disk, t: Time, clock: seq<Time>, t': Time, clock': seq<Time>)
    requires BaseOk(cfg, disk.base) && cfg.maxLength == None && |clock| == |clock'| == |disk.log|
    requires forall rec :: rec in disk.log ==> Unlimited(rec)
    ensures Twins(Replayed(cfg, disk, t, clock), Replayed(cfg, disk, t', clock'))
  {
    hide IndexOk, Idle, Roomy, Twins, BaseOk, Base, ReplayAll, Unlimited;
    BaseFacts(cfg, disk.base, t);
    BaseFacts(cfg, disk.base, t');
    BaseTwins(cfg, disk.base, t, t');
    ReplayTwins(Base(cfg, disk.base, t), Base(cfg, disk.base, t'), disk.log, clock, clock');
  }

  lemma ReplayIds(s: State, recs: seq<Rec>, clock: seq<Time>)
    requires IndexOk(s) && Idle(s.queues) && |clock| == |recs|
    ensures ReplayAll(s, recs, clock).byId.Keys <= s.byId.Keys + LogIds(recs)
    decreases |recs|
  {
    hide IndexOk, Idle, Roomy, Apply, RecIds;
    if recs != [] {
      ApplyContinues(s, recs[0], clock[0]);
      ReplayIds(Apply(s, recs[0], clock[0]), recs[1..], clock[1..]);
    }
  }

  lemma ReplayedFacts(cfg: Config, disk: Disk, t: Time, clock: seq<Time>)
    requires BaseOk(cfg, disk.base) && cfg.maxLength == None && |clock| == |disk.log|
    requires forall rec :: rec in disk.log ==> Unlimited(rec)
    ensures
      var s := Replayed(cfg, disk, t, clock);
      IndexOk(s) && Idle(s.queues) && Roomy(s) && s.cfg == cfg && s.byId.Keys <= Written(disk)
  {
    hide IndexOk, Idle, Roomy, BaseOk, Base, ReplayAll, Unlimited, LogIds, SavedIds;
    BaseFacts(cfg, disk.base, t);
    ReplayContinues(Base(cfg, disk.base, t), disk.log, clock);
    ReplayIds(Base(cfg, disk.base, t), disk.log, clock);
  }

  lemma ReplayedMore(cfg: Config, base: Option<Saved>, log: seq<Rec>, more: seq<Rec>, t: Time, clock: seq<Time>)
    requires |clock| == |log| + |more|
    ensures Replayed(cfg, Disk(base, log + more), t, clock) ==
            ReplayAll(Replayed(cfg, Disk(base, log), t, clock[..|log|]), more, clock[|log|..])
  {
    hide Base, ReplayAll;
    ReplayConcat(Base(cfg, base, t), log, more, clock);
  }

  // ----- the invariant of all lifetimes -----

  /** Whatever the clock says, replaying the whole log gives an engine that simulates the live one. */
  ghost predicate Exact(live: State, disk: Disk, used: set<Id>) {
    forall t, clock :: |clock| == |disk.log| ==> Sim(live, Replayed(live.cfg, disk, t, clock), used)
  }

  /** Every message of the live engine that is among the ids is held by the other engine. */
  ghost predicate Held(live: State, back: State, ids: set<Id>) {
    forall id :: id in ids ==> SameLife(Letter(back, id), Letter(live, id))
  }

  /** Replaying a torn log loses no live message that the torn log knows of. */
  ghost predicate TornAt(live: State, disk: Disk, k: nat)
    requires k <= |disk.log|
  {
    forall t, clock :: |clock| == k ==> Held(live, Replayed(live.cfg, Cut(disk, k), t, clock), Written(Cut(disk, k)))
  }

  ghost predicate Torn(live: State, disk: Disk, durable: nat) {
    forall k: nat :: durable <= k < |disk.log| ==> TornAt(live, disk, k)
  }

  ghost predicate WorldOk(w: World) {
    && IndexOk(w.live) && Roomy(w.live)
    && BaseOk(w.live.cfg, w.disk.base)
    && (forall rec :: rec in w.disk.log ==> Unlimited(rec))
    && Written(w.disk) <= w.used
    && w.durable <= |w.disk.log|
    && Exact(w.live, w.disk, w.used)
    && Torn(w.live, w.disk, w.durable)
  }

  lemma StartOk(cfg: Config)
    requires cfg.maxLength == None
    ensures WorldOk(World(Init(cfg), Disk(None, []), 0, {}))
  {
    hide Torn;
    EmptyFacts(cfg);
    forall t, clock: seq<Time> | |clock| == 0
      ensures Sim(Init(cfg), Replayed(cfg, Disk(None, []), t, clock), {})
    {
      TwinsItself(Init(cfg));
      TwinsSim(Init(cfg), Init(cfg), {});
    }
    assert Torn(Init(cfg), Disk(None, []), 0) by { NothingTorn(Init(cfg), Disk(None, []), 0); }
  }

  lemma NothingTorn(live: State, disk: Disk, durable: nat)
    requires |disk.log| <= durable
    ensures Torn(live, disk, durable)
  {
  }

  lemma AnyClock(n: nat) returns (clock: seq<Time>)
    ensures |clock| == n
  {
    clock := seq(n, _ => 0);
  }

  lemma LiveUsed(live: State, disk: Disk, used: set<Id>)
    requires Exact(live, disk, used)
    ensures live.byId.Keys <= used
  {
    hide AllKept, SameShape, Idle, TablesAgree, Replayed;
    var clock := AnyClock(|disk.log|);
    var back := Replayed(live.cfg, disk, 0, clock);
    assert Sim(live, back, used);
    forall id | id in live.byId
      ensures id in used
    {
      LiveInBack(live, back, used, id);
    }
  }

  // ----- holding messages -----

  lemma LifeTrans(a: Option<Message>, b: Option<Message>, c: Option<Message>)
    requires SameLife(a, b) && SameLife(b, c)
    ensures SameLife(a, c)
  {
    hide OriginQueue;
  }

  lemma HeldStep(live: State, ev: Event, back: State, ids: set<Id>, used: set<Id>)
    requires IndexOk(live) && live.byId.Keys <= used && Journalled(live, ev, used) && ids !! Published(ev)
    requires Held(live, back, ids)
    ensures Held(Step(live, ev), back, ids)
  {
    hide IndexOk, SameLife, Letter, Step, Straight;
    forall id | id in ids
      ensures SameLife(Letter(back, id), Letter(Step(live, ev), id))
    {
      assert id !in Published(ev);
      StepLife(live, ev, used, id);
      LifeTrans(Letter(back, id), Letter(live, id), Letter(Step(live, ev), id));
    }
  }

  lemma KeptLife(live: State, o: Option<Message>, back: Option<Message>)
    requires IndexOk(live) && Kept(live.queues, o, back)
    ensures SameLife(back, o)
  {
    hide TablesAgree, IsDlq;
    if o.Some? && back.value.queue in live.queues {
      SpecIndex(live, back.value.queue);
    }
  }

  lemma SimHeld(live: State, back: State, ids: set<Id>, used: set<Id>)
    requires Sim(live, back, used)
    ensures Held(live, back, ids)
  {
    hide TablesAgree, SameShape, Idle, Letter, Kept, SameLife;
    forall id | id in ids
      ensures SameLife(Letter(back, id), Letter(live, id))
    {
      KeptLife(live, Letter(live, id), Letter(back, id));
    }
  }

  // ----- work -----

  lemma WorkExactAt(w: World, ev: Event, t: Time, clock: seq<Time>)
    requires WorldOk(w) && Journalled(w.live, ev, w.used) && |clock| == |w.disk.log| + |Emitted(w.live, ev)|
    ensures
      var n := |w.disk.log|;
      var back := Replayed(w.live.cfg, w.disk, t, clock[..n]);
      && Sim(w.live, back, w.used) && Roomy(back)
      && StepsAlong(w.live, ev, back, w.used, clock[n..])
      && Replayed(w.live.cfg, Disk(w.disk.base, w.disk.log + Emitted(w.live, ev)), t, clock) ==
         ReplayAll(back, Emitted(w.live, ev), clock[n..])
  {
    hide IndexOk, Roomy, BaseOk, Unlimited, Written, Torn, Sim, Replayed, Emitted, StepsAlong, Straight, Callable, Step;
    var n := |w.disk.log|;
    assert w.live.cfg.maxLength == None by { RoomyCfg(w.live); }
    ReplayedFacts(w.live.cfg, w.disk, t, clock[..n]);
    StepSim(w.live, ev, Replayed(w.live.cfg, w.disk, t, clock[..n]), w.used, clock[n..]);
    ReplayedMore(w.live.cfg, w.disk.base, w.disk.log, Emitted(w.live, ev), t, clock);
    assert Disk(w.disk.base, w.disk.log) == w.disk;
  }

  lemma RoomyCfg(s: State)
    requires Roomy(s)
    ensures s.cfg.maxLength == None
  {
  }

  lemma WorkExact(w: World, ev: Event)
    requires WorldOk(w) && Journalled(w.live, ev, w.used)
    ensures Exact(Step(w.live, ev), Disk(w.disk.base, w.disk.log + Emitted(w.live, ev)), w.used + Published(ev))
    ensures Roomy(Step(w.live, ev)) && Step(w.live, ev).cfg == w.live.cfg
    ensures forall rec :: rec in Emitted(w.live, ev) ==> Unlimited(rec) && RecIds(rec) <= Published(ev)
  {
    hide WorldOk, Roomy, Unlimited, RecIds, Sim, Replayed, Emitted, Straight, Callable, Step, ReplayAll;
    var n := |w.disk.log| + |Emitted(w.live, ev)|;
    forall t, clock: seq<Time> | |clock| == n
      ensures Sim(Step(w.live, ev), Replayed(w.live.cfg, Disk(w.disk.base, w.disk.log + Emitted(w.live, ev)), t, clock), w.used + Published(ev))
      ensures Roomy(Step(w.live, ev)) && Step(w.live, ev).cfg == w.live.cfg
      ensures forall rec :: rec in Emitted(w.live, ev) ==> Unlimited(rec) && RecIds(rec) <= Published(ev)
    {
      WorkExactAt(w, ev, t, clock);
    }
    var clock := AnyClock(n);
    WorkExactAt(w, ev, 0, clock);
  }

  lemma WaningMid(live: State, ev: Event, back: State, used: set<Id>, k: nat, clock: seq<Time>, ids: set<Id>)
    requires Sim(live, back, used) && Journalled(live, ev, used) && Waning(ev.op) && k <= |Emitted(live, ev)| && |clock| == k
    requires live.byId.Keys <= used
    ensures Held(Step(live, ev), ReplayAll(back, Emitted(live, ev)[..k], clock), ids)
  {
    hide TablesAgree, AllKept, SameShape, Idle, Step, Emitted, Held, Quiet, QuietGrowth, Wane, ReplayAll;
    StepWane(live, ev);
    WaneFacts(live, Step(live, ev));
    QuietEmitted(live, ev);
    QuietReplay(back, Emitted(live, ev)[..k], clock);
    SimHeld(live, back, ids, used);
    HeldStep(live, ev, back, ids, used);
  }

  lemma DeclareMid(live: State, n: QName, a: DeclareArgs, now: Time, back: State, used: set<Id>, clock: seq<Time>, ids: set<Id>)
    requires Sim(live, back, used) && a.maxLength == None && |DeclareRecs(live, n, a)| == 2 && |clock| == 1
    requires live.byId.Keys <= used
    ensures Held(Declare(live, n, a, true), ReplayAll(back, DeclareRecs(live, n, a)[..1], clock), ids)
  {
    hide TablesAgree, AllKept, SameShape, Idle, Declare, Apply, IsDlq, Letter, Declared, SameLife, ReplayAll;
    var rec := DeclareRecs(live, n, a)[0];
    var spec := MakeSpec(live.cfg, DlqName(n), DlqArgs(MakeSpec(live.cfg, n, a)));
    assert DeclareRecs(live, n, a)[..1] == [rec];
    ReplayOne(back, rec, clock);
    DeclareApply(back, spec, clock[0]);
    var back' := Apply(back, rec, clock[0]);
    var a' := SpecArgs(spec, spec.durable);
    DeclareTables(back, spec.name, a', false);
    DeclaredLetters(back, back', spec.name, MakeSpec(back.cfg, spec.name, a'));
    SimHeld(live, back, ids, used);
    HeldStep(live, Event(DoDeclare(n, a), now), back, ids, used);
  }

  lemma DeleteMid(live: State, n: QName, back: State, used: set<Id>, clock: seq<Time>, ids: set<Id>)
    requires Sim(live, back, used) && |DeleteRecs(live, n)| == 2 && |clock| == 1
    ensures Held(Delete(live, n, true).0, ReplayAll(back, DeleteRecs(live, n)[..1], clock), ids)
  {
    hide TablesAgree, AllKept, SameShape, Idle, Delete, IsDlq, ReplayAll, Held;
    var recs := DeleteRecs(live, n);
    assert recs[..1] == [recs[0]];
    ReplayOne(back, recs[0], clock);
    DeleteReplay(live, back, n, clock + clock);
    DeleteSim(live, back, n, used, clock + clock);
    SimHeld(Delete(live, n, true).0, ReplayAll(back, recs, clock + clock), ids, used);
  }

  lemma ShortPublish(live: State, m: Message, now: Time)
    requires IndexOk(live) && m.id !in live.byId
    ensures |Emitted(live, Event(DoPublish(m), now))| <= 1
  {
    hide TablesAgree, Enqueue, SameHouses, SameLetters, Letter, Full, Emitted, Stored;
    EnqueueLetters(live, m, now, true);
    EmittedIs(live, Event(DoPublish(m), now),
              if Enqueue(live, m, now, true).1 == EnqueueOk then [PublishRec(Stored(m, now))] else []);
  }

  lemma ShortRequeue(live: State, n: QName, id: Id, now: Time)
    requires IndexOk(live)
    ensures |Emitted(live, Event(DoRequeue(n, id), now))| <= 1
  {
    hide TablesAgree, DlqRequeue, SameHouses, SameLetters, Letter, Full, Emitted, Found;
    var ev := Event(DoRequeue(n, id), now);
    if Found(live, n, id) {
      RequeueLetters(live, n, id, now, true);
      EmittedIs(live, ev, if DlqRequeue(live, n, id, now, true).1
                          then [Rec(MessageRequeue(id, DlqName(OriginQueue(n)), OriginQueue(n)), [])] else []);
    } else {
      RequeueForm(live, n, id, now, true);
      EmittedIs(live, ev, []);
    }
  }

  /** A crash between the two records of one operation. */
  lemma MidHeld(live: State, ev: Event, back: State, used: set<Id>, k: nat, clock: seq<Time>, ids: set<Id>)
    requires Sim(live, back, used) && Journalled(live, ev, used) && live.byId.Keys <= used
    requires 0 < k < |Emitted(live, ev)| && |clock| == k
    ensures Held(Step(live, ev), ReplayAll(back, Emitted(live, ev)[..k], clock), ids)
  {
    hide Sim, Emitted, Held, Straight, ReplayAll, Declare, Delete, Enqueue, DlqRequeue, Reserve, Ack, Nack, Recover,
      Tick,
      DeclareRecs, DeleteRecs, TablesAgree;
    match ev.op
    case DoDeclare(n, a) =>
      DeclareJournal(live, n, a);
      EmittedIs(live, ev, DeclareRecs(live, n, a));
      RecsAtMostTwo(live, n, a);
      DeclareMid(live, n, a, ev.now, back, used, clock, ids);
    case DoDelete(n) =>
      SimIndex(live, back, used);
      DeleteJournal(live, n);
      EmittedIs(live, ev, DeleteRecs(live, n));
      RecsAtMostTwo(live, n, DEFAULT_ARGS);
      DeleteMid(live, n, back, used, clock, ids);
    case DoPublish(m) =>
      SimIndex(live, back, used);
      ShortPublish(live, m, ev.now);
    case DoRequeue(n, id) =>
      SimIndex(live, back, used);
      ShortRequeue(live, n, id, ev.now);
    case _ => WaningMid(live, ev, back, used, k, clock, ids);
  }

  lemma SimIndex(live: State, back: State, used: set<Id>)
    requires Sim(live, back, used)
    ensures IndexOk(live)
  {
    hide TablesAgree, AllKept, SameShape, Idle;
  }

  lemma RecsAtMostTwo(s: State, n: QName, a: DeclareArgs)
    ensures |DeclareRecs(s, n, a)| <= 2 && |DeleteRecs(s, n)| <= 2
  {
    hide IsDlq, DlqName, MakeSpec, DeclareMeta;
  }

  lemma OldTorn(w: World, ev: Event, k: nat)
    requires WorldOk(w) && Journalled(w.live, ev, w.used) && w.durable <= k < |w.disk.log|
    requires Step(w.live, ev).cfg == w.live.cfg
    ensures TornAt(Step(w.live, ev), Disk(w.disk.base, w.disk.log + Emitted(w.live, ev)), k)
  {
    hide IndexOk, Roomy, BaseOk, Unlimited, Written, Sim, Replayed, Emitted, Step, Held, Straight;
    var disk' := Disk(w.disk.base, w.disk.log + Emitted(w.live, ev));
    assert disk'.log[..k] == w.disk.log[..k];
    assert Cut(disk', k) == Cut(w.disk, k);
    assert TornAt(w.live, w.disk, k);
    CutWritten(w.disk, k);
    LiveUsed(w.live, w.disk, w.used);
    forall t, clock: seq<Time> | |clock| == k
      ensures Held(Step(w.live, ev), Replayed(w.live.cfg, Cut(disk', k), t, clock), Written(Cut(disk', k)))
    {
      HeldStep(w.live, ev, Replayed(w.live.cfg, Cut(w.disk, k), t, clock), Written(Cut(w.disk, k)), w.used);
    }
  }

  lemma EdgeTorn(w: World, ev: Event)
    requires WorldOk(w) && Journalled(w.live, ev, w.used) && Step(w.live, ev).cfg == w.live.cfg
    ensures TornAt(Step(w.live, ev), Disk(w.disk.base, w.disk.log + Emitted(w.live, ev)), |w.disk.log|)
  {
    hide IndexOk, Roomy, BaseOk, Unlimited, Written, Sim, Replayed, Emitted, Step, Held, Straight, Torn;
    var k := |w.disk.log|;
    var disk' := Disk(w.disk.base, w.disk.log + Emitted(w.live, ev));
    assert disk'.log[..k] == w.disk.log;
    assert Cut(disk', k) == w.disk;
    LiveUsed(w.live, w.disk, w.used);
    forall t, clock: seq<Time> | |clock| == k
      ensures Held(Step(w.live, ev), Replayed(w.live.cfg, Cut(disk', k), t, clock), Written(Cut(disk', k)))
    {
      SimHeld(w.live, Replayed(w.live.cfg, w.disk, t, clock), Written(w.disk), w.used);
      HeldStep(w.live, ev, Replayed(w.live.cfg, w.disk, t, clock), Written(w.disk), w.used);
    }
  }

  lemma NewTorn(w: World, ev: Event, k: nat)
    requires WorldOk(w) && Journalled(w.live, ev, w.used) && Step(w.live, ev).cfg == w.live.cfg
    requires |w.disk.log| < k < |w.disk.log| + |Emitted(w.live, ev)|
    ensures TornAt(Step(w.live, ev), Disk(w.disk.base, w.disk.log + Emitted(w.live, ev)), k)
  {
    hide IndexOk, Roomy, BaseOk, Unlimited, Written, Sim, Replayed, Emitted, Step, Held, Straight, Torn, ReplayAll;
    var n, more := |w.disk.log|, Emitted(w.live, ev);
    var disk' := Disk(w.disk.base, w.disk.log + more);
    assert disk'.log[..k] == w.disk.log + more[..k - n];
    assert Disk(w.disk.base, w.disk.log) == w.disk;
    LiveUsed(w.live, w.disk, w.used);
    forall t, clock: seq<Time> | |clock| == k
      ensures Held(Step(w.live, ev), Replayed(w.live.cfg, Cut(disk', k), t, clock), Written(Cut(disk', k)))
    {
      ReplayedMore(w.live.cfg, w.disk.base, w.disk.log, more[..k - n], t, clock);
      MidHeld(w.live, ev, Replayed(w.live.cfg, w.disk, t, clock[..n]), w.used, k - n, clock[n..], Written(Cut(disk', k)));
    }
  }

  lemma WorkOk(w: World, ev: Event)
    requires WorldOk(w) && Possible(w, Work(ev))
    ensures WorldOk(After(w, Work(ev)))
  {
    hide Roomy, BaseOk, Unlimited, RecIds, Sim, Emitted, Step, Straight, TornAt, TablesAgree, SavedIds, LogIds, Exact;
    var disk' := Disk(w.disk.base, w.disk.log + Emitted(w.live, ev));
    WorkExact(w, ev);
    WorkIndex(w, ev, disk');
    LogIdsConcat(w.disk.log, Emitted(w.live, ev));
    LogIdsWithin(Emitted(w.live, ev), Published(ev));
    forall k: nat | w.durable <= k < |disk'.log|
      ensures TornAt(Step(w.live, ev), disk', k)
    {
      if k < |w.disk.log| {
        OldTorn(w, ev, k);
      } else if k == |w.disk.log| {
        EdgeTorn(w, ev);
      } else {
        NewTorn(w, ev, k);
      }
    }
  }

  lemma WorkIndex(w: World, ev: Event, disk': Disk)
    requires Callable(w.live, ev.op) && Exact(Step(w.live, ev), disk', w.used + Published(ev))
    ensures IndexOk(Step(w.live, ev))
  {
    hide Sim, Replayed, Step;
    var clock := AnyClock(|disk'.log|);
    SimIndex(Step(w.live, ev), Replayed(Step(w.live, ev).cfg, disk', 0, clock), w.used + Published(ev));
  }

  // ----- routing -----

  lemma RouteExact(w: World, meta: Meta)
    requires WorldOk(w) && Routed(w.live, meta)
    ensures Exact(Log(w.live, meta, [], true), Disk(w.disk.base, w.disk.log + [Rec(meta, [])]), w.used)
  {
    hide IndexOk, Roomy, BaseOk, Unlimited, Written, Torn, Sim, Replayed, Routed, ReplayAll, Apply;
    var cfg, n := w.live.cfg, |w.disk.log|;
    var disk' := Disk(w.disk.base, w.disk.log + [Rec(meta, [])]);
    assert Disk(w.disk.base, w.disk.log) == w.disk;
    forall t, clock: seq<Time> | |clock| == |disk'.log|
      ensures Sim(Log(w.live, meta, [], true), Replayed(cfg, disk', t, clock), w.used)
    {
      ReplayedMore(cfg, w.disk.base, w.disk.log, [Rec(meta, [])], t, clock);
      ReplayOne(Replayed(cfg, w.disk, t, clock[..n]), Rec(meta, []), clock[n..]);
      RouteSim(w.live, meta, Replayed(cfg, w.disk, t, clock[..n]), w.used, clock[n]);
    }
  }

  lemma HeldLog(live: State, meta: Meta, back: State, ids: set<Id>)
    requires Held(live, back, ids)
    ensures Held(Log(live, meta, [], true), back, ids)
  {
    hide SameLife;
    LogLetters(live, meta, true);
  }

  lemma RouteTorn(w: World, meta: Meta, k: nat)
    requires WorldOk(w) && w.durable <= k <= |w.disk.log|
    ensures TornAt(Log(w.live, meta, [], true), Disk(w.disk.base, w.disk.log + [Rec(meta, [])]), k)
  {
    hide IndexOk, Roomy, BaseOk, Unlimited, Written, Sim, Replayed, Held;
    var disk' := Disk(w.disk.base, w.disk.log + [Rec(meta, [])]);
    assert disk'.log[..k] == w.disk.log[..k];
    assert Cut(disk', k) == Cut(w.disk, k);
    CutWhole(w.disk);
    assert k < |w.disk.log| ==> TornAt(w.live, w.disk, k);
    forall t, clock: seq<Time> | |clock| == k
      ensures Held(Log(w.live, meta, [], true), Replayed(w.live.cfg, Cut(disk', k), t, clock), Written(Cut(disk', k)))
    {
      var back := Replayed(w.live.cfg, Cut(w.disk, k), t, clock);
      if k == |w.disk.log| {
        SimHeld(w.live, back, Written(Cut(w.disk, k)), w.used);
      }
      HeldLog(w.live, meta, back, Written(Cut(w.disk, k)));
    }
  }

  lemma RouteOk(w: World, meta: Meta)
    requires WorldOk(w) && Possible(w, Route(meta))
    ensures WorldOk(After(w, Route(meta)))
  {
    hide Roomy, BaseOk, Sim, TornAt, TablesAgree, SavedIds, LogIds, Exact;
    var disk' := Disk(w.disk.base, w.disk.log + [Rec(meta, [])]);
    RouteExact(w, meta);
    LogRoomy(w.live, meta);
    LogIdsConcat(w.disk.log, [Rec(meta, [])]);
    NoIds(Rec(meta, []));
    forall k: nat | w.durable <= k < |disk'.log|
      ensures TornAt(Log(w.live, meta, [], true), disk', k)
    {
      RouteTorn(w, meta, k);
    }
  }

  lemma LogRoomy(s: State, meta: Meta)
    requires Roomy(s)
    ensures Roomy(Log(s, meta, [], true))
  {
  }

  lemma NoIds(rec: Rec)
    requires RecIds(rec) == {}
    ensures LogIds([rec]) == {}
  {
  }

  // ----- saving and crashing -----

  lemma SavedWithin(src: State, saved: Saved)
    requires IndexOk(src) && IsSnapshot(src, saved)
    ensures SavedIds(Some(saved)) <= src.byId.Keys
  {
    hide TablesAgree, DistinctNames, Describes;
    forall sq, sm | sq in saved.queues && sm in sq.messages
      ensures sm.message.id in src.byId
    {
      assert Named(saved.queues, sq.spec.name);
      DescribedMessage(src, sq.spec.name, sq, sm);
      IndexAt(src, sq.spec.name, sm.message.id);
    }
  }

  lemma PartialSim(src: State, s: State, used: set<Id>)
    requires IndexOk(src) && IndexOk(s) && Partial(src.queues, s.queues) && s.queues.Keys == src.queues.Keys
    requires s.byId == src.byId && Idle(s.queues) && src.byId.Keys <= used && forall id :: Letter(s, id) == Letter(src, id)
    ensures Sim(src, s, used)
  {
    hide TablesAgree, IsDlq, Letter, DlqName;
    PartialShape(src.queues, s.queues);
  }

  lemma PartialShape(src: map<QName, Queue>, queues: map<QName, Queue>)
    requires Partial(src, queues) && queues.Keys == src.Keys
    ensures SameShape(src, queues)
  {
    hide IsDlq;
  }

  lemma SaveOk(w: World, saved: Saved)
    requires WorldOk(w) && Possible(w, Save(saved))
    ensures WorldOk(After(w, Save(saved)))
  {
    hide IndexOk, IsSnapshot, Roomy, Unlimited, Sim, Idle, SavedIds, Restore, Partial;
    var disk' := Disk(Some(saved), []);
    LiveUsed(w.live, w.disk, w.used);
    SavedWithin(w.live, saved);
    NothingTorn(w.live, disk', 0);
    forall t, clock: seq<Time> | |clock| == 0
      ensures Sim(w.live, Replayed(w.live.cfg, disk', t, clock), w.used)
    {
      RestoreTables(w.live, saved, Init(w.live.cfg), t);
      PartialSim(w.live, Restore(Init(w.live.cfg), saved, t), w.used);
    }
  }

  lemma SyncOk(w: World, upTo: nat)
    requires WorldOk(w) && Possible(w, Sync(upTo))
    ensures WorldOk(After(w, Sync(upTo)))
  {
    hide IndexOk, Roomy, BaseOk, Unlimited, Written, Exact, TornAt;
  }

  /** The restarted engine is the twin of every other replay of the same disk. */
  lemma RecoveredTwins(cfg: Config, disk: Disk, c: Clocks, t: Time, clock: seq<Time>)
    requires BaseOk(cfg, disk.base) && cfg.maxLength == None && |c.replay| == |clock| == |disk.log|
    requires forall rec :: rec in disk.log ==> Unlimited(rec)
    ensures
      var live, back := Recovered(cfg, disk, c), Replayed(cfg, disk, t, clock);
      Twins(live, back) && IndexOk(live) && Roomy(live) && live.cfg == cfg && Sim(live, back, Written(disk))
  {
    hide IndexOk, Roomy, BaseOk, Unlimited, Written, Sim, Replayed, Idle, Twins, Tick;
    var r := Replayed(cfg, disk, c.restore, c.replay);
    ReplayedFacts(cfg, disk, c.restore, c.replay);
    ReplayedFacts(cfg, disk, t, clock);
    ReplayedTwins(cfg, disk, c.restore, c.replay, t, clock);
    IdleTick(r, c.tick, c.now);
    TwinsRoomy(r, Tick(r, c.tick, c.now));
    TwinsBack(r, Tick(r, c.tick, c.now));
    TwinsTrans(Tick(r, c.tick, c.now), r, Replayed(cfg, disk, t, clock));
    TwinsSim(Tick(r, c.tick, c.now), Replayed(cfg, disk, t, clock), Written(disk));
  }

  lemma TwinsRoomy(a: State, b: State)
    requires Twins(a, b) && Roomy(a)
    ensures Roomy(b) && b.cfg == a.cfg
  {
  }

  lemma CutUnlimited(disk: Disk, kept: nat)
    requires kept <= |disk.log| && forall rec :: rec in disk.log ==> Unlimited(rec)
    ensures forall rec :: rec in Cut(disk, kept).log ==> Unlimited(rec)
  {
    hide Unlimited;
  }

  lemma CrashOk(w: World, kept: nat, c: Clocks)
    requires WorldOk(w) && Possible(w, Crash(kept, c))
    ensures WorldOk(After(w, Crash(kept, c)))
  {
    hide IndexOk, Roomy, BaseOk, Unlimited, Written, Sim, Replayed, Recovered, Cut, Torn, Exact;
    var cfg, disk := w.live.cfg, Cut(w.disk, kept);
    CutFacts(w.disk, kept);
    RoomyCfg(w.live);
    CutUnlimited(w.disk, kept);
    CutWritten(w.disk, kept);
    RecoveredTwins(cfg, disk, c, c.restore, c.replay);
    RecoveredExact(cfg, disk, c, w.used);
    NothingTorn(Recovered(cfg, disk, c), disk, kept);
  }

  lemma CutFacts(disk: Disk, kept: nat)
    requires kept <= |disk.log|
    ensures |Cut(disk, kept).log| == kept && Cut(disk, kept).base == disk.base
  {
  }

  lemma RecoveredExact(cfg: Config, disk: Disk, c: Clocks, used: set<Id>)
    requires BaseOk(cfg, disk.base) && cfg.maxLength == None && |c.replay| == |disk.log| && Written(disk) <= used
    requires forall rec :: rec in disk.log ==> Unlimited(rec)
    requires Recovered(cfg, disk, c).cfg == cfg
    ensures Exact(Recovered(cfg, disk, c), disk, used)
  {
    hide IndexOk, Roomy, BaseOk, Unlimited, Written, Sim, Replayed, Recovered, Twins;
    forall t, clock: seq<Time> | |clock| == |disk.log|
      ensures Sim(Recovered(cfg, disk, c), Replayed(cfg, disk, t, clock), used)
    {
      RecoveredTwins(cfg, disk, c, t, clock);
      MoreUsed(Recovered(cfg, disk, c), Replayed(cfg, disk, t, clock), Written(disk), used);
      assert Written(disk) + used == used;
    }
  }

  /** A restarted engine knows only ids that its disk knows. */
  lemma CrashIds(w: World, kept: nat, c: Clocks)
    requires WorldOk(w) && Possible(w, Crash(kept, c))
    ensures After(w, Crash(kept, c)).live.byId.Keys <= Written(Cut(w.disk, kept))
  {
    hide IndexOk, Roomy, BaseOk, Unlimited, Written, Sim, Replayed, Cut, Torn, Exact, Tick, Twins, Idle;
    var cfg, disk := w.live.cfg, Cut(w.disk, kept);
    CutFacts(w.disk, kept);
    RoomyCfg(w.live);
    CutUnlimited(w.disk, kept);
    var r := Replayed(cfg, disk, c.restore, c.replay);
    ReplayedFacts(cfg, disk, c.restore, c.replay);
    IdleTick(r, c.tick, c.now);
    TwinsKeys(r, Tick(r, c.tick, c.now));
  }

  lemma AfterOk(w: World, h: Happening)
    requires WorldOk(w) && Possible(w, h)
    ensures WorldOk(After(w, h))
  {
    hide WorldOk, Possible, After;
    match h
    case Work(ev) => WorkOk(w, ev);
    case Route(meta) => RouteOk(w, meta);
    case Sync(upTo) => SyncOk(w, upTo);
    case Save(saved) => SaveOk(w, saved);
    case Crash(kept, c) => CrashOk(w, kept, c);
  }

  // ----- whole histories -----

  ghost predicate PossibleRun(w: World, run: seq<Happening>)
    decreases |run|
  {
    run == [] || (Possible(w, run[0]) && PossibleRun(After(w, run[0]), run[1..]))
  }

  ghost function AfterAll(w: World, run: seq<Happening>): World
    requires PossibleRun(w, run)
    decreases |run|
  {
    if run == [] then w else AfterAll(After(w, run[0]), run[1..])
  }

  lemma {:induction false} HistoryOk(w: World, run: seq<Happening>)
    requires WorldOk(w) && PossibleRun(w, run)
    ensures WorldOk(AfterAll(w, run))
    decreases |run|
  {
    hide WorldOk, Possible, After;
    if run != [] {
      AfterOk(w, run[0]);
      HistoryOk(After(w, run[0]), run[1..]);
    }
  }

  /** The command that declares a queue is such a history: the declaration, and the binding of the queue to the
      default exchange. */
  lemma DeclareCommand(w: World, n: QName, a: DeclareArgs, now: Time)
    requires WorldOk(w) && a.maxLength == None
    ensures PossibleRun(w, [Work(Event(DoDeclare(n, a), now)), Route(Bind("", n, n))])
  {
    hide WorldOk, Declare, Emitted;
    var declare, bind := Work(Event(DoDeclare(n, a), now)), Route(Bind("", n, n));
    DeclareKeepsQueues(w.live, n, a, true);
    assert [declare, bind][1..] == [bind] && [bind][1..] == [];
    assert PossibleRun(After(w, declare), [bind]);
  }

  lemma CrashHolds(w: World, kept: nat, c: Clocks, id: Id)
    requires WorldOk(w) && Possible(w, Crash(kept, c)) && id in Written(Cut(w.disk, kept))
    ensures SameLife(Letter(After(w, Crash(kept, c)).live, id), Letter(w.live, id))
  {
    hide IndexOk, Roomy, BaseOk, Unlimited, Written, Sim, Replayed, Cut, SameLife, Letter, Tick;
    var cfg, disk := w.live.cfg, Cut(w.disk, kept);
    CutFacts(w.disk, kept);
    RoomyCfg(w.live);
    CutUnlimited(w.disk, kept);
    var r := Replayed(cfg, disk, c.restore, c.replay);
    ReplayedFacts(cfg, disk, c.restore, c.replay);
    IdleTick(r, c.tick, c.now);
    TwinsLife(r, Tick(r, c.tick, c.now), id);
    if kept == |w.disk.log| {
      CutWhole(w.disk);
      SimHeld(w.live, r, Written(disk), w.used);
    } else {
      assert TornAt(w.live, w.disk, kept);
    }
    LifeTrans(Letter(Tick(r, c.tick, c.now), id), Letter(r, id), Letter(w.live, id));
  }

  lemma CutWhole(disk: Disk)
    ensures Cut(disk, |disk.log|) == disk
  {
    assert disk.log[..|disk.log|] == disk.log;
  }

  lemma TwinsLife(a: State, b: State, id: Id)
    requires Twins(a, b) && IndexOk(a) && IndexOk(b)
    ensures SameLife(Letter(b, id), Letter(a, id))
  {
    hide TablesAgree, Letter, Alike, Twins;
    TwinsBack(a, b);
    TwinsLetter(b, a, id);
  }

  /** At least once, over any number of lifetimes. After any history of operations on unbounded queues,
      flushes, snapshots, crashes that tear the log anywhere after its durable part, and restarts at any
      clock readings: one more crash keeps every live message whose publication is among the kept records
      or in the snapshot, with the same payload, in its queue or in the origin or the dead-letter queue
      of its queue. */
  lemma AtLeastOnce(cfg: Config, run: seq<Happening>, kept: nat, c: Clocks, id: Id)
    requires cfg.maxLength == None
    requires PossibleRun(World(Init(cfg), Disk(None, []), 0, {}), run)
    requires
      var w := AfterAll(World(Init(cfg), Disk(None, []), 0, {}), run);
      Possible(w, Crash(kept, c)) && id in Written(Cut(w.disk, kept)) && Letter(w.live, id).Some?
    ensures
      var w := AfterAll(World(Init(cfg), Disk(None, []), 0, {}), run);
      var (before, after) := (Letter(w.live, id), Letter(After(w, Crash(kept, c)).live, id));
      && after.Some? && SameLetter(before.value, after.value)
      && OriginQueue(after.value.queue) == OriginQueue(before.value.queue)
  {
    hide WorldOk, Letter, After, Written;
    var start := World(Init(cfg), Disk(None, []), 0, {});
    StartOk(cfg);
    HistoryOk(start, run);
    CrashHolds(AfterAll(start, run), kept, c, id);
  }

  lemma KeptOn(live: map<QName, Queue>, o: Option<Message>, a: Option<Message>, b: Option<Message>)
    requires Kept(live, o, a) && (a.Some? ==> b.Some? && SameLetter(a.value, b.value) && b.value.queue == a.value.queue)
    ensures Kept(live, o, b)
  {
    hide DlqName;
  }

  lemma CrashKeeps(w: World, c: Clocks, id: Id)
    requires WorldOk(w) && |c.replay| == |w.disk.log|
    ensures Kept(w.live.queues, Letter(w.live, id), Letter(Recovered(w.live.cfg, w.disk, c), id))
  {
    hide IndexOk, Roomy, BaseOk, Unlimited, Written, Replayed, SameLetter, Letter, Tick, Kept, Torn, SameShape, Idle,
      Twins;
    var r := Replayed(w.live.cfg, w.disk, c.restore, c.replay);
    RoomyCfg(w.live);
    ReplayedFacts(w.live.cfg, w.disk, c.restore, c.replay);
    IdleTick(r, c.tick, c.now);
    TwinsLetter(r, Tick(r, c.tick, c.now), id);
    assert Sim(w.live, r, w.used);
    KeptOn(w.live.queues, Letter(w.live, id), Letter(r, id), Letter(Tick(r, c.tick, c.now), id));
  }

  /** If the crash leaves the log whole, as it does once everything is flushed, no live message is lost:
      each is held with the same payload, in the same queue or in the origin of its dead-letter queue. */
  lemma NothingLost(cfg: Config, run: seq<Happening>, c: Clocks, id: Id)
    requires cfg.maxLength == None
    requires PossibleRun(World(Init(cfg), Disk(None, []), 0, {}), run)
    requires |c.replay| == |AfterAll(World(Init(cfg), Disk(None, []), 0, {}), run).disk.log|
    ensures
      var w := AfterAll(World(Init(cfg), Disk(None, []), 0, {}), run);
      var (before, after) := (Letter(w.live, id), Letter(Recovered(w.live.cfg, w.disk, c), id));
      before.Some? ==>
        && after.Some? && SameLetter(before.value, after.value)
        && Housed(w.live.queues, before.value.queue, after.value.queue)
  {
    hide WorldOk, Letter, After, Recovered;
    var start := World(Init(cfg), Disk(None, []), 0, {});
    StartOk(cfg);
    HistoryOk(start, run);
    CrashKeeps(AfterAll(start, run), c, id);
  }
}
