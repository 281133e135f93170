/** Exactly which messages a replay holds: what was there or was published, and has not been deleted with its
    queue since. An acknowledgement makes no difference; only a snapshot makes it last. */
module Holdings {
  import opened Types
  import opened DlqNames
  import opened Journal
  import opened Engine
  import opened Index
  import opened Requeue
  import opened Runs
  import opened Snapshot
  import opened Replay
  import opened Recovery
  import opened Restoring
  import opened Restarts
  import opened Crashes
  import opened Worlds

  // ----- one record -----

  /** Whether a publish to the queue, which is declared if it is missing, finds room. */
  predicate HasRoom(s: State, n: QName) {
    if n in s.queues then !Full(s.queues[n]) else s.cfg.maxLength.Some? ==> s.cfg.maxLength.value > 0
  }

  /** The record brings the message in. */
  predicate Brings(s: State, rec: Rec, id: Id) {
    rec.meta.MessagePublish? && rec.meta.id == id && HasRoom(s, rec.meta.queue)
  }

  /** The record takes the message away: it deletes the message's queue, or the queue whose dead-letter queue
      the message is in. */
  predicate Takes(s: State, rec: Rec, id: Id) {
    rec.meta.QueueDelete? && id in s.byId && Deleted(s, rec.meta.name, s.byId[id])
  }

  lemma DeleteHolds(s: State, n: QName, id: Id)
    requires IndexOk(s)
    ensures id in Delete(s, n, false).0.byId <==> id in s.byId && !Deleted(s, n, s.byId[id])
  {
    hide TablesAgree, IsDlq, Delete, Deleted, Letter;
    var s' := Delete(s, n, false).0;
    DeletePlace(s, n, false);
    DeleteIndex(s, n, false);
    DeletedLetters(s, s', n);
    LetterQueue(s, id);
    LetterQueue(s', id);
  }

  lemma DeclareRoom(s: State, n: QName)
    ensures n in Declare(s, n, DEFAULT_ARGS, false).queues
    ensures Full(Declare(s, n, DEFAULT_ARGS, false).queues[n]) <==> !HasRoom(s, n)
  {
    hide IsDlq, Declare;
    DeclareKeepsQueues(s, n, DEFAULT_ARGS, false);
    if n in s.queues {
      DeclareThere(s, n, DEFAULT_ARGS, false);
    } else {
      NewRoom(s, n);
    }
  }

  lemma NewRoom(s: State, n: QName)
    requires n !in s.queues
    ensures n in Declare(s, n, DEFAULT_ARGS, false).queues
    ensures Declare(s, n, DEFAULT_ARGS, false).queues[n] == NewQueue(MakeSpec(s.cfg, n, DEFAULT_ARGS))
  {
    hide IsDlq;
  }

  lemma PublishHolds(s: State, m: Message, now: Time, id: Id)
    requires IndexOk(s) && Idle(s.queues)
    ensures id in Apply(s, PublishRec(m), now).byId <==> id in s.byId || (id == m.id && HasRoom(s, m.queue))
  {
    hide TablesAgree, IsDlq, Declare, Enqueue, Apply, HasRoom, Full, Idle, SameHouses, SameLetters, Letter;
    var s1 := Declare(s, m.queue, DEFAULT_ARGS, false);
    DeclareContinues(s, m.queue, DEFAULT_ARGS);
    DeclareRoom(s, m.queue);
    if m.id in s.byId {
      PublishKnown(s, m, now);
    } else {
      var s2 := Enqueue(s1, m, now, false).0;
      PublishApply(s, m, now);
      EnqueueLetters(s1, m, now, false);
      EnqueueIndex(s1, m, now, false);
      LetterQueue(s1, id);
      LetterQueue(s2, id);
      if id != m.id && HasRoom(s, m.queue) {
        SameLettersAt(s1, s2, m.id, id);
      }
    }
  }

  lemma SameLettersAt(s: State, s': State, id: Id, x: Id)
    requires SameLetters(s, s', id) && x != id
    ensures Letter(s', x) == Letter(s, x)
  {
    hide Letter;
  }

  lemma RequeueHolds(s: State, n: QName, x: Id, now: Time, id: Id)
    requires IndexOk(s)
    ensures id in DlqRequeue(s, n, x, now, false).0.byId <==> id in s.byId
  {
    hide TablesAgree, IsDlq, DlqRequeue, SameHouses, SameLetters, Letter, Found;
    var s' := DlqRequeue(s, n, x, now, false).0;
    RequeueSame(s, n, x, now, false);
    RequeueForm(s, n, x, now, false);
    if Found(s, n, x) {
      RequeueLetters(s, n, x, now, false);
      LetterQueue(s, id);
      LetterQueue(s', id);
      if id != x {
        SameLettersAt(s, s', x, id);
      }
    }
  }

  /** One record: the message is held afterwards if and only if it was held and is not taken, or is brought. */
  lemma ApplyHolds(s: State, rec: Rec, now: Time, id: Id)
    requires IndexOk(s) && Idle(s.queues)
    ensures id in Apply(s, rec, now).byId <==> (id in s.byId && !Takes(s, rec, id)) || Brings(s, rec, id)
  {
    hide TablesAgree, Idle, Declare, Delete, Enqueue, DlqRequeue, Ack, Nack, IsDlq, HasRoom, Deleted;
    match rec.meta
    case QueueDeclare(n, durable, maxLength, visibilityTimeout, maxAttempts, deadLetter) =>
      DeclareIds(s, n, DeclareArgs(durable, maxLength, Some(visibilityTimeout), Some(maxAttempts), deadLetter), false);
    case QueueDelete(n) => DeleteHolds(s, n, id);
    case Bind(_, q, _) => DeclareIds(s, q, DEFAULT_ARGS, false);
    case MessagePublish(x, q, attempts, maxAttempts, priority, availableAt, info) =>
      var m := Message(x, q, rec.payload, attempts, maxAttempts, priority, availableAt, info);
      assert rec == PublishRec(m);
      PublishHolds(s, m, now, id);
    case MessageAck(_, _) => QuietApply(s, rec, now);
    case MessageNack(_, _, _) => QuietApply(s, rec, now);
    case MessageRequeue(x, _, target) => RequeueHolds(s, target, x, now, id);
    case _ =>
  }

  // ----- a whole replay -----

  /** The replaying engine before record j. */
  function At(s: State, recs: seq<Rec>, clock: seq<Time>, j: nat): State
    requires |clock| == |recs| && j <= |recs|
  {
    ReplayAll(s, recs[..j], clock[..j])
  }

  lemma AtEnds(s: State, recs: seq<Rec>, clock: seq<Time>)
    requires |clock| == |recs|
    ensures At(s, recs, clock, 0) == s && At(s, recs, clock, |recs|) == ReplayAll(s, recs, clock)
  {
    assert recs[..|recs|] == recs && clock[..|recs|] == clock;
  }

  lemma AtNext(s: State, recs: seq<Rec>, clock: seq<Time>, j: nat)
    requires |clock| == |recs| && j < |recs|
    ensures At(s, recs, clock, j + 1) == Apply(At(s, recs, clock, j), recs[j], clock[j])
  {
    hide Apply, ReplayAll;
    var first, times := recs[..j + 1], clock[..j + 1];
    assert first == recs[..j] + [recs[j]] && times[..j] == clock[..j] && times[j..] == [clock[j]];
    ReplayConcat(s, recs[..j], [recs[j]], times);
    ReplayOne(At(s, recs, clock, j), recs[j], times[j..]);
  }

  lemma AtOk(s: State, recs: seq<Rec>, clock: seq<Time>, j: nat)
    requires IndexOk(s) && Idle(s.queues) && |clock| == |recs| && j <= |recs|
    ensures IndexOk(At(s, recs, clock, j)) && Idle(At(s, recs, clock, j).queues)
    decreases j
  {
    hide IndexOk, Idle, Apply, At, Roomy;
    if j == 0 {
      AtEnds(s, recs, clock);
    } else {
      AtOk(s, recs, clock, j - 1);
      AtNext(s, recs, clock, j - 1);
      ApplyContinues(At(s, recs, clock, j - 1), recs[j - 1], clock[j - 1]);
    }
  }

  /** The message is brought in by what precedes record i: it was there at the start, or record i - 1 is its
      publication and finds room. */
  predicate Enters(s: State, recs: seq<Rec>, clock: seq<Time>, id: Id, i: nat)
    requires |clock| == |recs| && i <= |recs|
  {
    if i == 0 then id in s.byId else Brings(At(s, recs, clock, i - 1), recs[i - 1], id)
  }

  /** No record from i up to k takes the message away. */
  predicate Stays(s: State, recs: seq<Rec>, clock: seq<Time>, id: Id, i: nat, k: nat)
    requires |clock| == |recs| && k <= |recs|
  {
    forall j: nat :: i <= j < k ==> !Takes(At(s, recs, clock, j), recs[j], id)
  }

  ghost predicate EnteredAndStayed(s: State, recs: seq<Rec>, clock: seq<Time>, id: Id, k: nat)
    requires |clock| == |recs| && k <= |recs|
  {
    exists i: nat :: i <= k && Enters(s, recs, clock, id, i) && Stays(s, recs, clock, id, i, k)
  }

  lemma {:induction false} AtHolds(s: State, recs: seq<Rec>, clock: seq<Time>, id: Id, k: nat)
    requires IndexOk(s) && Idle(s.queues) && |clock| == |recs| && k <= |recs|
    ensures id in At(s, recs, clock, k).byId <==> EnteredAndStayed(s, recs, clock, id, k)
    decreases k
  {
    hide IndexOk, Idle, Apply, At, Takes, Brings;
    if k == 0 {
      AtEnds(s, recs, clock);
      assert Stays(s, recs, clock, id, 0, 0);
      assert id in s.byId <==> Enters(s, recs, clock, id, 0);
    } else {
      AtHolds(s, recs, clock, id, k - 1);
      AtOk(s, recs, clock, k - 1);
      AtNext(s, recs, clock, k - 1);
      ApplyHolds(At(s, recs, clock, k - 1), recs[k - 1], clock[k - 1], id);
      OneLonger(s, recs, clock, id, k);
    }
  }

  lemma OneLonger(s: State, recs: seq<Rec>, clock: seq<Time>, id: Id, k: nat)
    requires |clock| == |recs| && 0 < k <= |recs|
    ensures
      EnteredAndStayed(s, recs, clock, id, k) <==>
        (EnteredAndStayed(s, recs, clock, id, k - 1) && !Takes(At(s, recs, clock, k - 1), recs[k - 1], id))
        || Brings(At(s, recs, clock, k - 1), recs[k - 1], id)
  {
    hide At, Takes, Brings;
    if EnteredAndStayed(s, recs, clock, id, k) {
      var i: nat :| i <= k && Enters(s, recs, clock, id, i) && Stays(s, recs, clock, id, i, k);
      if i < k {
        assert Stays(s, recs, clock, id, i, k - 1);
      }
    }
    if EnteredAndStayed(s, recs, clock, id, k - 1) && !Takes(At(s, recs, clock, k - 1), recs[k - 1], id) {
      var i: nat :| i <= k - 1 && Enters(s, recs, clock, id, i) && Stays(s, recs, clock, id, i, k - 1);
      assert Stays(s, recs, clock, id, i, k);
    }
    if Brings(At(s, recs, clock, k - 1), recs[k - 1], id) {
      assert Enters(s, recs, clock, id, k) && Stays(s, recs, clock, id, k, k);
    }
  }

  /** A whole replay, in closed form: a message is held at the end if and only if it was there at the start, or
      was published at some point and found room, and no later record deletes the queue that it is in. */
  lemma ReplayHolds(s: State, recs: seq<Rec>, clock: seq<Time>, id: Id)
    requires IndexOk(s) && Idle(s.queues) && |clock| == |recs|
    ensures id in ReplayAll(s, recs, clock).byId <==>
            exists i: nat :: i <= |recs| && Enters(s, recs, clock, id, i) && Stays(s, recs, clock, id, i, |recs|)
  {
    hide IndexOk, Idle, At, ReplayAll, Enters, Stays;
    AtHolds(s, recs, clock, id, |recs|);
    AtEnds(s, recs, clock);
  }

  // ----- recovery -----

  /** The message is in the snapshot, or the i-th record of the log publishes it. */
  ghost predicate Sources(disk: Disk, id: Id, i: nat)
    requires i <= |disk.log|
  {
    if i == 0 then id in SavedIds(disk.base) else id in RecIds(disk.log[i - 1])
  }

  lemma AtRoomy(s: State, recs: seq<Rec>, clock: seq<Time>, j: nat)
    requires IndexOk(s) && Idle(s.queues) && Roomy(s) && |clock| == |recs| && j <= |recs|
    requires forall rec :: rec in recs ==> Unlimited(rec)
    ensures Roomy(At(s, recs, clock, j))
  {
    hide IndexOk, Idle, Roomy, Unlimited, ReplayAll;
    ReplayContinues(s, recs[..j], clock[..j]);
  }

  lemma RoomyRoom(s: State, n: QName)
    requires Roomy(s)
    ensures HasRoom(s, n)
  {
  }

  lemma RoomyEnters(s: State, disk: Disk, clock: seq<Time>, id: Id, i: nat)
    requires IndexOk(s) && Idle(s.queues) && Roomy(s) && |clock| == |disk.log| && i <= |disk.log|
    requires s.byId.Keys == SavedIds(disk.base) && forall rec :: rec in disk.log ==> Unlimited(rec)
    ensures Enters(s, disk.log, clock, id, i) <==> Sources(disk, id, i)
  {
    hide IndexOk, Idle, Roomy, Unlimited, At, SavedIds, HasRoom;
    if i > 0 {
      AtRoomy(s, disk.log, clock, i - 1);
      if disk.log[i - 1].meta.MessagePublish? {
        RoomyRoom(At(s, disk.log, clock, i - 1), disk.log[i - 1].meta.queue);
      }
    }
  }

  lemma BaseIds(cfg: Config, base: Option<Saved>, now: Time)
    requires BaseOk(cfg, base)
    ensures Base(cfg, base, now).byId.Keys == SavedIds(base)
  {
    hide IndexOk, Roomy, IsSnapshot, Restore, SavedIds, Partial, Idle, Letter;
    if base.Some? {
      var src :| IndexOk(src) && Roomy(src) && src.cfg == cfg && IsSnapshot(src, base.value);
      RestoreTables(src, base.value, Init(cfg), now);
      SavedWithin(src, base.value);
      forall id | id in src.byId
        ensures id in SavedIds(base)
      {
        SavedKnown(src, base.value, id);
      }
    } else {
      NoSaved(cfg);
    }
  }

  lemma NoSaved(cfg: Config)
    ensures Init(cfg).byId.Keys == SavedIds(None)
  {
  }

  /** What recovery holds, exactly: the messages of the snapshot and of the publications in the log, except
      those that a later record deletes with their queue. No other record matters. */
  lemma RecoveredHolds(cfg: Config, disk: Disk, c: Clocks, id: Id)
    requires BaseOk(cfg, disk.base) && cfg.maxLength == None && |c.replay| == |disk.log|
    requires forall rec :: rec in disk.log ==> Unlimited(rec)
    ensures
      id in Recovered(cfg, disk, c).byId <==>
      exists i: nat :: i <= |disk.log| && Sources(disk, id, i)
                       && Stays(Base(cfg, disk.base, c.restore), disk.log, c.replay, id, i, |disk.log|)
  {
    hide IndexOk, Idle, Roomy, BaseOk, Base, ReplayAll, Unlimited, Tick, Enters, Stays, Sources, SavedIds, Twins, LogIds;
    var s := Base(cfg, disk.base, c.restore);
    var r := Replayed(cfg, disk, c.restore, c.replay);
    BaseFacts(cfg, disk.base, c.restore);
    BaseIds(cfg, disk.base, c.restore);
    ReplayedFacts(cfg, disk, c.restore, c.replay);
    IdleTick(r, c.tick, c.now);
    TwinsKeys(r, Tick(r, c.tick, c.now));
    ReplayHolds(s, disk.log, c.replay, id);
    forall i: nat | i <= |disk.log|
      ensures Enters(s, disk.log, c.replay, id, i) <==> Sources(disk, id, i)
    {
      RoomyEnters(s, disk, c.replay, id, i);
    }
  }

  /** The same for every crash that ends a history. */
  lemma CrashHoldsExactly(cfg: Config, run: seq<Happening>, kept: nat, c: Clocks, id: Id)
    requires cfg.maxLength == None
    requires PossibleRun(World(Init(cfg), Disk(None, []), 0, {}), run)
    requires Possible(AfterAll(World(Init(cfg), Disk(None, []), 0, {}), run), Crash(kept, c))
    ensures
      var w := AfterAll(World(Init(cfg), Disk(None, []), 0, {}), run);
      var disk := Cut(w.disk, kept);
      id in After(w, Crash(kept, c)).live.byId <==>
      exists i: nat :: i <= kept && Sources(disk, id, i)
                       && Stays(Base(w.live.cfg, disk.base, c.restore), disk.log, c.replay, id, i, kept)
  {
    hide IndexOk, PossibleRun, AfterAll, Roomy, BaseOk, Base, Unlimited, Stays, Sources, Recovered, Exact, Torn, Written;
    var start := World(Init(cfg), Disk(None, []), 0, {});
    StartOk(cfg);
    HistoryOk(start, run);
    var w := AfterAll(start, run);
    RoomyCfg(w.live);
    CutFacts(w.disk, kept);
    CutUnlimited(w.disk, kept);
    RecoveredHolds(w.live.cfg, Cut(w.disk, kept), c, id);
  }

  // ----- acknowledged messages -----

  /** One acknowledgement: the engine that replays it keeps the message. */
  lemma AckForgotten(live: State, back: State, used: set<Id>, id: Id, later: Time)
    requires Sim(live, back, used) && Ack(live, id, true).1 == AckOk
    ensures id in live.byId && id !in Ack(live, id, true).0.byId
    ensures id in Apply(back, Rec(MessageAck(id, live.byId[id]), []), later).byId
  {
    hide TablesAgree, SameShape, AllKept, Idle, Trim, Apply;
    LiveInBack(live, back, used, id);
    QuietApply(back, Rec(MessageAck(id, live.byId[id]), []), later);
  }

  lemma AckKnown(s: State, id: Id)
    requires Ack(s, id, true).1 == AckOk
    ensures id in s.byId
  {
    hide Trim;
  }

  lemma AckEmitted(s: State, id: Id, now: Time)
    requires Ack(s, id, true).1 == AckOk
    ensures Emitted(s, Event(DoAck(id), now)) == [Rec(MessageAck(id, s.byId[id]), [])]
  {
    hide Trim;
  }

  lemma WorldSim(w: World, c: Clocks)
    requires WorldOk(w) && |c.replay| == |w.disk.log|
    ensures Sim(w.live, Replayed(w.live.cfg, w.disk, c.restore, c.replay), w.used)
  {
    hide IndexOk, Roomy, BaseOk, Unlimited, Written, Replayed, Torn, Sim;
  }

  /** Acknowledging does not outlive a crash: in any world that a history reaches, a message that has just
      been acknowledged is gone from the engine, and after a crash and a restart it is there again, with its
      payload, even if the log, with the record of the acknowledgement, is whole. */
  lemma AckedComesBack(cfg: Config, run: seq<Happening>, id: Id, now: Time, c: Clocks)
    requires cfg.maxLength == None
    requires PossibleRun(World(Init(cfg), Disk(None, []), 0, {}), run)
    requires
      var w := AfterAll(World(Init(cfg), Disk(None, []), 0, {}), run);
      Ack(w.live, id, true).1 == AckOk && |c.replay| == |w.disk.log| + 1
    ensures
      var w := AfterAll(World(Init(cfg), Disk(None, []), 0, {}), run);
      && Possible(w, Work(Event(DoAck(id), now)))
      && var w' := After(w, Work(Event(DoAck(id), now)));
      && id !in w'.live.byId && Possible(w', Crash(|c.replay|, c))
      && Letter(w.live, id).Some? && id in After(w', Crash(|c.replay|, c)).live.byId
      && SameLife(Letter(After(w', Crash(|c.replay|, c)).live, id), Letter(w.live, id))
  {
    hide WorldOk, PossibleRun, AfterAll, Possible, After, Ack;
    var start := World(Init(cfg), Disk(None, []), 0, {});
    StartOk(cfg);
    HistoryOk(start, run);
    AckCrash(AfterAll(start, run), id, now, c);
  }

  lemma AckCrash(w: World, id: Id, now: Time, c: Clocks)
    requires WorldOk(w) && Ack(w.live, id, true).1 == AckOk && |c.replay| == |w.disk.log| + 1
    ensures Possible(w, Work(Event(DoAck(id), now)))
    ensures
      var w' := After(w, Work(Event(DoAck(id), now)));
      && id !in w'.live.byId && Possible(w', Crash(|c.replay|, c))
      && Letter(w.live, id).Some? && id in After(w', Crash(|c.replay|, c)).live.byId
      && SameLife(Letter(After(w', Crash(|c.replay|, c)).live, id), Letter(w.live, id))
  {
    hide IndexOk, Roomy, BaseOk, Unlimited, Written, Exact, Torn, Replayed, Tick, Sim, Apply, Trim, Recovered, SameLife, Letter;
    var n, rec := |w.disk.log|, Rec(MessageAck(id, w.live.byId[id]), []);
    var disk' := Disk(w.disk.base, w.disk.log + [rec]);
    AckEmitted(w.live, id, now);
    WorldSim(w, Clocks(c.restore, c.replay[..n], c.tick, c.now));
    AckHeld(w, disk', id, c);
    CutWhole(disk');
  }

  lemma AckHeld(w: World, disk': Disk, id: Id, c: Clocks)
    requires WorldOk(w) && Ack(w.live, id, true).1 == AckOk && |c.replay| == |w.disk.log| + 1
    requires disk' == Disk(w.disk.base, w.disk.log + [Rec(MessageAck(id, w.live.byId[id]), [])])
    ensures id !in Ack(w.live, id, true).0.byId
    ensures Letter(w.live, id).Some? && id in Recovered(w.live.cfg, disk', c).byId
    ensures SameLife(Letter(Recovered(w.live.cfg, disk', c), id), Letter(w.live, id))
  {
    hide TablesAgree, Roomy, BaseOk, Unlimited, Written, Exact, Torn, Replayed, Sim, Apply, Ack, Recovered, SameLife, Letter;
    AckKnown(w.live, id);
    var n, rec := |w.disk.log|, Rec(MessageAck(id, w.live.byId[id]), []);
    var back := Replayed(w.live.cfg, w.disk, c.restore, c.replay[..n]);
    var live' := Recovered(w.live.cfg, disk', c);
    WorldSim(w, Clocks(c.restore, c.replay[..n], c.tick, c.now));
    AckReplayed(w, disk', rec, c);
    AckForgotten(w.live, back, w.used, id, c.replay[n]);
    LetterQueue(w.live, id);
    SimHeld(w.live, back, {id}, w.used);
    TwinsKeys(back, live');
    TwinsLife(back, live', id);
    LifeTrans(Letter(live', id), Letter(back, id), Letter(w.live, id));
  }

  lemma AckReplayed(w: World, disk': Disk, rec: Rec, c: Clocks)
    requires WorldOk(w) && disk' == Disk(w.disk.base, w.disk.log + [rec]) && |c.replay| == |w.disk.log| + 1
    requires Quiet(rec.meta)
    ensures
      var back := Replayed(w.live.cfg, w.disk, c.restore, c.replay[..|w.disk.log|]);
      && IndexOk(back) && IndexOk(Recovered(w.live.cfg, disk', c)) && Twins(back, Recovered(w.live.cfg, disk', c))
      && Apply(back, rec, c.replay[|w.disk.log|]) == back
  {
    hide IndexOk, Roomy, BaseOk, Unlimited, Written, Exact, Torn, Replayed, Tick, Apply, ReplayAll, Idle, Twins;
    var n := |w.disk.log|;
    var back := Replayed(w.live.cfg, w.disk, c.restore, c.replay[..n]);
    RoomyCfg(w.live);
    ReplayedFacts(w.live.cfg, w.disk, c.restore, c.replay[..n]);
    ReplayedMore(w.live.cfg, w.disk.base, w.disk.log, [rec], c.restore, c.replay);
    assert Disk(w.disk.base, w.disk.log) == w.disk;
    ReplayOne(back, rec, c.replay[n..]);
    QuietApply(back, rec, c.replay[n]);
    IdleTick(back, c.tick, c.now);
  }

  /** A snapshot makes the acknowledgement last: a message that is in none and is not published again is not
      held after the next recovery. */
  lemma SavedStaysGone(w: World, saved: Saved, log: seq<Rec>, c: Clocks, id: Id)
    requires WorldOk(w) && IsSnapshot(w.live, saved) && id !in w.live.byId && id !in LogIds(log)
    requires (forall rec :: rec in log ==> Unlimited(rec)) && |c.replay| == |log|
    ensures id !in Recovered(w.live.cfg, Disk(Some(saved), log), c).byId
  {
    hide IndexOk, Roomy, Unlimited, Exact, Torn, Tick, Replayed, IsSnapshot, Twins, Idle, LogIds, SavedIds;
    var disk := Disk(Some(saved), log);
    SavedWithin(w.live, saved);
    RoomyCfg(w.live);
    var r := Replayed(w.live.cfg, disk, c.restore, c.replay);
    ReplayedFacts(w.live.cfg, disk, c.restore, c.replay);
    IdleTick(r, c.tick, c.now);
    TwinsKeys(r, Tick(r, c.tick, c.now));
  }
}
