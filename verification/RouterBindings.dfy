/** Exactly which bindings a replay has: what was there or was brought by a record, and has not been taken since. */
module RouterBindings {
  import opened Types
  import opened Journal
  import opened Engine
  import Index
  import opened Runs
  import opened Replay
  import opened Crashes
  import opened Routing
  import opened RouterReplay

  // ----- one record -----

  /** The record brings the binding: the declaration of a queue, the publish to a queue that is missing, or the
      binding itself. */
  predicate Binds(r: Router, rec: Rec, b: Binding) {
    match rec.meta
    case QueueDeclare(n, _, _, _, _, _) => b == Binding(DEFAULT_EXCHANGE, n, n)
    case MessagePublish(_, q, _, _, _, _, _) => b == Binding(DEFAULT_EXCHANGE, q, q) && q !in r.engine.queues
    case Bind(x, q, key) => b == Binding(x, q, key) && x in r.exchanges
    case _ => false
  }

  /** The record takes the binding away: it is removed, or its exchange is deleted. */
  predicate Unbinds(rec: Rec, b: Binding) {
    match rec.meta
    case Unbind(x, q, key) => b == Binding(x, q, key)
    case ExchangeDelete(x) => b.exchange == x && x != DEFAULT_EXCHANGE
    case _ => false
  }

  lemma ApplyQueue(s: State, rec: Rec, now: Time)
    ensures rec.meta.QueueDeclare? ==> rec.meta.name in Apply(s, rec, now).queues
    ensures rec.meta.Bind? ==> rec.meta.queue in Apply(s, rec, now).queues
    ensures rec.meta.MessagePublish? ==> rec.meta.queue in Apply(s, rec, now).queues
  {
    hide Declare, Delete, Enqueue, Ack, Nack, DlqRequeue;
    if rec.meta.QueueDeclare? {
      DeclareKeepsQueues(s, rec.meta.name, DeclareArgs(rec.meta.durable, rec.meta.maxLength, Some(rec.meta.visibilityTimeout),
                                                       Some(rec.meta.maxAttempts), rec.meta.deadLetter), false);
    } else if rec.meta.Bind? {
      DeclareKeepsQueues(s, rec.meta.queue, DEFAULT_ARGS, false);
    } else if rec.meta.MessagePublish? {
      var q := rec.meta.queue;
      DeclareKeepsQueues(s, q, DEFAULT_ARGS, false);
      EnqueueKeeps(Declare(s, q, DEFAULT_ARGS, false),
                   Message(rec.meta.id, q, rec.payload, rec.meta.attempts, rec.meta.maxAttempts, rec.meta.priority,
                           rec.meta.availableAt, rec.meta.info), now);
    }
  }

  lemma EnqueueKeeps(s: State, m: Message, now: Time)
    ensures s.queues.Keys <= Enqueue(s, m, now, false).0.queues.Keys
  {
    hide Heaps.Push, Full, Later, Stored;
  }

  /** What every replay keeps of the router, whatever the records are. */
  ghost predicate Rooted(r: Router) {
    DEFAULT_EXCHANGE in r.exchanges && forall b :: b in r.bindings ==> b.exchange in r.exchanges
  }

  /** One record: a binding is there afterwards if and only if it was there and is not taken, or is brought. */
  lemma ApplyBinds(r: Router, rec: Rec, now: Time, b: Binding)
    requires Rooted(r)
    ensures b in RouterApply(r, rec, now).bindings <==> (b in r.bindings && !Unbinds(rec, b)) || Binds(r, rec, b)
  {
    hide Apply;
    ApplyQueue(r.engine, rec, now);
  }

  lemma ApplyRooted(r: Router, rec: Rec, now: Time)
    requires Rooted(r)
    ensures Rooted(RouterApply(r, rec, now))
  {
    hide Apply;
  }

  // ----- a whole replay -----

  function RouterAt(r: Router, recs: seq<Rec>, clock: seq<Time>, j: nat): Router
    requires |clock| == |recs| && j <= |recs|
  {
    RouterReplayAll(r, recs[..j], clock[..j])
  }

  lemma RouterAtEnds(r: Router, recs: seq<Rec>, clock: seq<Time>)
    requires |clock| == |recs|
    ensures RouterAt(r, recs, clock, 0) == r && RouterAt(r, recs, clock, |recs|) == RouterReplayAll(r, recs, clock)
  {
    assert recs[..|recs|] == recs && clock[..|recs|] == clock;
  }

  lemma RouterAtNext(r: Router, recs: seq<Rec>, clock: seq<Time>, j: nat)
    requires |clock| == |recs| && j < |recs|
    ensures RouterAt(r, recs, clock, j + 1) == RouterApply(RouterAt(r, recs, clock, j), recs[j], clock[j])
  {
    hide RouterApply, RouterReplayAll;
    var times := clock[..j + 1];
    assert recs[..j + 1] == recs[..j] + [recs[j]] && times[..j] == clock[..j] && times[j..] == [clock[j]];
    RouterReplayConcat(r, recs[..j], [recs[j]], times);
    RouterReplayOne(RouterAt(r, recs, clock, j), recs[j], times[j..]);
  }

  lemma RootedAt(r: Router, recs: seq<Rec>, clock: seq<Time>, j: nat)
    requires Rooted(r) && |clock| == |recs| && j <= |recs|
    ensures Rooted(RouterAt(r, recs, clock, j))
    decreases j
  {
    hide Rooted, RouterApply, RouterAt;
    if j == 0 {
      RouterAtEnds(r, recs, clock);
    } else {
      RootedAt(r, recs, clock, j - 1);
      RouterAtNext(r, recs, clock, j - 1);
      ApplyRooted(RouterAt(r, recs, clock, j - 1), recs[j - 1], clock[j - 1]);
    }
  }

  /** The binding is brought by what precedes record i. */
  predicate Comes(r: Router, recs: seq<Rec>, clock: seq<Time>, b: Binding, i: nat)
    requires |clock| == |recs| && i <= |recs|
  {
    if i == 0 then b in r.bindings else Binds(RouterAt(r, recs, clock, i - 1), recs[i - 1], b)
  }

  /** No record from i up to k takes the binding away. */
  predicate Lasts(recs: seq<Rec>, b: Binding, i: nat, k: nat)
    requires k <= |recs|
  {
    forall j: nat :: i <= j < k ==> !Unbinds(recs[j], b)
  }

  ghost predicate CameAndLasted(r: Router, recs: seq<Rec>, clock: seq<Time>, b: Binding, k: nat)
    requires |clock| == |recs| && k <= |recs|
  {
    exists i: nat :: i <= k && Comes(r, recs, clock, b, i) && Lasts(recs, b, i, k)
  }

  lemma OneRecordMore(r: Router, recs: seq<Rec>, clock: seq<Time>, b: Binding, k: nat)
    requires |clock| == |recs| && 0 < k <= |recs|
    ensures
      CameAndLasted(r, recs, clock, b, k) <==>
        (CameAndLasted(r, recs, clock, b, k - 1) && !Unbinds(recs[k - 1], b))
        || Binds(RouterAt(r, recs, clock, k - 1), recs[k - 1], b)
  {
    hide RouterAt, Unbinds, Binds;
    if CameAndLasted(r, recs, clock, b, k) {
      var i: nat :| i <= k && Comes(r, recs, clock, b, i) && Lasts(recs, b, i, k);
      if i < k {
        assert Lasts(recs, b, i, k - 1);
      }
    }
    if CameAndLasted(r, recs, clock, b, k - 1) && !Unbinds(recs[k - 1], b) {
      var i: nat :| i <= k - 1 && Comes(r, recs, clock, b, i) && Lasts(recs, b, i, k - 1);
      assert Lasts(recs, b, i, k);
    }
    if Binds(RouterAt(r, recs, clock, k - 1), recs[k - 1], b) {
      assert Comes(r, recs, clock, b, k) && Lasts(recs, b, k, k);
    }
  }

  lemma {:induction false} BindingsAt(r: Router, recs: seq<Rec>, clock: seq<Time>, b: Binding, k: nat)
    requires Rooted(r) && |clock| == |recs| && k <= |recs|
    ensures b in RouterAt(r, recs, clock, k).bindings <==> CameAndLasted(r, recs, clock, b, k)
    decreases k
  {
    hide Rooted, RouterApply, RouterAt, Unbinds, Binds;
    if k == 0 {
      RouterAtEnds(r, recs, clock);
      assert Lasts(recs, b, 0, 0);
      assert b in r.bindings <==> Comes(r, recs, clock, b, 0);
    } else {
      BindingsAt(r, recs, clock, b, k - 1);
      RootedAt(r, recs, clock, k - 1);
      RouterAtNext(r, recs, clock, k - 1);
      ApplyBinds(RouterAt(r, recs, clock, k - 1), recs[k - 1], clock[k - 1], b);
      OneRecordMore(r, recs, clock, b, k);
    }
  }

  /** A whole replay, in closed form: a binding is there at the end if and only if it was there at the start, or
      a record brought it, and no record since removes it or deletes its exchange. */
  lemma ReplayBindings(r: Router, recs: seq<Rec>, clock: seq<Time>, b: Binding)
    requires Rooted(r) && |clock| == |recs|
    ensures b in RouterReplayAll(r, recs, clock).bindings <==>
            exists i: nat :: i <= |recs| && Comes(r, recs, clock, b, i) && Lasts(recs, b, i, |recs|)
  {
    hide Rooted, RouterAt, RouterReplayAll, Comes, Lasts;
    BindingsAt(r, recs, clock, b, |recs|);
    RouterAtEnds(r, recs, clock);
  }

  // ----- the live router, from its records -----

  function BindMeta(b: Binding): Meta {
    Bind(b.exchange, b.queue, b.routingKey)
  }

  /** The journal has a record that makes the binding, and none since that takes it away. */
  ghost predicate BoundBy(recs: seq<Rec>, b: Binding) {
    exists i: nat :: i < |recs| && recs[i].meta == BindMeta(b) && Lasts(recs, b, i + 1, |recs|)
  }

  lemma BoundByNext(recs: seq<Rec>, rec: Rec, b: Binding)
    ensures BoundBy(recs + [rec], b) <==> (BoundBy(recs, b) && !Unbinds(rec, b)) || rec.meta == BindMeta(b)
  {
    var all := recs + [rec];
    if BoundBy(all, b) {
      var i: nat :| i < |all| && all[i].meta == BindMeta(b) && Lasts(all, b, i + 1, |all|);
      if i < |recs| {
        forall j: nat | i + 1 <= j < |recs|
          ensures !Unbinds(recs[j], b)
        {
          assert all[j] == recs[j];
        }
        assert !Unbinds(all[|recs|], b);
      }
    }
    if BoundBy(recs, b) && !Unbinds(rec, b) {
      var i: nat :| i < |recs| && recs[i].meta == BindMeta(b) && Lasts(recs, b, i + 1, |recs|);
      assert all[i].meta == BindMeta(b) && Lasts(all, b, i + 1, |all|);
    }
    if rec.meta == BindMeta(b) {
      assert all[|recs|].meta == BindMeta(b) && Lasts(all, b, |recs| + 1, |all|);
    }
  }

  lemma BoundByEngine(recs: seq<Rec>, more: seq<Rec>, b: Binding)
    requires forall rec :: rec in more ==> !RouterMeta(rec.meta)
    ensures BoundBy(recs + more, b) <==> BoundBy(recs, b)
    decreases |more|
  {
    hide BoundBy;
    if more == [] {
      assert recs + more == recs;
    } else {
      assert more[0] in more && forall rec :: rec in more[1..] ==> rec in more;
      BoundByNext(recs, more[0], b);
      BoundByEngine(recs + [more[0]], more[1..], b);
      assert recs + [more[0]] + more[1..] == recs + more;
    }
  }

  /** The bindings are those that the journal says were made and not taken away. */
  ghost predicate Journaled(r: Router) {
    forall b :: b in r.bindings <==> BoundBy(r.engine.journal, b)
  }

  lemma JournaledStep(r: Router, op: RouterOp)
    requires RouterCan(r, op) && Index.IndexOk(r.engine) && RouterOk(r) && Journaled(r)
    ensures Journaled(RouterStep(r, op)) && RouterOk(RouterStep(r, op))
  {
    hide Index.TablesAgree, BoundBy, Step, RouterMeta;
    var r' := RouterStep(r, op);
    RouterJournals(r, op);
    forall b
      ensures b in r'.bindings <==> BoundBy(r'.engine.journal, b)
    {
      if op.OnEngine? {
        EngineJournals(r.engine, op.ev);
        BoundByEngine(r.engine.journal, Emitted(r.engine, op.ev), b);
      } else {
        JournaledOne(r, op, b);
      }
    }
  }

  lemma JournaledOne(r: Router, op: RouterOp, b: Binding)
    requires !op.OnEngine? && RouterOk(r) && (b in r.bindings <==> BoundBy(r.engine.journal, b))
    ensures b in RouterStep(r, op).bindings <==> BoundBy(r.engine.journal + RouterEmitted(r, op), b)
  {
    hide BoundBy;
    if RouterEmitted(r, op) == [] {
      assert r.engine.journal + [] == r.engine.journal;
    } else {
      var rec := RouterEmitted(r, op)[0];
      assert RouterEmitted(r, op) == [rec];
      BoundByNext(r.engine.journal, rec, b);
    }
  }

  lemma {:induction false} RunJournaled(r: Router, ops: seq<RouterOp>)
    requires RouterCanAll(r, ops) && Index.IndexOk(r.engine) && RouterOk(r) && Journaled(r)
    ensures Journaled(RouterRun(r, ops)) && RouterOk(RouterRun(r, ops))
    decreases |ops|
  {
    hide Index.IndexOk, RouterOk, Journaled, RouterCan, RouterStep;
    if ops != [] {
      RouterIndex(r, ops[0]);
      JournaledStep(r, ops[0]);
      RunJournaled(RouterStep(r, ops[0]), ops[1..]);
    }
  }

  lemma NewJournaled(cfg: Config)
    ensures Index.IndexOk(NewRouter(cfg).engine) && RouterOk(NewRouter(cfg)) && Journaled(NewRouter(cfg))
    ensures Rooted(NewRouter(cfg)) && NewRouter(cfg).bindings == {} && NewRouter(cfg).engine.journal == []
  {
  }

  /** The live router, in closed form: after any run a binding is there if and only if the journal has a record
      that makes it, and none since that takes it away. */
  lemma LiveBindings(cfg: Config, ops: seq<RouterOp>, b: Binding)
    requires RouterCanAll(NewRouter(cfg), ops)
    ensures
      var live := RouterRun(NewRouter(cfg), ops);
      b in live.bindings <==> BoundBy(live.engine.journal, b)
  {
    hide RouterCanAll, RouterRun, BoundBy, Index.IndexOk, RouterOk, NewRouter, Rooted;
    NewJournaled(cfg);
    RunJournaled(NewRouter(cfg), ops);
  }

  // ----- the live exchanges, from their records -----

  function MakeMeta(e: Exchange): Meta {
    ExchangeDeclare(e.name, KindName(e.kind), e.durable)
  }

  ghost predicate NotDeleted(recs: seq<Rec>, name: string, from: nat) {
    forall j: nat :: from <= j < |recs| ==> recs[j].meta != ExchangeDelete(name)
  }

  /** The journal has a record that makes the exchange, and none since that deletes it. */
  ghost predicate MadeBy(recs: seq<Rec>, e: Exchange) {
    exists i: nat :: i < |recs| && recs[i].meta == MakeMeta(e) && NotDeleted(recs, e.name, i + 1)
  }

  lemma MadeByNext(recs: seq<Rec>, rec: Rec, e: Exchange)
    ensures MadeBy(recs + [rec], e) <==> (MadeBy(recs, e) && rec.meta != ExchangeDelete(e.name)) || rec.meta == MakeMeta(e)
  {
    var all := recs + [rec];
    if MadeBy(all, e) {
      var i: nat :| i < |all| && all[i].meta == MakeMeta(e) && NotDeleted(all, e.name, i + 1);
      if i < |recs| {
        forall j: nat | i + 1 <= j < |recs|
          ensures recs[j].meta != ExchangeDelete(e.name)
        {
          assert all[j] == recs[j];
        }
        assert all[|recs|].meta != ExchangeDelete(e.name);
        assert NotDeleted(recs, e.name, i + 1);
      }
    }
    if MadeBy(recs, e) && rec.meta != ExchangeDelete(e.name) {
      var i: nat :| i < |recs| && recs[i].meta == MakeMeta(e) && NotDeleted(recs, e.name, i + 1);
      assert all[i].meta == MakeMeta(e) && NotDeleted(all, e.name, i + 1);
    }
    if rec.meta == MakeMeta(e) {
      assert all[|recs|].meta == MakeMeta(e) && NotDeleted(all, e.name, |recs| + 1);
    }
  }

  lemma MadeByEngine(recs: seq<Rec>, more: seq<Rec>, e: Exchange)
    requires forall rec :: rec in more ==> !RouterMeta(rec.meta)
    ensures MadeBy(recs + more, e) <==> MadeBy(recs, e)
    decreases |more|
  {
    hide MadeBy;
    if more == [] {
      assert recs + more == recs;
    } else {
      assert more[0] in more && forall rec :: rec in more[1..] ==> rec in more;
      MadeByNext(recs, more[0], e);
      MadeByEngine(recs + [more[0]], more[1..], e);
      assert recs + [more[0]] + more[1..] == recs + more;
    }
  }

  predicate Has(r: Router, e: Exchange) {
    e.name in r.exchanges && r.exchanges[e.name] == e
  }

  /** The exchanges are the default one and those that the journal says were made and not deleted. */
  ghost predicate ExchangesJournaled(r: Router) {
    forall e :: Has(r, e) <==> e == Exchange(DEFAULT_EXCHANGE, Direct, true) || MadeBy(r.engine.journal, e)
  }

  lemma ExchangeOne(r: Router, op: RouterOp, e: Exchange)
    requires !op.OnEngine? && RouterOk(r) && ExchangesJournaled(r)
    ensures Has(RouterStep(r, op), e) <==>
            e == Exchange(DEFAULT_EXCHANGE, Direct, true) || MadeBy(r.engine.journal + RouterEmitted(r, op), e)
  {
    hide MadeBy;
    assert Has(r, e) <==> e == Exchange(DEFAULT_EXCHANGE, Direct, true) || MadeBy(r.engine.journal, e);
    if RouterEmitted(r, op) == [] {
      assert r.engine.journal + [] == r.engine.journal;
    } else {
      var rec := RouterEmitted(r, op)[0];
      assert RouterEmitted(r, op) == [rec];
      MadeByNext(r.engine.journal, rec, e);
    }
  }

  lemma ExchangesStep(r: Router, op: RouterOp)
    requires RouterCan(r, op) && Index.IndexOk(r.engine) && RouterOk(r) && ExchangesJournaled(r)
    ensures ExchangesJournaled(RouterStep(r, op))
  {
    hide Index.TablesAgree, MadeBy, Step, RouterMeta, RouterOk;
    var r' := RouterStep(r, op);
    RouterJournals(r, op);
    forall e
      ensures Has(r', e) <==> e == Exchange(DEFAULT_EXCHANGE, Direct, true) || MadeBy(r'.engine.journal, e)
    {
      if op.OnEngine? {
        EngineJournals(r.engine, op.ev);
        MadeByEngine(r.engine.journal, Emitted(r.engine, op.ev), e);
        assert Has(r, e) <==> Has(r', e);
      } else {
        ExchangeOne(r, op, e);
      }
    }
  }

  lemma {:induction false} RunExchanges(r: Router, ops: seq<RouterOp>)
    requires RouterCanAll(r, ops) && Index.IndexOk(r.engine) && RouterOk(r) && Journaled(r) && ExchangesJournaled(r)
    ensures ExchangesJournaled(RouterRun(r, ops))
    decreases |ops|
  {
    hide Index.IndexOk, RouterOk, Journaled, ExchangesJournaled, RouterCan, RouterStep;
    if ops != [] {
      RouterIndex(r, ops[0]);
      JournaledStep(r, ops[0]);
      ExchangesStep(r, ops[0]);
      RunExchanges(RouterStep(r, ops[0]), ops[1..]);
    }
  }

  lemma NewExchanges(cfg: Config)
    ensures ExchangesJournaled(NewRouter(cfg))
  {
  }

  /** After any run an exchange is there, of a kind and durable or not, if and only if it is the default one, or the
      journal has a record that makes it so and none since that deletes it. */
  lemma LiveExchanges(cfg: Config, ops: seq<RouterOp>, e: Exchange)
    requires RouterCanAll(NewRouter(cfg), ops)
    ensures
      var live := RouterRun(NewRouter(cfg), ops);
      Has(live, e) <==> e == Exchange(DEFAULT_EXCHANGE, Direct, true) || MadeBy(live.engine.journal, e)
  {
    hide RouterCanAll, RouterRun, MadeBy, Has, Index.IndexOk, RouterOk, NewRouter, Rooted, Journaled;
    NewJournaled(cfg);
    NewExchanges(cfg);
    RunExchanges(NewRouter(cfg), ops);
  }

  // ----- when a restart gives back the same bindings -----

  /** A record declares the queue, and none since removes the binding of the queue under its own name. */
  ghost predicate BoundByReplay(r: Router, recs: seq<Rec>, clock: seq<Time>, n: QName)
    requires |clock| == |recs|
  {
    exists i: nat :: i < |recs| && (recs[i].meta.QueueDeclare? || recs[i].meta.MessagePublish?)
                     && Binds(RouterAt(r, recs, clock, i), recs[i], Binding(DEFAULT_EXCHANGE, n, n))
                     && Lasts(recs, Binding(DEFAULT_EXCHANGE, n, n), i + 1, |recs|)
  }

  lemma ComesOrBound(r: Router, recs: seq<Rec>, clock: seq<Time>, b: Binding)
    requires |clock| == |recs| && r.bindings == {} && !BoundBy(recs, b)
    ensures (exists i: nat :: i <= |recs| && Comes(r, recs, clock, b, i) && Lasts(recs, b, i, |recs|)) <==>
            Own(b) && BoundByReplay(r, recs, clock, b.queue)
  {
    hide RouterAt;
    if i: nat :| i <= |recs| && Comes(r, recs, clock, b, i) && Lasts(recs, b, i, |recs|) {
      assert i > 0 && Binds(RouterAt(r, recs, clock, i - 1), recs[i - 1], b);
      assert recs[i - 1].meta != BindMeta(b);
      assert Lasts(recs, b, i - 1 + 1, |recs|);
    }
    if Own(b) && BoundByReplay(r, recs, clock, b.queue) {
      assert b == Binding(DEFAULT_EXCHANGE, b.queue, b.queue);
      var i: nat :| i < |recs| && (recs[i].meta.QueueDeclare? || recs[i].meta.MessagePublish?)
                    && Binds(RouterAt(r, recs, clock, i), recs[i], b) && Lasts(recs, b, i + 1, |recs|);
      assert Comes(r, recs, clock, b, i + 1);
    }
  }

  /** The bindings that a restart on the whole journal adds to those of the live router are exactly those of the
      queues that a record declares, under their own name, unless a later record removes them. */
  lemma AddedBindings(cfg: Config, ops: seq<RouterOp>, clock: seq<Time>, b: Binding)
    requires RouterCanAll(NewRouter(cfg), ops) && |clock| == |RouterRun(NewRouter(cfg), ops).engine.journal|
    ensures
      var live := RouterRun(NewRouter(cfg), ops);
      var recs := live.engine.journal;
      b in RouterReplayAll(NewRouter(cfg), recs, clock).bindings <==>
      b in live.bindings || (Own(b) && BoundByReplay(NewRouter(cfg), recs, clock, b.queue))
  {
    hide RouterCanAll, RouterRun, RouterReplayAll, Comes, Lasts, Rooted, NewRouter, BoundBy, BoundByReplay, Index.IndexOk, RouterOk,
      Journaled, Own;
    var live := RouterRun(NewRouter(cfg), ops);
    var recs := live.engine.journal;
    NewJournaled(cfg);
    RouterSurvives(cfg, ops, clock);
    LiveBindings(cfg, ops, b);
    ReplayBindings(NewRouter(cfg), recs, clock, b);
    if b in live.bindings {
      assert b in RouterReplayAll(NewRouter(cfg), recs, clock).bindings;
    } else {
      ComesOrBound(NewRouter(cfg), recs, clock, b);
    }
  }

  /** So a restart gives back the same bindings if and only if every queue that a record declares, and whose own
      binding is not removed afterwards, is bound under its own name in the live router too. */
  lemma SameBindingsIff(cfg: Config, ops: seq<RouterOp>, clock: seq<Time>)
    requires RouterCanAll(NewRouter(cfg), ops) && |clock| == |RouterRun(NewRouter(cfg), ops).engine.journal|
    ensures
      var live := RouterRun(NewRouter(cfg), ops);
      var recs := live.engine.journal;
      RouterReplayAll(NewRouter(cfg), recs, clock).bindings == live.bindings <==>
      forall n :: BoundByReplay(NewRouter(cfg), recs, clock, n) ==> Binding(DEFAULT_EXCHANGE, n, n) in live.bindings
  {
    hide RouterCanAll, RouterRun, RouterReplayAll, NewRouter, BoundByReplay;
    var live := RouterRun(NewRouter(cfg), ops);
    var recs := live.engine.journal;
    var back := RouterReplayAll(NewRouter(cfg), recs, clock);
    forall b
      ensures b in back.bindings <==> b in live.bindings || (Own(b) && BoundByReplay(NewRouter(cfg), recs, clock, b.queue))
    {
      AddedBindings(cfg, ops, clock, b);
    }
    if back.bindings == live.bindings {
      forall n | BoundByReplay(NewRouter(cfg), recs, clock, n)
        ensures Binding(DEFAULT_EXCHANGE, n, n) in live.bindings
      {
        assert Binding(DEFAULT_EXCHANGE, n, n) in back.bindings;
      }
    }
    if forall n :: BoundByReplay(NewRouter(cfg), recs, clock, n) ==> Binding(DEFAULT_EXCHANGE, n, n) in live.bindings {
      forall b | b in back.bindings
        ensures b in live.bindings
      {
        assert Own(b) ==> b == Binding(DEFAULT_EXCHANGE, b.queue, b.queue);
      }
    }
  }
}
