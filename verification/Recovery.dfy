/** The live engine against the engine that replays its journal: no live message is lost. */
module Recovery {
  import opened Types
  import opened DlqNames
  import opened Heaps
  import opened Journal
  import opened Engine
  import opened Index
  import opened InvariantOps
  import opened Requeue
  import opened Runs
  import opened Replay

  /** Nothing is in flight. */
  ghost predicate Idle(queues: map<QName, Queue>) {
    forall n :: n in queues ==> queues[n].inflight == map[]
  }

  /** The same ordinary queues on both sides, with the same answer to whether dead letters are kept.
      Dead-letter queues may differ: the live engine creates some of them without a record. */
  ghost predicate SameShape(live: map<QName, Queue>, back: map<QName, Queue>) {
    forall n :: !IsDlq(n) ==>
      (n in live <==> n in back) && (n in live && n in back ==> back[n].spec.deadLetter == live[n].spec.deadLetter)
  }

  /** The replayed message is in the live message's queue, or in the origin of its dead-letter queue. */
  predicate Housed(live: map<QName, Queue>, n: QName, back: QName) {
    back == n || (back in live && live[back].spec.deadLetter && n == DlqName(back))
  }

  predicate Kept(live: map<QName, Queue>, o: Option<Message>, back: Option<Message>) {
    o.Some? ==> back.Some? && SameLetter(o.value, back.value) && Housed(live, o.value.queue, back.value.queue)
  }

  /** Every live message is held by the other engine. */
  ghost predicate AllKept(live: State, back: State) {
    forall id :: Kept(live.queues, Letter(live, id), Letter(back, id))
  }

  /** The simulation between a live engine and an engine that replays the live engine's records. */
  ghost predicate Sim(live: State, back: State, used: set<Id>) {
    && IndexOk(live) && IndexOk(back)
    && Idle(back.queues)
    && SameShape(live.queues, back.queues)
    && back.byId.Keys <= used
    && AllKept(live, back)
  }

  // ----- operations whose records say nothing -----

  lemma QuietApply(s: State, rec: Rec, now: Time)
    requires Quiet(rec.meta) && Idle(s.queues)
    ensures Apply(s, rec, now) == s
  {
    hide RetryOrDead, MoveToDlq, Trim;
  }

  lemma QuietReplay(s: State, recs: seq<Rec>, clock: seq<Time>)
    requires |clock| == |recs| && Idle(s.queues)
    requires forall i :: 0 <= i < |recs| ==> Quiet(recs[i].meta)
    ensures ReplayAll(s, recs, clock) == s
    decreases |recs|
  {
    hide Apply, Quiet;
    if recs != [] {
      QuietApply(s, recs[0], clock[0]);
      QuietReplay(s, recs[1..], clock[1..]);
    }
  }

  lemma WaneShape(a: map<QName, Queue>, b: map<QName, Queue>, back: map<QName, Queue>, limit: Option<int>)
    requires SameNames(a, b, limit) && SameShape(a, back)
    ensures SameShape(b, back)
  {
    hide IsDlq;
  }

  lemma WaneHoused(a: State, b: State, o: Option<Message>, o': Option<Message>, back: Option<Message>)
    requires IndexOk(a) && SameNames(a.queues, b.queues, a.cfg.maxLength)
    requires Decay(a.queues, o, o') && Kept(a.queues, o, back)
    ensures Kept(b.queues, o', back)
  {
    hide TablesAgree, IsDlq;
    if o'.Some? {
      var n := o.value.queue;
      if n in a.queues {
        SpecIndex(a, n);
      }
    }
  }

  /** Losing messages and dead-lettering them keeps the simulation. */
  lemma WaneSim(a: State, b: State, back: State, used: set<Id>)
    requires Sim(a, back, used) && Wane(a, b) && IndexOk(b)
    ensures Sim(b, back, used)
  {
    hide TablesAgree, Letter, SameNames, SameShape, QuietGrowth, Kept, Decay, Idle;
    WaneShape(a.queues, b.queues, back.queues, a.cfg.maxLength);
    forall id
      ensures Kept(b.queues, Letter(b, id), Letter(back, id))
    {
      WaneHoused(a, b, Letter(a, id), Letter(b, id), Letter(back, id));
    }
  }

  // ----- declaring -----

  /** What declaring a queue does to the tables. */
  ghost predicate Declared(s: State, s': State, n: QName, spec: Spec) {
    && s'.byId == s.byId && s'.cfg == s.cfg
    && (forall x :: x in s.queues ==> x in s'.queues && s'.queues[x] == s.queues[x])
    && (forall x :: x in s'.queues && x !in s.queues ==>
          (x == n || IsDlq(x)) && s'.queues[x].messages == map[] && s'.queues[x].inflight == map[])
    && n in s'.queues && (n !in s.queues ==> s'.queues[n].spec == spec)
  }

  lemma DlqDeclareTables(s: State, n: QName, a: DeclareArgs, persist: bool)
    requires IsDlq(n)
    ensures Declared(s, Declare(s, n, a, persist), n, MakeSpec(s.cfg, n, a))
    ensures forall x :: x in Declare(s, n, a, persist).queues && x !in s.queues ==> x == n
  {
    hide IsDlq;
  }

  lemma DeclareForm(s: State, n: QName, a: DeclareArgs, persist: bool)
    requires n !in s.queues
    ensures
      var spec := MakeSpec(s.cfg, n, a);
      var s1 := SetQueue(s, n, NewQueue(spec));
      Declare(s, n, a, persist) ==
      Log(if spec.deadLetter then Declare(s1, DlqName(n), DlqArgs(spec), persist) else s1, DeclareMeta(spec), [], persist)
  {
    hide IsDlq, NewQueue, DeclareMeta;
  }

  lemma DeclaredThen(s: State, n: QName, spec: Spec, s2: State, dn: QName, dspec: Spec)
    requires n !in s.queues && IsDlq(dn) && Declared(SetQueue(s, n, NewQueue(spec)), s2, dn, dspec)
    ensures Declared(s, s2, n, spec)
  {
    hide IsDlq;
    var s1 := SetQueue(s, n, NewQueue(spec));
    assert n in s1.queues && s1.queues[n] == NewQueue(spec);
  }

  lemma DeclareTables(s: State, n: QName, a: DeclareArgs, persist: bool)
    ensures Declared(s, Declare(s, n, a, persist), n, MakeSpec(s.cfg, n, a))
  {
    hide IsDlq, Declare;
    if n in s.queues {
      DeclareThere(s, n, a, persist);
    } else {
      var spec := MakeSpec(s.cfg, n, a);
      DeclareForm(s, n, a, persist);
      if spec.deadLetter {
        var s1 := SetQueue(s, n, NewQueue(spec));
        DlqDeclareTables(s1, DlqName(n), DlqArgs(spec), persist);
        DeclaredThen(s, n, spec, Declare(s1, DlqName(n), DlqArgs(spec), persist), DlqName(n), MakeSpec(s.cfg, DlqName(n), DlqArgs(spec)));
      }
    }
  }

  lemma DeclareThere(s: State, n: QName, a: DeclareArgs, persist: bool)
    requires n in s.queues
    ensures Declare(s, n, a, persist) == s
  {
  }

  lemma DeclaredLetters(s: State, s': State, n: QName, spec: Spec)
    requires IndexOk(s) && Declared(s, s', n, spec)
    ensures forall id :: Letter(s', id) == Letter(s, id)
  {
    hide IsDlq, QueueIndexOk;
  }

  lemma DeclaredIdle(s: State, s': State, n: QName, spec: Spec)
    requires Declared(s, s', n, spec) && Idle(s.queues)
    ensures Idle(s'.queues)
  {
    hide IsDlq;
  }

  /** The records of declaring a queue. */
  function DeclareRecs(s: State, n: QName, a: DeclareArgs): seq<Rec> {
    if n in s.queues then []
    else
      var spec := MakeSpec(s.cfg, n, a);
      (if spec.deadLetter && DlqName(n) !in s.queues then [Rec(DeclareMeta(MakeSpec(s.cfg, DlqName(n), DlqArgs(spec))), [])]
       else []) + [Rec(DeclareMeta(spec), [])]
  }

  lemma DeclareJournal(s: State, n: QName, a: DeclareArgs)
    ensures Declare(s, n, a, true).journal == s.journal + DeclareRecs(s, n, a)
  {
    hide IsDlq;
    if n !in s.queues {
      var spec := MakeSpec(s.cfg, n, a);
      if spec.deadLetter {
        DlqDeclareJournal(SetQueue(s, n, NewQueue(spec)), DlqName(n), DlqArgs(spec));
      }
    }
  }

  lemma DlqDeclareJournal(s: State, n: QName, a: DeclareArgs)
    requires IsDlq(n)
    ensures Declare(s, n, a, true).journal ==
            s.journal + if n in s.queues then [] else [Rec(DeclareMeta(MakeSpec(s.cfg, n, a)), [])]
  {
    hide IsDlq;
  }

  lemma GrowShape(live: State, live': State, back: State, back': State, n: QName, spec: Spec, spec': Spec)
    requires SameShape(live.queues, back.queues)
    requires Declared(live, live', n, spec) && Declared(back, back', n, spec')
    requires spec.deadLetter == spec'.deadLetter
    ensures SameShape(live'.queues, back'.queues)
  {
    hide IsDlq;
  }

  lemma GrowKept(live: State, live': State, n: QName, spec: Spec, o: Option<Message>, back: Option<Message>)
    requires Declared(live, live', n, spec) && Kept(live.queues, o, back)
    ensures Kept(live'.queues, o, back)
  {
    hide IsDlq, DlqName, SameLetter;
  }

  /** Both sides declare the same queue. */
  lemma GrowSim(live: State, live': State, back: State, back': State, n: QName, spec: Spec, spec': Spec, used: set<Id>)
    requires Sim(live, back, used) && IndexOk(live') && IndexOk(back')
    requires Declared(live, live', n, spec) && Declared(back, back', n, spec')
    requires spec.deadLetter == spec'.deadLetter
    ensures Sim(live', back', used)
  {
    hide TablesAgree, Letter, SameShape, Kept, Idle, Declared;
    GrowShape(live, live', back, back', n, spec, spec');
    DeclaredIdle(back, back', n, spec');
    DeclaredLetters(live, live', n, spec);
    DeclaredLetters(back, back', n, spec');
    DeclaredIds(back, back', n, spec');
    forall id
      ensures Kept(live'.queues, Letter(live', id), Letter(back', id))
    {
      GrowKept(live, live', n, spec, Letter(live, id), Letter(back, id));
    }
  }

  lemma DeclaredIds(s: State, s': State, n: QName, spec: Spec)
    requires Declared(s, s', n, spec)
    ensures s'.byId == s.byId
  {
  }

  lemma BackShape(live: map<QName, Queue>, back: State, back': State, n: QName, spec: Spec)
    requires SameShape(live, back.queues) && Declared(back, back', n, spec)
    requires IsDlq(n) || n in live
    ensures SameShape(live, back'.queues)
  {
    hide IsDlq;
  }

  /** The replaying side alone declares a queue: a dead-letter queue, or one that it has already. */
  lemma BackSim(live: State, back: State, n: QName, a: DeclareArgs, used: set<Id>)
    requires Sim(live, back, used) && (IsDlq(n) || n in live.queues)
    ensures Sim(live, Declare(back, n, a, false), used)
  {
    hide TablesAgree, Letter, SameShape, Kept, Idle, Declared, IsDlq, Declare;
    var back' := Declare(back, n, a, false);
    var spec := MakeSpec(back.cfg, n, a);
    DeclareTables(back, n, a, false);
    DeclareIndex(back, n, a, false);
    BackShape(live.queues, back, back', n, spec);
    DeclaredIdle(back, back', n, spec);
    DeclaredLetters(back, back', n, spec);
    DeclaredIds(back, back', n, spec);
  }

  function SpecArgs(spec: Spec, durable: bool): DeclareArgs {
    DeclareArgs(durable, spec.maxLength, Some(spec.visibilityTimeout), Some(spec.maxAttempts), spec.deadLetter)
  }

  lemma DeclareApply(s: State, spec: Spec, now: Time)
    ensures Apply(s, Rec(DeclareMeta(spec), []), now) == Declare(s, spec.name, SpecArgs(spec, spec.durable), false)
  {
    hide Declare;
  }

  lemma ReplayOne(s: State, rec: Rec, clock: seq<Time>)
    requires |clock| == 1
    ensures ReplayAll(s, [rec], clock) == Apply(s, rec, clock[0])
  {
    hide Apply;
  }

  lemma ReplayTwo(s: State, rec: Rec, rec': Rec, clock: seq<Time>)
    requires |clock| == 2
    ensures ReplayAll(s, [rec, rec'], clock) == Apply(Apply(s, rec, clock[0]), rec', clock[1])
  {
    hide Apply;
    assert [rec, rec'][1..] == [rec'];
    ReplayOne(Apply(s, rec, clock[0]), rec', clock[1..]);
  }

  lemma DeclareSim(live: State, back: State, n: QName, a: DeclareArgs, used: set<Id>, clock: seq<Time>)
    requires Sim(live, back, used) && |clock| == |DeclareRecs(live, n, a)|
    ensures Sim(Declare(live, n, a, true), ReplayAll(back, DeclareRecs(live, n, a), clock), used)
  {
    hide TablesAgree, Letter, SameShape, Kept, Idle, Declared, IsDlq, Apply, AllKept, ReplayAll, Declare;
    if n in live.queues {
      DeclareThere(live, n, a, true);
      ReplayNone(back, clock);
    } else {
      var spec := MakeSpec(live.cfg, n, a);
      var recs := DeclareRecs(live, n, a);
      DeclareTables(live, n, a, true);
      DeclareIndex(live, n, a, true);
      var back1 := back;
      if |recs| == 2 {
        var dspec := MakeSpec(live.cfg, DlqName(n), DlqArgs(spec));
        assert recs == [recs[0], recs[1]];
        ReplayTwo(back, recs[0], recs[1], clock);
        DeclareApply(back, dspec, clock[0]);
        BackSim(live, back, DlqName(n), SpecArgs(dspec, dspec.durable), used);
        back1 := Apply(back, recs[0], clock[0]);
      } else {
        assert recs == [recs[0]];
        ReplayOne(back, recs[0], clock);
      }
      var a' := SpecArgs(spec, spec.durable);
      DeclareApply(back1, spec, clock[|recs| - 1]);
      DeclareTables(back1, n, a', false);
      DeclareIndex(back1, n, a', false);
      GrowSim(live, Declare(live, n, a, true), back1, Declare(back1, n, a', false), n, spec, MakeSpec(back1.cfg, n, a'), used);
    }
  }

  lemma ReplayNone(s: State, clock: seq<Time>)
    requires |clock| == 0
    ensures ReplayAll(s, [], clock) == s
  {
  }

  // ----- deleting -----

  function DeleteRecs(s: State, n: QName): seq<Rec> {
    if n !in s.queues then []
    else [Rec(QueueDelete(n), [])] +
         (if s.queues[n].spec.deadLetter && DlqName(n) in s.queues then [Rec(QueueDelete(DlqName(n)), [])] else [])
  }

  lemma DeleteForm(s: State, n: QName, persist: bool)
    requires n in s.queues
    ensures
      var s2 := Log(DeleteOne(s, n), QueueDelete(n), [], persist);
      Delete(s, n, persist).0 == if s.queues[n].spec.deadLetter then Delete(s2, DlqName(n), persist).0 else s2
  {
    hide IsDlq;
  }

  lemma DeleteNothing(s: State, n: QName, persist: bool)
    requires n !in s.queues
    ensures Delete(s, n, persist) == (s, false)
  {
  }

  lemma DeleteJournal(s: State, n: QName)
    requires IndexOk(s)
    ensures Delete(s, n, true).0.journal == s.journal + DeleteRecs(s, n)
  {
    hide TablesAgree, IsDlq, Delete;
    if n in s.queues {
      DeleteForm(s, n, true);
      var s2 := Log(DeleteOne(s, n), QueueDelete(n), [], true);
      var dn := DlqName(n);
      if s.queues[n].spec.deadLetter {
        SpecIndex(s, n);
        if dn in s.queues {
          SpecIndex(s, dn);
          DeleteForm(s2, dn, true);
        } else {
          DeleteNothing(s2, dn, true);
        }
      }
    } else {
      DeleteNothing(s, n, true);
    }
  }

  ghost predicate DeletedFrom(s: State, s': State, n: QName) {
    && (forall x :: x in s'.queues <==> x in s.queues && !Deleted(s, n, x))
    && (forall x :: x in s'.queues ==> s'.queues[x] == s.queues[x])
  }

  lemma DeletedLetters(s: State, s': State, n: QName)
    requires IndexOk(s) && IndexOk(s') && DeletedFrom(s, s', n)
    ensures forall id :: Letter(s', id) ==
              if Letter(s, id).Some? && !Deleted(s, n, Letter(s, id).value.queue) then Letter(s, id) else None
    ensures s'.byId.Keys <= s.byId.Keys
  {
    hide Deleted;
  }

  lemma DeleteShape(live: State, live': State, back: State, back': State, n: QName)
    requires SameShape(live.queues, back.queues) && IndexOk(live) && IndexOk(back)
    requires DeletedFrom(live, live', n) && DeletedFrom(back, back', n)
    ensures SameShape(live'.queues, back'.queues)
  {
    hide IsDlq, TablesAgree;
  }

  lemma DeleteKept(live: State, live': State, back: State, n: QName, o: Option<Message>, o': Option<Message>)
    requires SameShape(live.queues, back.queues) && IndexOk(live) && IndexOk(back) && DeletedFrom(live, live', n)
    requires n in live.queues && o.Some? && !Deleted(live, n, o.value.queue) && Kept(live.queues, o, o')
    ensures !Deleted(back, n, o'.value.queue) && Kept(live'.queues, o, o')
  {
    hide IsDlq, TablesAgree, SameLetter;
    SpecIndex(live, n);
    var home := o'.value.queue;
    if n in back.queues {
      SpecIndex(back, n);
    }
    if home in live.queues {
      SpecIndex(live, home);
    }
  }

  lemma ShrinkSim(live: State, live': State, back: State, back': State, n: QName, used: set<Id>)
    requires Sim(live, back, used) && n in live.queues && IndexOk(live') && IndexOk(back')
    requires DeletedFrom(live, live', n) && DeletedFrom(back, back', n)
    ensures Sim(live', back', used)
  {
    hide TablesAgree, Letter, SameShape, Kept, DeletedFrom, IsDlq, Deleted, Idle;
    DeleteShape(live, live', back, back', n);
    DeletedIdle(back, back', n);
    DeletedLetters(live, live', n);
    DeletedLetters(back, back', n);
    forall id
      ensures Kept(live'.queues, Letter(live', id), Letter(back', id))
    {
      KeptNone(live'.queues, Letter(back', id));
      if Letter(live', id).Some? {
        DeleteKept(live, live', back, n, Letter(live, id), Letter(back, id));
        KeptSome(live.queues, Letter(live, id), Letter(back, id));
      }
    }
  }

  lemma KeptNone(live: map<QName, Queue>, o: Option<Message>)
    ensures Kept(live, None, o)
  {
  }

  lemma KeptSome(live: map<QName, Queue>, o: Option<Message>, o': Option<Message>)
    requires Kept(live, o, o') && o.Some?
    ensures o'.Some? && o'.value.id == o.value.id
  {
  }

  lemma DeletedIdle(s: State, s': State, n: QName)
    requires DeletedFrom(s, s', n) && Idle(s.queues)
    ensures Idle(s'.queues)
  {
    hide Deleted;
  }

  /** The first record already removes both queues from the replaying engine. */
  lemma DeleteReplay(live: State, back: State, n: QName, clock: seq<Time>)
    requires n in live.queues && SameShape(live.queues, back.queues) && IndexOk(live) && IndexOk(back)
    requires |clock| == |DeleteRecs(live, n)|
    ensures ReplayAll(back, DeleteRecs(live, n), clock) == Delete(back, n, false).0
  {
    hide TablesAgree, ReplayAll, Delete, IsDlq;
    var recs := DeleteRecs(live, n);
    SpecIndex(live, n);
    var back1 := Delete(back, n, false).0;
    DeletePlace(back, n, false);
    if |recs| == 2 {
      assert recs == [recs[0], recs[1]];
      ReplayTwo(back, recs[0], recs[1], clock);
      assert n in back.queues && back.queues[n].spec.deadLetter;
      assert Deleted(back, n, DlqName(n));
      DeleteNothing(back1, DlqName(n), false);
    } else {
      assert recs == [recs[0]];
      ReplayOne(back, recs[0], clock);
    }
  }

  lemma DeleteSim(live: State, back: State, n: QName, used: set<Id>, clock: seq<Time>)
    requires Sim(live, back, used) && |clock| == |DeleteRecs(live, n)|
    ensures Sim(Delete(live, n, true).0, ReplayAll(back, DeleteRecs(live, n), clock), used)
  {
    hide TablesAgree, ReplayAll, Delete, IsDlq, AllKept, SameShape, Idle, Deleted;
    if n in live.queues {
      DeleteReplay(live, back, n, clock);
      DeletePlace(live, n, true);
      DeletePlace(back, n, false);
      DeleteIndex(live, n, true);
      DeleteIndex(back, n, false);
      ShrinkSim(live, Delete(live, n, true).0, back, Delete(back, n, false).0, n, used);
    } else {
      DeleteNothing(live, n, true);
      ReplayNone(back, clock);
    }
  }

  // ----- publishing -----

  /** The same queues, with the same specifications and the same deliveries. */
  ghost predicate SameHouses(queues: map<QName, Queue>, queues': map<QName, Queue>) {
    && (forall n :: n in queues <==> n in queues')
    && (forall n :: n in queues && n in queues' ==>
          queues'[n].spec == queues[n].spec && queues'[n].inflight == queues[n].inflight)
  }

  lemma HousesShape(live: map<QName, Queue>, live': map<QName, Queue>, back: map<QName, Queue>, back': map<QName, Queue>)
    requires SameHouses(live, live') && SameHouses(back, back') && SameShape(live, back)
    ensures SameShape(live', back')
  {
    hide IsDlq;
  }

  lemma HousesKept(live: map<QName, Queue>, live': map<QName, Queue>, o: Option<Message>, o': Option<Message>)
    requires SameHouses(live, live')
    ensures Kept(live, o, o') == Kept(live', o, o')
  {
    hide IsDlq, DlqName, SameLetter;
  }

  lemma HousesIdle(queues: map<QName, Queue>, queues': map<QName, Queue>)
    requires SameHouses(queues, queues') && Idle(queues)
    ensures Idle(queues')
  {
  }

  /** Both sides changed one message, and nothing else. */
  lemma OneSim(live: State, live': State, back: State, back': State, id: Id, used: set<Id>)
    requires Sim(live, back, used) && IndexOk(live') && IndexOk(back')
    requires SameHouses(live.queues, live'.queues) && SameHouses(back.queues, back'.queues)
    requires SameLetters(live, live', id) && SameLetters(back, back', id)
    requires back'.byId.Keys <= used + {id}
    ensures Sim(live', back', used + {id}) <==> Kept(live.queues, Letter(live', id), Letter(back', id))
  {
    hide TablesAgree, Letter, SameShape, Kept, IsDlq, Idle, SameHouses;
    HousesShape(live.queues, live'.queues, back.queues, back'.queues);
    HousesIdle(back.queues, back'.queues);
    HousesKept(live.queues, live'.queues, Letter(live', id), Letter(back', id));
    forall x | x != id
      ensures Kept(live'.queues, Letter(live', x), Letter(back', x))
    {
      HousesKept(live.queues, live'.queues, Letter(live, x), Letter(back, x));
    }
  }

  lemma ItselfHouses(queues: map<QName, Queue>)
    ensures SameHouses(queues, queues)
  {
  }

  lemma EnqueueLetters(s: State, m: Message, now: Time, persist: bool)
    requires IndexOk(s) && m.id !in s.byId
    ensures
      var (s', r) := Enqueue(s, m, now, persist);
      && (r == EnqueueOk <==> m.queue in s.queues && !Full(s.queues[m.queue]))
      && (r != EnqueueOk ==> s' == s)
      && (r == EnqueueOk ==>
            && SameLetters(s, s', m.id) && Letter(s', m.id) == Some(Stored(m, now))
            && s'.journal == if persist then s.journal + [PublishRec(Stored(m, now))] else s.journal)
      && SameHouses(s.queues, s'.queues)
      && s'.byId.Keys <= s.byId.Keys + {m.id}
  {
    hide TablesAgree, SameLetters, IsDlq, Push, Full, Later;
    if m.queue in s.queues && !Full(s.queues[m.queue]) {
      FreshInQueue(s, m.queue, m.id);
      SetLetters(s, Enqueue(s, m, now, persist).0, m.queue, m.id);
    }
  }

  lemma PublishApply(s: State, m: Message, now: Time)
    requires m.id !in s.byId
    ensures Apply(s, PublishRec(m), now) == Enqueue(Declare(s, m.queue, DEFAULT_ARGS, false), m, now, false).0
  {
    hide Declare, Enqueue;
    DeclareIds(s, m.queue, DEFAULT_ARGS, false);
  }

  lemma StoredAgain(m: Message, now: Time, later: Time)
    ensures SameLetter(Stored(m, now), Stored(Stored(m, now), later)) && Stored(m, now).queue == m.queue
    ensures Stored(m, now).id == m.id && Stored(Stored(m, now), later).queue == m.queue
  {
  }

  lemma LiveInBack(live: State, back: State, used: set<Id>, id: Id)
    requires Sim(live, back, used) && id in live.byId
    ensures id in back.byId
  {
    hide TablesAgree, SameShape, IsDlq, Idle;
    IndexHolds(live, id);
    assert Kept(live.queues, Letter(live, id), Letter(back, id));
  }

  lemma SimRoom(live: State, back: State, used: set<Id>, id: Id)
    requires Sim(live, back, used) && id !in used
    ensures id !in live.byId && id !in back.byId
  {
    hide TablesAgree, SameShape, AllKept, Idle;
    if id in live.byId {
      LiveInBack(live, back, used, id);
    }
  }

  /** A publish is replayed exactly when the replaying engine has room for it; a bounded queue that
      forgets its acknowledgements may not have. */
  lemma PublishSim(live: State, back: State, m: Message, now: Time, used: set<Id>, later: Time)
    requires Sim(live, back, used) && m.id !in used && Enqueue(live, m, now, true).1 == EnqueueOk
    ensures Enqueue(live, m, now, true).0.journal == live.journal + [PublishRec(Stored(m, now))]
    ensures
      var back1 := Declare(back, m.queue, DEFAULT_ARGS, false);
      && m.queue in back1.queues
      && (Sim(Enqueue(live, m, now, true).0, Apply(back, PublishRec(Stored(m, now)), later), used + {m.id}) <==>
          !Full(back1.queues[m.queue]))
  {
    hide TablesAgree, Letter, SameLetters, SameShape, SameHouses, AllKept, IsDlq, Idle, Declare, Enqueue, Apply,
      Full, Stored;
    var m' := Stored(m, now);
    var back1 := Declare(back, m.queue, DEFAULT_ARGS, false);
    var live' := Enqueue(live, m, now, true).0;
    var back' := Enqueue(back1, m', later, false).0;
    SimRoom(live, back, used, m.id);
    EnqueueLetters(live, m, now, true);
    BackSim(live, back, m.queue, DEFAULT_ARGS, used);
    DeclareIds(back, m.queue, DEFAULT_ARGS, false);
    DeclareKeepsQueues(back, m.queue, DEFAULT_ARGS, false);
    StoredAgain(m, now, later);
    PublishApply(back, m', later);
    EnqueueLetters(back1, m', later, false);
    EnqueueIndex(live, m, now, true);
    EnqueueIndex(back1, m', later, false);
    SameLettersItself(back1, m.id);
    GoneLetter(back1, m.id);
    OneSim(live, live', back1, back', m.id, used);
  }

  lemma SameLettersItself(s: State, id: Id)
    ensures SameLetters(s, s, id)
  {
    hide Letter;
  }

  // ----- requeueing a dead letter -----

  lemma WithdrawnLetters(s: State, dn: QName, id: Id)
    requires IndexOk(s) && Holds(s, dn, id)
    ensures IndexOk(Withdrawn(s, dn, id)) && id !in Withdrawn(s, dn, id).byId
    ensures SameLetters(s, Withdrawn(s, dn, id), id) && SameHouses(s.queues, Withdrawn(s, dn, id).queues)
    ensures forall n :: n in s.queues && n != dn ==> Withdrawn(s, dn, id).queues[n] == s.queues[n]
  {
    hide TablesAgree, IsDlq, Drop, Without, SameLetters;
    IndexAt(s, dn, id);
    RemoveIndex(s, dn, id, Withdraw(s.queues[dn], id));
    SetLetters(s, Withdrawn(s, dn, id), dn, id);
  }

  lemma PutBackLetters(s: State, m: Message)
    requires IndexOk(s) && m.id !in s.byId && m.queue in s.queues
    ensures IndexOk(PutBack(s, m)) && SameLetters(s, PutBack(s, m), m.id) && Letter(PutBack(s, m), m.id) == Some(m)
    ensures SameHouses(s.queues, PutBack(s, m).queues) && PutBack(s, m).byId.Keys == s.byId.Keys + {m.id}
  {
    hide TablesAgree, IsDlq, Push, SameLetters;
    AddIndex(s, m, Mature(s.queues[m.queue], m, s.lastOrd + 1));
    FreshInQueue(s, m.queue, m.id);
    SetLetters(s, PutBack(s, m), m.queue, m.id);
  }

  lemma HousesTrans(a: map<QName, Queue>, b: map<QName, Queue>, c: map<QName, Queue>)
    requires SameHouses(a, b) && SameHouses(b, c)
    ensures SameHouses(a, c)
  {
  }

  /** A requeue changes only the letter it finds: it goes to the origin if there is room, and otherwise
      stays in the dead-letter queue. */
  lemma RequeueLetters(s: State, n: QName, id: Id, now: Time, persist: bool)
    requires IndexOk(s) && Found(s, n, id)
    ensures
      var origin, dn := OriginQueue(n), DlqName(OriginQueue(n));
      var (s', ok) := DlqRequeue(s, n, id, now, persist);
      && SameLetters(s, s', id) && SameHouses(s.queues, s'.queues) && s'.byId.Keys <= s.byId.Keys + {id}
      && Letter(s, id).Some? && Letter(s, id).value.queue == dn && Letter(s', id).Some?
      && SameLetter(Letter(s, id).value, Letter(s', id).value)
      && Letter(s', id).value.queue == (if ok then origin else dn)
      && (origin != dn ==> (ok <==> !Full(s.queues[origin])))
      && s'.journal == s.journal + if ok && persist then [Rec(MessageRequeue(id, dn, origin), [])] else []
  {
    hide TablesAgree, IsDlq, Letter, SameLetters, SameHouses, DlqRequeue, Enqueue, Full, Withdraw, Stored, Log;
    var origin, dn := OriginQueue(n), DlqName(OriginQueue(n));
    var m := BackMessage(s, n, id);
    var s1 := Withdrawn(s, dn, id);
    RequeueForm(s, n, id, now, persist);
    LetterAt(s, dn, id);
    WithdrawnLetters(s, dn, id);
    WithdrawnQueues(s, n, id);
    EnqueueLetters(s1, m, now, false);
    if Enqueue(s1, m, now, false).1 == EnqueueOk {
      var s2 := Enqueue(s1, m, now, false).0;
      LogLetters(s2, MessageRequeue(id, dn, origin), persist);
      StoredLetter(m, now);
      LettersTrans(s, s1, s2, id);
      HousesTrans(s.queues, s1.queues, s2.queues);
      LettersTrans(s, s2, Log(s2, MessageRequeue(id, dn, origin), [], persist), id);
    } else {
      var m' := m.(queue := dn);
      PutBackLetters(s1, m');
      LettersTrans(s, s1, PutBack(s1, m'), id);
      HousesTrans(s.queues, s1.queues, PutBack(s1, m').queues);
    }
  }

  lemma StoredLetter(m: Message, now: Time)
    ensures SameLetter(m, Stored(m, now)) && Stored(m, now).queue == m.queue
  {
  }

  lemma LogLetters(s: State, meta: Meta, persist: bool)
    ensures
      var s' := Log(s, meta, [], persist);
      && s'.queues == s.queues && s'.byId == s.byId
      && s'.journal == s.journal + (if persist then [Rec(meta, [])] else [])
      && forall id :: SameLetters(s, s', id) && Letter(s', id) == Letter(s, id)
  {
  }

  /** When the record of a requeue has the effect on the replaying engine that the requeue had: an
      ordinary queue needs room, and a doubly suffixed name, which is its own dead-letter queue, must not
      let the replay take the message on to a queue that keeps no dead letters. */
  predicate Carried(live: State, back: State, n: QName, id: Id) {
    var target := OriginQueue(n);
    var origin := OriginQueue(target);
    Found(back, target, id) ==>
      if IsDlq(target) then Full(back.queues[origin]) || (origin in live.queues && live.queues[origin].spec.deadLetter)
      else !Full(back.queues[origin])
  }

  lemma CarriedAbsent(live: State, back: State, n: QName, id: Id, back0: Message)
    requires SameShape(live.queues, back.queues) && IndexOk(live) && Found(live, n, id)
    requires !Found(back, OriginQueue(n), id)
    requires Holds(back, back0.queue, id) && Housed(live.queues, DlqName(OriginQueue(n)), back0.queue)
    ensures Housed(live.queues, OriginQueue(n), back0.queue)
  {
    hide TablesAgree, IsDlq;
    var target := OriginQueue(n);
    if !IsDlq(target) {
      if back0.queue in live.queues {
        SpecIndex(live, back0.queue);
      }
    }
  }

  lemma CarriedFound(live: State, back: State, n: QName, id: Id, ok: bool)
    requires IndexOk(live) && Found(live, n, id) && Found(back, OriginQueue(n), id)
    requires Housed(live.queues, DlqName(OriginQueue(n)), DlqName(OriginQueue(OriginQueue(n))))
    requires
      var origin := OriginQueue(OriginQueue(n));
      origin != DlqName(origin) ==> (ok <==> !Full(back.queues[origin]))
    ensures
      var origin := OriginQueue(OriginQueue(n));
      Housed(live.queues, OriginQueue(n), if ok then origin else DlqName(origin)) <==> Carried(live, back, n, id)
  {
    hide TablesAgree, IsDlq, Full;
    var target := OriginQueue(n);
    var origin := OriginQueue(target);
    if origin in live.queues {
      SpecIndex(live, origin);
    }
    if DlqName(origin) in live.queues {
      SpecIndex(live, DlqName(origin));
    }
    if DlqName(target) in live.queues {
      SpecIndex(live, DlqName(target));
    }
  }

  lemma RequeueApply(s: State, id: Id, dn: QName, target: QName, now: Time)
    ensures Apply(s, Rec(MessageRequeue(id, dn, target), []), now) == DlqRequeue(s, target, id, now, false).0
  {
    hide DlqRequeue;
  }

  lemma RequeueBack(live: State, back: State, n: QName, id: Id, now: Time, later: Time)
    requires IndexOk(live) && IndexOk(back) && SameShape(live.queues, back.queues) && Found(live, n, id)
    requires Kept(live.queues, Letter(live, id), Letter(back, id))
    requires DlqRequeue(live, n, id, now, true).1
    ensures
      Carried(live, back, n, id) <==>
      Kept(live.queues, Letter(DlqRequeue(live, n, id, now, true).0, id),
           Letter(DlqRequeue(back, OriginQueue(n), id, later, false).0, id))
  {
    hide TablesAgree, IsDlq, SameShape, SameHouses, SameLetters, DlqRequeue, Full, Letter, Found, Housed, Carried;
    var target := OriginQueue(n);
    RequeueLetters(live, n, id, now, true);
    if Found(back, target, id) {
      RequeueLetters(back, target, id, later, false);
      CarriedFound(live, back, n, id, DlqRequeue(back, target, id, later, false).1);
    } else {
      RequeueForm(back, target, id, later, false);
      LetterQueue(back, id);
      CarriedAbsent(live, back, n, id, Letter(back, id).value);
      CarriedNot(live, back, n, id);
    }
  }

  lemma CarriedNot(live: State, back: State, n: QName, id: Id)
    requires !Found(back, OriginQueue(n), id)
    ensures Carried(live, back, n, id)
  {
    hide Found;
  }

  lemma RequeueSame(s: State, n: QName, id: Id, now: Time, persist: bool)
    requires IndexOk(s)
    ensures
      var s' := DlqRequeue(s, n, id, now, persist).0;
      SameLetters(s, s', id) && SameHouses(s.queues, s'.queues) && s'.byId.Keys <= s.byId.Keys + {id} && IndexOk(s')
  {
    hide TablesAgree, IsDlq, SameHouses, SameLetters, DlqRequeue, Letter, Found;
    DlqRequeueIndex(s, n, id, now, persist);
    if Found(s, n, id) {
      RequeueLetters(s, n, id, now, persist);
    } else {
      RequeueForm(s, n, id, now, persist);
      SameLettersItself(s, id);
      ItselfHouses(s.queues);
    }
  }

  /** A successful requeue is replayed faithfully exactly when its record carries. */
  lemma RequeueSim(live: State, back: State, n: QName, id: Id, now: Time, used: set<Id>, later: Time)
    requires Sim(live, back, used) && DlqRequeue(live, n, id, now, true).1
    ensures
      var (target, dn) := (OriginQueue(n), DlqName(OriginQueue(n)));
      var live' := DlqRequeue(live, n, id, now, true).0;
      && Found(live, n, id)
      && live'.journal == live.journal + [Rec(MessageRequeue(id, dn, target), [])]
      && (Sim(live', Apply(back, Rec(MessageRequeue(id, dn, target), []), later), used) <==> Carried(live, back, n, id))
  {
    hide TablesAgree, IsDlq, SameShape, SameHouses, SameLetters, DlqRequeue, Letter, Found, Carried, Idle, Apply, Kept;
    var target := OriginQueue(n);
    var live' := DlqRequeue(live, n, id, now, true).0;
    var back' := DlqRequeue(back, target, id, later, false).0;
    RequeueForm(live, n, id, now, true);
    RequeueLetters(live, n, id, now, true);
    LetterQueue(live, id);
    LiveInBack(live, back, used, id);
    RequeueBack(live, back, n, id, now, later);
    RequeueSame(live, n, id, now, true);
    RequeueSame(back, target, id, later, false);
    OneSim(live, live', back, back', id, used);
    assert used + {id} == used;
    RequeueApply(back, id, DlqName(target), target, later);
  }

  /** A refused requeue writes no record and leaves the simulation alone. */
  lemma RequeueRefusedSim(live: State, back: State, n: QName, id: Id, now: Time, used: set<Id>)
    requires Sim(live, back, used) && !DlqRequeue(live, n, id, now, true).1
    ensures DlqRequeue(live, n, id, now, true).0.journal == live.journal
    ensures Sim(DlqRequeue(live, n, id, now, true).0, back, used)
  {
    hide TablesAgree, IsDlq, SameShape, SameHouses, SameLetters, DlqRequeue, Letter, Found, Idle, Housed;
    RequeueForm(live, n, id, now, true);
    if Found(live, n, id) {
      var live' := DlqRequeue(live, n, id, now, true).0;
      RequeueLetters(live, n, id, now, true);
      RequeueSame(live, n, id, now, true);
      SameLettersItself(back, id);
      ItselfHouses(back.queues);
      LetterQueue(live, id);
      LiveInBack(live, back, used, id);
      assert used + {id} == used;
      assert Kept(live.queues, Letter(live, id), Letter(back, id));
      OneSim(live, live', back, back, id, used);
    }
  }
}
