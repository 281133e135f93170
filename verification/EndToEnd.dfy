/** The engine, the router, the writer of their journal and the file, together: from an awaited write to a
    message that survives every crash. */
module EndToEnd {
  import opened Types
  import opened DlqNames
  import opened Journal
  import opened Dictionaries
  import opened Engine
  import opened Index
  import opened Runs
  import opened Snapshot
  import opened Replay
  import opened Restarts
  import opened Crashes
  import W = Worlds
  import opened Records
  import opened TornLog
  import A = Aof

  /** A record of the file, with the dictionary that its JSON stands for. */
  type Row = Record<Dict>

  // ----- the records after a snapshot -----

  ghost predicate Parsed(recs: seq<Row>) {
    forall r :: r in recs ==> Parse(r.op, r.meta).Some?
  }

  function EntryOf(r: Row): Rec
    requires Parse(r.op, r.meta).Some?
  {
    Rec(Parse(r.op, r.meta).value, r.payload)
  }

  function Newer(recs: seq<Row>, snapSeq: nat): seq<Row>
    decreases |recs|
  {
    if recs == [] then []
    else (if recs[0].seqNo > snapSeq then [recs[0]] else []) + Newer(recs[1..], snapSeq)
  }

  ghost function Entries(recs: seq<Row>): (out: seq<Rec>)
    requires Parsed(recs)
    ensures |out| == |recs|
    decreases |recs|
  {
    if recs == [] then [] else [EntryOf(recs[0])] + Entries(recs[1..])
  }

  lemma ResumeNewer(recs: seq<Row>, snapSeq: nat, last: nat)
    ensures Resume(recs, snapSeq, last).0 == Newer(recs, snapSeq)
    decreases |recs|
  {
  }

  lemma NewerConcat(a: seq<Row>, b: seq<Row>, snapSeq: nat)
    ensures Newer(a + b, snapSeq) == Newer(a, snapSeq) + Newer(b, snapSeq)
    decreases |a|
  {
    if a == [] {
      assert a + b == b;
    } else {
      assert (a + b)[1..] == a[1..] + b;
      NewerConcat(a[1..], b, snapSeq);
    }
  }

  lemma NewerMembers(recs: seq<Row>, snapSeq: nat)
    ensures forall r :: r in Newer(recs, snapSeq) <==> r in recs && r.seqNo > snapSeq
    ensures Parsed(recs) ==> Parsed(Newer(recs, snapSeq))
    decreases |recs|
  {
    hide Parse;
    if recs != [] {
      NewerMembers(recs[1..], snapSeq);
      assert recs == [recs[0]] + recs[1..];
    }
  }

  lemma EntriesConcat(a: seq<Row>, b: seq<Row>)
    requires Parsed(a) && Parsed(b)
    ensures Parsed(a + b) && Entries(a + b) == Entries(a) + Entries(b)
    decreases |a|
  {
    hide Parse;
    if a == [] {
      assert a + b == b;
    } else {
      assert (a + b)[1..] == a[1..] + b;
      EntriesConcat(a[1..], b);
    }
  }

  lemma NewerAll(recs: seq<Row>, snapSeq: nat)
    requires forall r :: r in recs ==> r.seqNo > snapSeq
    ensures Newer(recs, snapSeq) == recs
    decreases |recs|
  {
    if recs != [] {
      assert recs[0] in recs && forall r :: r in recs[1..] ==> r in recs;
      NewerAll(recs[1..], snapSeq);
    }
  }

  lemma NewerNone(recs: seq<Row>, snapSeq: nat)
    requires UpTo(recs, snapSeq)
    ensures Newer(recs, snapSeq) == []
    decreases |recs|
  {
    if recs != [] {
      assert recs[0] in recs && forall r :: r in recs[1..] ==> r in recs;
      NewerNone(recs[1..], snapSeq);
    }
  }

  /** What the log holds of the first records. */
  lemma PrefixEntries(all: seq<Row>, snapSeq: nat, j: nat)
    requires j <= |all| && Parsed(all) && Parsed(Newer(all, snapSeq))
    ensures Parsed(all[..j]) && Parsed(Newer(all[..j], snapSeq))
    ensures
      var (part, whole) := (Entries(Newer(all[..j], snapSeq)), Entries(Newer(all, snapSeq)));
      |part| <= |whole| && whole[..|part|] == part
  {
    hide Parse, Newer, Entries;
    assert all == all[..j] + all[j..];
    assert Parsed(all[..j]) && Parsed(all[j..]);
    NewerMembers(all[..j], snapSeq);
    NewerMembers(all[j..], snapSeq);
    NewerConcat(all[..j], all[j..], snapSeq);
    EntriesConcat(Newer(all[..j], snapSeq), Newer(all[j..], snapSeq));
  }

  // ----- publications -----

  /** The message that a record publishes. */
  function PublishId(r: Row): Option<Id> {
    var meta := Parse(r.op, r.meta);
    if meta.Some? && meta.value.MessagePublish? then Some(meta.value.id) else None
  }

  lemma PublishEntry(r: Row)
    requires Parse(r.op, r.meta).Some?
    ensures RecIds(EntryOf(r)) == if PublishId(r).Some? then {PublishId(r).value} else {}
  {
    hide Parse;
  }

  /** The messages that a stretch of the log publishes are those of its records. */
  lemma PublishedEntries(recs: seq<Row>, id: Id)
    requires Parsed(recs)
    ensures id in W.LogIds(Entries(recs)) <==> exists r :: r in recs && PublishId(r) == Some(id)
    decreases |recs|
  {
    hide Parse, PublishId, EntryOf, RecIds;
    if recs != [] {
      assert recs == [recs[0]] + recs[1..];
      PublishEntry(recs[0]);
      PublishedEntries(recs[1..], id);
      assert Entries(recs)[1..] == Entries(recs[1..]);
    }
  }

  /** No message is published twice. */
  ghost predicate PublishedOnce(all: seq<Row>) {
    forall i, j :: 0 <= i < j < |all| && PublishId(all[i]).Some? ==> PublishId(all[i]) != PublishId(all[j])
  }

  /** Published ids are used up; and a message that was published before the snapshot is in the snapshot, as
      long as it is live. */
  ghost predicate PublishedKnown(w: W.World, all: seq<Row>, snapSeq: nat) {
    forall r :: r in all && PublishId(r).Some? ==>
      PublishId(r).value in w.used
      && (r.seqNo <= snapSeq && PublishId(r).value in w.live.byId ==> PublishId(r).value in W.SavedIds(w.disk.base))
  }

  lemma OncePrefix(all: seq<Row>, j: nat)
    requires PublishedOnce(all) && j <= |all|
    ensures PublishedOnce(all[..j])
  {
    hide PublishId;
  }

  lemma OnceMore(all: seq<Row>, more: seq<Row>, used: set<Id>)
    requires PublishedOnce(all) && (forall r :: r in all && PublishId(r).Some? ==> PublishId(r).value in used)
    requires forall r :: r in more && PublishId(r).Some? ==> PublishId(r).value !in used
    requires |more| <= 1 || forall r :: r in more ==> PublishId(r) == None
    ensures PublishedOnce(all + more)
  {
    hide PublishId;
    var whole := all + more;
    forall i, j | 0 <= i < j < |whole| && PublishId(whole[i]).Some?
      ensures PublishId(whole[i]) != PublishId(whole[j])
    {
      if i < |all| {
        assert whole[i] in all;
        if j >= |all| {
          assert whole[j] in more;
        }
      } else {
        NonePublished(more, i - |all|, j - |all|);
      }
    }
  }

  lemma NonePublished(more: seq<Row>, i: nat, j: nat)
    requires i < j < |more| && (|more| <= 1 || forall r :: r in more ==> PublishId(r) == None)
    ensures PublishId(more[i]) == None
  {
    hide PublishId;
    assert more[i] in more;
  }

  lemma OnceSame(all: seq<Row>, r: Row, r': Row)
    requires PublishedOnce(all) && r in all && r' in all && PublishId(r).Some? && PublishId(r) == PublishId(r')
    ensures r == r'
  {
    hide PublishId;
    var i :| 0 <= i < |all| && all[i] == r;
    var j :| 0 <= j < |all| && all[j] == r';
  }

  // ----- the two together -----

  /** The broker's log is what has been appended to the file since the snapshot, and what a crash cannot
      take from the log is in the flushed part of the file. */
  ghost predicate Joined(w: W.World, a: A.Writer<Dict>, all: seq<Row>, done: seq<Row>, snapSeq: nat, m: nat) {
    && W.WorldOk(w) && A.Good(a, all, done) && snapSeq <= a.seqNo
    && Parsed(all) && Parsed(Newer(all, snapSeq)) && w.disk.log == Entries(Newer(all, snapSeq))
    && m <= |done| && AllEncodable(a.c, done[..m]) && |EncodeAll(a.c, done[..m])| <= a.synced
    && w.durable <= |Newer(done[..m], snapSeq)|
    && PublishedOnce(all) && PublishedKnown(w, all, snapSeq)
  }

  /** What the broker journals is what it appends. */
  ghost predicate Matches(drafts: seq<Draft<Dict>>, recs: seq<Rec>) {
    |drafts| == |recs| && forall i :: 0 <= i < |recs| ==>
      drafts[i].op == OpCode(recs[i].meta) && drafts[i].meta == ToDict(recs[i].meta) && drafts[i].payload == recs[i].payload
  }

  lemma MatchedEntries(seqNo: nat, drafts: seq<Draft<Dict>>, recs: seq<Rec>)
    requires Matches(drafts, recs)
    ensures Parsed(Numbered(seqNo, drafts)) && Entries(Numbered(seqNo, drafts)) == recs
    decreases |drafts|
  {
    hide Parse, ToDict;
    if drafts != [] {
      ParseDict(recs[0].meta);
      MatchedEntries(seqNo + 1, drafts[1..], recs[1..]);
      assert recs == [recs[0]] + recs[1..];
      assert Numbered(seqNo, drafts)[1..] == Numbered(seqNo + 1, drafts[1..]);
    }
  }

  ghost function AppendAll(a: A.Writer<Dict>, drafts: seq<Draft<Dict>>): A.Writer<Dict>
    decreases |drafts|
  {
    if drafts == [] then a else AppendAll(A.Append(a, drafts[0]).0, drafts[1..])
  }

  lemma AppendAllKeeps(a: A.Writer<Dict>, all: seq<Row>, done: seq<Row>, drafts: seq<Draft<Dict>>)
    requires A.Good(a, all, done) && !a.closed && AllEncodable(a.c, Numbered(a.seqNo, drafts))
    ensures
      var a' := AppendAll(a, drafts);
      && A.Good(a', all + Numbered(a.seqNo, drafts), done)
      && a'.synced == a.synced && a'.c == a.c && a'.seqNo == a.seqNo + |drafts| && a'.policy == a.policy
    decreases |drafts|
  {
    hide A.Good, Encodable, Numbered, A.Append;
    var more := Numbered(a.seqNo, drafts);
    NumberedNext(a.seqNo, drafts);
    if drafts == [] {
      assert all + more == all;
    } else {
      var r := A.Drafted(a.seqNo + 1, drafts[0]);
      assert r in more && forall x :: x in Numbered(a.seqNo + 1, drafts[1..]) ==> x in more;
      AppendOne(a, drafts[0]);
      A.AppendKeeps(a, all, done, drafts[0]);
      AppendAllKeeps(A.Append(a, drafts[0]).0, all + [r], done, drafts[1..]);
      assert all + [r] + Numbered(a.seqNo + 1, drafts[1..]) == all + more;
    }
  }

  lemma NumberedNext(seqNo: nat, drafts: seq<Draft<Dict>>)
    ensures drafts == [] ==> Numbered(seqNo, drafts) == []
    ensures drafts != [] ==> Numbered(seqNo, drafts) == [A.Drafted(seqNo + 1, drafts[0])] + Numbered(seqNo + 1, drafts[1..])
  {
  }

  lemma AppendOne(a: A.Writer<Dict>, d: Draft<Dict>)
    requires !a.closed && Encodable(a.c, A.Drafted(a.seqNo + 1, d))
    ensures
      var a' := A.Append(a, d).0;
      !a'.closed && a'.synced == a.synced && a'.c == a.c && a'.seqNo == a.seqNo + 1 && a'.policy == a.policy
  {
    hide Encodable;
  }

  /** The log grows by what is appended. */
  lemma LogGrows(log: seq<Rec>, a: A.Writer<Dict>, all: seq<Row>, snapSeq: nat, drafts: seq<Draft<Dict>>, recs: seq<Rec>)
    requires Parsed(all) && Parsed(Newer(all, snapSeq)) && log == Entries(Newer(all, snapSeq))
    requires snapSeq <= a.seqNo && Matches(drafts, recs)
    ensures
      var all' := all + Numbered(a.seqNo, drafts);
      Parsed(all') && Parsed(Newer(all', snapSeq)) && log + recs == Entries(Newer(all', snapSeq))
  {
    hide Parse, Newer, Entries, Numbered, Matches;
    var more := Numbered(a.seqNo, drafts);
    MatchedEntries(a.seqNo, drafts, recs);
    NewerConcat(all, more, snapSeq);
    NewerAll(more, snapSeq);
    EntriesConcat(Newer(all, snapSeq), more);
  }

  /** A record in what is appended is one of the records journalled. */
  lemma AppendedEntry(seqNo: nat, drafts: seq<Draft<Dict>>, recs: seq<Rec>, r: Row)
    requires Matches(drafts, recs) && r in Numbered(seqNo, drafts)
    ensures r.seqNo > seqNo && Parse(r.op, r.meta).Some? && EntryOf(r) in recs
  {
    hide Parse, ToDict;
    var i :| 0 <= i < |drafts| && Numbered(seqNo, drafts)[i] == r;
    NumberedAt(seqNo, drafts, i);
    ParseDict(recs[i].meta);
    assert recs[i] in recs;
  }

  lemma NumberedAt(seqNo: nat, drafts: seq<Draft<Dict>>, i: nat)
    requires i < |drafts|
    ensures Numbered(seqNo, drafts)[i] == A.Drafted(seqNo + 1 + i, drafts[i])
    decreases |drafts|
  {
    if i > 0 {
      NumberedAt(seqNo + 1, drafts[1..], i - 1);
    }
  }

  /** Work only publishes ids that were not used, and one at most. */
  lemma WorkPublishes(w: W.World, seqNo: nat, ev: Event, drafts: seq<Draft<Dict>>)
    requires W.WorldOk(w) && W.Possible(w, W.Work(ev)) && Matches(drafts, Emitted(w.live, ev))
    ensures
      var more := Numbered(seqNo, drafts);
      && (forall r :: r in more ==> r.seqNo > seqNo)
      && (forall r :: r in more && PublishId(r).Some? ==> PublishId(r).value in Published(ev) && PublishId(r).value !in w.used)
      && (|more| <= 1 || forall r :: r in more ==> PublishId(r) == None)
  {
    hide W.WorldOk, Parse, ToDict, Matches, Numbered, Emitted, Step, Straight, Callable, RecIds, Unlimited, EntryOf, PublishId;
    var more := Numbered(seqNo, drafts);
    W.WorkExact(w, ev);
    MatchedLength(drafts, Emitted(w.live, ev));
    forall r | r in more
      ensures r.seqNo > seqNo
      ensures PublishId(r).Some? ==> PublishId(r).value in Published(ev)
    {
      AppendedEntry(seqNo, drafts, Emitted(w.live, ev), r);
      PublishEntry(r);
    }
    if ev.op.DoPublish? {
      WorldUsed(w);
      SimplePublish(w.live, ev, w.used);
    }
  }

  lemma MatchedLength(drafts: seq<Draft<Dict>>, recs: seq<Rec>)
    requires Matches(drafts, recs)
    ensures |drafts| == |recs|
  {
  }

  lemma WorldUsed(w: W.World)
    requires W.WorldOk(w)
    ensures IndexOk(w.live) && w.live.byId.Keys <= w.used
  {
    hide W.Torn, TablesAgree, W.Exact, W.Written, W.BaseOk, Roomy, Unlimited;
    W.LiveUsed(w.live, w.disk, w.used);
  }

  lemma SimplePublish(s: State, ev: Event, used: set<Id>)
    requires IndexOk(s) && s.byId.Keys <= used && ev.op.DoPublish? && ev.op.message.id !in used && Callable(s, ev.op)
    ensures |Emitted(s, ev)| <= 1
  {
    hide TablesAgree, Emitted;
    W.ShortPublish(s, ev.op.message, ev.now);
    assert ev == Event(DoPublish(ev.op.message), ev.now);
  }

  lemma WorkKnown(w: W.World, seqNo: nat, all: seq<Row>, snapSeq: nat, ev: Event, drafts: seq<Draft<Dict>>)
    requires W.WorldOk(w) && W.Possible(w, W.Work(ev)) && Matches(drafts, Emitted(w.live, ev)) && snapSeq <= seqNo
    requires PublishedOnce(all) && PublishedKnown(w, all, snapSeq)
    ensures
      var all' := all + Numbered(seqNo, drafts);
      PublishedOnce(all') && PublishedKnown(W.After(w, W.Work(ev)), all', snapSeq)
  {
    hide W.WorldOk, Matches, Numbered, Emitted, Step, Straight, Callable, PublishId, W.SavedIds, TablesAgree, Letter, SameLife;
    var more := Numbered(seqNo, drafts);
    WorkPublishes(w, seqNo, ev, drafts);
    OnceMore(all, more, w.used);
    WorldUsed(w);
    W.AfterOk(w, W.Work(ev));
    WorldUsed(W.After(w, W.Work(ev)));
    forall r | r in all && PublishId(r).Some? && r.seqNo <= snapSeq && PublishId(r).value in Step(w.live, ev).byId
      ensures PublishId(r).value in w.live.byId
    {
      var id := PublishId(r).value;
      StepLife(w.live, ev, w.used, id);
      LetterQueue(Step(w.live, ev), id);
      LetterQueue(w.live, id);
      LifeSome(Letter(w.live, id), Letter(Step(w.live, ev), id));
    }
  }

  lemma LifeSome(o: Option<Message>, o': Option<Message>)
    requires SameLife(o, o') && o'.Some?
    ensures o.Some?
  {
  }

  /** The engine works and journals. */
  lemma WorkJoined(w: W.World, a: A.Writer<Dict>, all: seq<Row>, done: seq<Row>, snapSeq: nat, m: nat, ev: Event,
                   drafts: seq<Draft<Dict>>)
    requires Joined(w, a, all, done, snapSeq, m) && !a.closed && W.Possible(w, W.Work(ev))
    requires Matches(drafts, Emitted(w.live, ev)) && AllEncodable(a.c, Numbered(a.seqNo, drafts))
    ensures Joined(W.After(w, W.Work(ev)), AppendAll(a, drafts), all + Numbered(a.seqNo, drafts), done, snapSeq, m)
  {
    hide W.WorldOk, A.Good, Encodable, EncodeAll, Newer, Entries, Step, Emitted, Straight, Callable, Matches, Numbered, Parsed,
      PublishedOnce, PublishedKnown;
    W.AfterOk(w, W.Work(ev));
    AppendAllKeeps(a, all, done, drafts);
    LogGrows(w.disk.log, a, all, snapSeq, drafts, Emitted(w.live, ev));
    WorkKnown(w, a.seqNo, all, snapSeq, ev, drafts);
  }

  /** The router works and journals. */
  lemma RouteJoined(w: W.World, a: A.Writer<Dict>, all: seq<Row>, done: seq<Row>, snapSeq: nat, m: nat, meta: Meta,
                    draft: Draft<Dict>)
    requires Joined(w, a, all, done, snapSeq, m) && !a.closed && W.Possible(w, W.Route(meta))
    requires Matches([draft], [Rec(meta, [])]) && AllEncodable(a.c, Numbered(a.seqNo, [draft]))
    ensures Joined(W.After(w, W.Route(meta)), AppendAll(a, [draft]), all + Numbered(a.seqNo, [draft]), done, snapSeq, m)
  {
    hide W.WorldOk, A.Good, Encodable, EncodeAll, Newer, Entries, Matches, Numbered, Parsed, PublishedOnce, PublishedKnown,
      Routed, Parse, PublishId, AppendAll;
    W.AfterOk(w, W.Route(meta));
    AppendAllKeeps(a, all, done, [draft]);
    LogGrows(w.disk.log, a, all, snapSeq, [draft], [Rec(meta, [])]);
    RouteKnown(w, a.seqNo, all, snapSeq, meta, draft);
  }

  lemma RouteKnown(w: W.World, seqNo: nat, all: seq<Row>, snapSeq: nat, meta: Meta, draft: Draft<Dict>)
    requires W.Possible(w, W.Route(meta)) && Matches([draft], [Rec(meta, [])])
    requires PublishedOnce(all) && PublishedKnown(w, all, snapSeq)
    ensures
      var all' := all + Numbered(seqNo, [draft]);
      PublishedOnce(all') && PublishedKnown(W.After(w, W.Route(meta)), all', snapSeq)
  {
    hide Parse, ToDict, Numbered, PublishId, W.SavedIds, Matches, EntryOf;
    var more := Numbered(seqNo, [draft]);
    forall r | r in more
      ensures PublishId(r) == None
    {
      AppendedEntry(seqNo, [draft], [Rec(meta, [])], r);
      PublishEntry(r);
    }
    OnceMore(all, more, w.used);
  }

  /** The writer takes, writes, reports, or lets a waiter go. */
  lemma WriterJoined(w: W.World, a: A.Writer<Dict>, all: seq<Row>, done: seq<Row>, snapSeq: nat, m: nat,
                     step: A.WriterStep<Dict>)
    requires Joined(w, a, all, done, snapSeq, m) && A.Enabled(a, step) && !step.DoAppend?
    ensures Joined(w, A.Next(a, step), all, A.DoneAfter(a, done, step), snapSeq, m)
  {
    hide W.WorldOk, A.Good, Encodable, EncodeAll, Newer, Entries, Parsed, PublishedOnce, PublishedKnown;
    A.StepKeeps(a, all, done, step);
    WriterFacts(a, all, done, step);
    assert A.DoneAfter(a, done, step)[..m] == done[..m];
  }

  lemma WriterFacts(a: A.Writer<Dict>, all: seq<Row>, done: seq<Row>, step: A.WriterStep<Dict>)
    requires A.Good(a, all, done) && A.Enabled(a, step) && !step.DoAppend?
    ensures A.Next(a, step).synced >= a.synced && A.Next(a, step).c == a.c && A.Next(a, step).seqNo == a.seqNo
    ensures A.AllAfter(a, all, step) == all && A.Next(a, step).policy == a.policy
  {
    hide Encodable, EncodeAll, Increasing, UpTo, A.Pending, A.StopsLast, A.IsSuffix;
  }

  /** A snapshot is written with the writer's number. */
  lemma SaveJoined(w: W.World, a: A.Writer<Dict>, all: seq<Row>, done: seq<Row>, snapSeq: nat, m: nat, saved: Saved)
    requires Joined(w, a, all, done, snapSeq, m) && W.Possible(w, W.Save(saved))
    ensures Joined(W.After(w, W.Save(saved)), a, all, done, a.seqNo, m)
  {
    hide W.WorldOk, A.Good, Encodable, EncodeAll, Newer, Entries, IsSnapshot, PublishedOnce, PublishId, W.SavedIds, Parse,
      TablesAgree;
    W.AfterOk(w, W.Save(saved));
    WorldUsed(w);
    GoodUpTo(a, all, done);
    NewerNone(all, a.seqNo);
    EntriesNone();
    forall id | id in w.live.byId
      ensures id in W.SavedIds(Some(saved))
    {
      W.SavedKnown(w.live, saved, id);
    }
  }

  lemma EntriesNone()
    ensures Parsed([]) && Entries([]) == []
  {
  }

  lemma GoodUpTo(a: A.Writer<Dict>, all: seq<Row>, done: seq<Row>)
    requires A.Good(a, all, done)
    ensures UpTo(all, a.seqNo) && Increasing(all) && AllEncodable(a.c, all) && AllEncodable(a.c, a.batch) && done <= all
  {
    hide Encodable, EncodeAll;
    A.BatchKnown(a, all, done);
  }

  /** What recovery reads from a file that a crash left: the first so many records. */
  lemma CrashReads(w: W.World, a: A.Writer<Dict>, all: seq<Row>, done: seq<Row>, snapSeq: nat, m: nat, file: Bytes)
    requires Joined(w, a, all, done, snapSeq, m) && JsonOk(a.c) && AllEncodable(a.c, a.batch) && A.CrashLeaves(a, file)
    ensures
      var (records, keep) := ReadFrom(a.c, file, 0);
      && records <= all && m <= |records| && AllEncodable(a.c, records)
      && keep <= |file| && file[..keep] == EncodeAll(a.c, records)
  {
    hide W.WorldOk, A.Good, A.CrashLeaves, Encodable, EncodeAll, Newer, Entries, ReadFrom, JsonOk, WholeCount, Parsed,
      PublishedOnce, PublishedKnown;
    GoodUpTo(a, all, done);
    A.GoodBatch(a, all, done);
    var whole := EncodeAll(a.c, all);
    assert file == whole[..|file|];
    TornLogReads(a.c, all, |file|);
    WholeCountFits(a.c, all, |file|);
    var j := WholeCount(a.c, all, |file|);
    CrashLength(a, file);
    if j < m {
      assert all[..j + 1] == done[..m][..j + 1];
      A.EncodeMonotone(a.c, done[..m], j + 1);
    }
  }

  lemma CrashLength(a: A.Writer<Dict>, file: Bytes)
    requires AllEncodable(a.c, a.batch) && A.CrashLeaves(a, file)
    ensures |file| >= a.synced
  {
  }

  /** What the broker loses of its log in a crash is what the file loses. */
  lemma CrashLog(w: W.World, a: A.Writer<Dict>, all: seq<Row>, done: seq<Row>, snapSeq: nat, m: nat, file: Bytes)
    requires Joined(w, a, all, done, snapSeq, m) && JsonOk(a.c) && AllEncodable(a.c, a.batch) && A.CrashLeaves(a, file)
    ensures
      var records := ReadFrom(a.c, file, 0).0;
      var applied := Resume(records, snapSeq, snapSeq).0;
      && Parsed(records) && Parsed(applied) && applied == Newer(records, snapSeq)
      && w.durable <= |applied| <= |w.disk.log| && Entries(applied) == w.disk.log[..|applied|]
  {
    hide W.WorldOk, A.Good, A.CrashLeaves, Encodable, EncodeAll, Newer, Entries, ReadFrom, JsonOk, Resume, Parsed,
      PublishedOnce, PublishedKnown;
    var records := ReadFrom(a.c, file, 0).0;
    CrashReads(w, a, all, done, snapSeq, m, file);
    ResumeNewer(records, snapSeq, snapSeq);
    assert records == all[..|records|];
    GoodUpTo(a, all, done);
    PrefixEntries(all, snapSeq, |records|);
    assert done[..m] == records[..m];
    PrefixEntries(records, snapSeq, m);
  }

  /** A crash, a restart on what the file still holds, and a new writer on the file that recovery has cut. */
  lemma CrashJoined(w: W.World, a: A.Writer<Dict>, all: seq<Row>, done: seq<Row>, snapSeq: nat, m: nat, file: Bytes, c: W.Clocks)
    requires Joined(w, a, all, done, snapSeq, m) && JsonOk(a.c) && AllEncodable(a.c, a.batch) && A.CrashLeaves(a, file)
    requires |c.replay| == |Resume(ReadFrom(a.c, file, 0).0, snapSeq, snapSeq).0|
    ensures
      var records := ReadFrom(a.c, file, 0).0;
      var (applied, last) := Resume(records, snapSeq, snapSeq);
      && AllEncodable(a.c, records) && W.Possible(w, W.Crash(|applied|, c))
      && |applied| <= |w.disk.log| && Parsed(applied) && Entries(applied) == w.disk.log[..|applied|]
      && Joined(W.After(w, W.Crash(|applied|, c)), A.Opened(a.c, a.policy, records, last), records, records, snapSeq, |records|)
  {
    hide W.WorldOk, A.Good, A.CrashLeaves, Encodable, EncodeAll, Newer, Entries, ReadFrom, JsonOk, Resume, W.Recovered, Parsed,
      PublishedOnce, PublishedKnown;
    var records := ReadFrom(a.c, file, 0).0;
    var (applied, last) := Resume(records, snapSeq, snapSeq);
    CrashReads(w, a, all, done, snapSeq, m, file);
    CrashLog(w, a, all, done, snapSeq, m, file);
    GoodUpTo(a, all, done);
    assert records == all[..|records|];
    PrefixIncreasing(all, |records|);
    ResumeLast(records, snapSeq, snapSeq);
    A.OpenedGood(a.c, a.policy, records, last);
    W.AfterOk(w, W.Crash(|applied|, c));
    assert records[..|records|] == records;
    OpenedFacts(a.c, a.policy, records, last);
    OncePrefix(all, |records|);
    CrashKnown(w, all, records, snapSeq, c);
  }

  lemma CrashKnown(w: W.World, all: seq<Row>, records: seq<Row>, snapSeq: nat, c: W.Clocks)
    requires W.WorldOk(w) && records <= all && PublishedOnce(all) && PublishedKnown(w, all, snapSeq)
    requires Parsed(records) && Parsed(Newer(records, snapSeq)) && |Newer(records, snapSeq)| <= |w.disk.log|
    requires Entries(Newer(records, snapSeq)) == w.disk.log[..|Newer(records, snapSeq)|]
    requires W.Possible(w, W.Crash(|Newer(records, snapSeq)|, c))
    ensures PublishedKnown(W.After(w, W.Crash(|Newer(records, snapSeq)|, c)), records, snapSeq)
  {
    hide W.WorldOk, Newer, Entries, W.Recovered, Parse, PublishId, W.SavedIds, PublishedOnce, W.LogIds;
    var kept := |Newer(records, snapSeq)|;
    var w' := W.After(w, W.Crash(kept, c));
    W.CrashIds(w, kept, c);
    forall r | r in records && PublishId(r).Some? && r.seqNo <= snapSeq && PublishId(r).value in w'.live.byId
      ensures PublishId(r).value in W.SavedIds(w.disk.base)
    {
      var id := PublishId(r).value;
      if id in W.LogIds(w.disk.log[..kept]) {
        PublishedEntries(Newer(records, snapSeq), id);
        var r' :| r' in Newer(records, snapSeq) && PublishId(r') == Some(id);
        NewerMembers(records, snapSeq);
        OnceSame(all, r, r');
        assert false;
      }
    }
  }

  lemma OpenedFacts(c: Codec<Dict>, policy: A.Policy, recs: seq<Row>, seqNo: nat)
    requires AllEncodable(c, recs)
    ensures
      var a := A.Opened(c, policy, recs, seqNo);
      a.c == c && a.seqNo == seqNo && a.synced == |EncodeAll(c, recs)| && a.policy == policy
  {
    hide Encodable, EncodeAll;
  }

  // ----- whole histories of broker, writer and file -----

  datatype System = System(w: W.World, a: A.Writer<Dict>, all: seq<Row>, done: seq<Row>, snapSeq: nat, m: nat)

  datatype SystemStep =
    | Works(ev: Event, drafts: seq<Draft<Dict>>)
    | Routes(meta: Meta, draft: Draft<Dict>)
    | Writes(step: A.WriterStep<Dict>)
    | Saves(saved: Saved)
    | Crashes(file: Bytes, clocks: W.Clocks)

  ghost predicate SystemOk(s: System) {
    Joined(s.w, s.a, s.all, s.done, s.snapSeq, s.m) && AllEncodable(s.a.c, s.a.batch) && JsonOk(s.a.c)
  }

  ghost predicate Ready(s: System, step: SystemStep)
    requires AllEncodable(s.a.c, s.a.batch)
  {
    match step
    case Works(ev, drafts) =>
      && !s.a.closed && W.Possible(s.w, W.Work(ev))
      && Matches(drafts, Emitted(s.w.live, ev)) && AllEncodable(s.a.c, Numbered(s.a.seqNo, drafts))
    case Routes(meta, draft) =>
      && !s.a.closed && W.Possible(s.w, W.Route(meta))
      && Matches([draft], [Rec(meta, [])]) && AllEncodable(s.a.c, Numbered(s.a.seqNo, [draft]))
    case Writes(step) => A.Enabled(s.a, step) && !step.DoAppend?
    case Saves(saved) => W.Possible(s.w, W.Save(saved))
    case Crashes(file, c) =>
      && A.CrashLeaves(s.a, file) && AllEncodable(s.a.c, ReadFrom(s.a.c, file, 0).0)
      && |c.replay| == |Resume(ReadFrom(s.a.c, file, 0).0, s.snapSeq, s.snapSeq).0|
      && W.Possible(s.w, W.Crash(|c.replay|, c))
  }

  ghost function SystemNext(s: System, step: SystemStep): System
    requires AllEncodable(s.a.c, s.a.batch) && Ready(s, step)
  {
    match step
    case Works(ev, drafts) =>
      System(W.After(s.w, W.Work(ev)), AppendAll(s.a, drafts), s.all + Numbered(s.a.seqNo, drafts), s.done, s.snapSeq, s.m)
    case Routes(meta, draft) =>
      System(W.After(s.w, W.Route(meta)), AppendAll(s.a, [draft]), s.all + Numbered(s.a.seqNo, [draft]), s.done, s.snapSeq, s.m)
    case Writes(step) => s.(a := A.Next(s.a, step), done := A.DoneAfter(s.a, s.done, step))
    case Saves(saved) => s.(w := W.After(s.w, W.Save(saved)), snapSeq := s.a.seqNo)
    case Crashes(file, c) =>
      var records := ReadFrom(s.a.c, file, 0).0;
      System(W.After(s.w, W.Crash(|c.replay|, c)),
             A.Opened(s.a.c, s.a.policy, records, Resume(records, s.snapSeq, s.snapSeq).1),
             records, records, s.snapSeq, |records|)
  }

  /** A crash is possible whenever the file that it leaves is: what else Ready asks of it always holds. */
  lemma CrashAlwaysReady(s: System, file: Bytes, c: W.Clocks)
    requires SystemOk(s) && A.CrashLeaves(s.a, file)
    requires |c.replay| == |Resume(ReadFrom(s.a.c, file, 0).0, s.snapSeq, s.snapSeq).0|
    ensures Ready(s, Crashes(file, c))
  {
    hide Joined, Encodable, JsonOk, W.Possible, ReadFrom, Resume, A.CrashLeaves;
    CrashJoined(s.w, s.a, s.all, s.done, s.snapSeq, s.m, file, c);
  }

  lemma AppendsKeep(s: System, step: SystemStep)
    requires SystemOk(s) && Ready(s, step) && (step.Works? || step.Routes?)
    ensures SystemOk(SystemNext(s, step)) && SystemNext(s, step).a.policy == s.a.policy
  {
    hide Joined, Encodable, JsonOk, W.Possible, W.After, Matches, Numbered, AppendAll, Step, Emitted, A.Good;
    JoinedGood(s.w, s.a, s.all, s.done, s.snapSeq, s.m);
    match step {
      case Works(ev, drafts) =>
        WorkJoined(s.w, s.a, s.all, s.done, s.snapSeq, s.m, ev, drafts);
        AppendAllKeeps(s.a, s.all, s.done, drafts);
      case Routes(meta, draft) =>
        RouteJoined(s.w, s.a, s.all, s.done, s.snapSeq, s.m, meta, draft);
        AppendAllKeeps(s.a, s.all, s.done, [draft]);
    }
    var s' := SystemNext(s, step);
    JoinedGood(s'.w, s'.a, s'.all, s'.done, s'.snapSeq, s'.m);
  }

  lemma WritesKeep(s: System, wstep: A.WriterStep<Dict>)
    requires SystemOk(s) && Ready(s, Writes(wstep))
    ensures SystemOk(SystemNext(s, Writes(wstep))) && SystemNext(s, Writes(wstep)).a.policy == s.a.policy
  {
    hide Joined, Encodable, JsonOk, A.Enabled, A.Next, A.DoneAfter;
    JoinedGood(s.w, s.a, s.all, s.done, s.snapSeq, s.m);
    WriterFacts(s.a, s.all, s.done, wstep);
    WriterJoined(s.w, s.a, s.all, s.done, s.snapSeq, s.m, wstep);
    JoinedGood(s.w, A.Next(s.a, wstep), s.all, A.DoneAfter(s.a, s.done, wstep), s.snapSeq, s.m);
  }

  lemma CrashesKeep(s: System, file: Bytes, c: W.Clocks)
    requires SystemOk(s) && Ready(s, Crashes(file, c))
    ensures SystemOk(SystemNext(s, Crashes(file, c))) && SystemNext(s, Crashes(file, c)).a.policy == s.a.policy
  {
    hide Joined, Encodable, JsonOk, W.Possible, W.After, ReadFrom, Resume, A.CrashLeaves, A.Opened;
    var records := ReadFrom(s.a.c, file, 0).0;
    CrashJoined(s.w, s.a, s.all, s.done, s.snapSeq, s.m, file, c);
    OpenedFacts(s.a.c, s.a.policy, records, Resume(records, s.snapSeq, s.snapSeq).1);
    var s' := SystemNext(s, Crashes(file, c));
    JoinedGood(s'.w, s'.a, s'.all, s'.done, s'.snapSeq, s'.m);
  }

  lemma SystemKeeps(s: System, step: SystemStep)
    requires SystemOk(s) && Ready(s, step)
    ensures SystemOk(SystemNext(s, step)) && SystemNext(s, step).a.policy == s.a.policy
  {
    hide Joined, Encodable, JsonOk, W.Possible, W.After, Matches, Numbered, ReadFrom, Resume, AppendAll, A.CrashLeaves,
      A.Opened, Step, Emitted, A.Next, A.DoneAfter, A.Enabled;
    match step
    case Writes(wstep) => WritesKeep(s, wstep);
    case Saves(saved) => SaveJoined(s.w, s.a, s.all, s.done, s.snapSeq, s.m, saved);
    case Crashes(file, c) => CrashesKeep(s, file, c);
    case _ => AppendsKeep(s, step);
  }

  lemma JoinedGood(w: W.World, a: A.Writer<Dict>, all: seq<Row>, done: seq<Row>, snapSeq: nat, m: nat)
    requires Joined(w, a, all, done, snapSeq, m)
    ensures A.Good(a, all, done) && AllEncodable(a.c, a.batch)
  {
    hide W.WorldOk, A.Good, Encodable, EncodeAll, Newer, Entries, Parsed, PublishedOnce, PublishedKnown;
    GoodUpTo(a, all, done);
  }

  ghost predicate Happens(s: System, steps: seq<SystemStep>)
    decreases |steps|
  {
    steps == [] || (AllEncodable(s.a.c, s.a.batch) && Ready(s, steps[0]) && Happens(SystemNext(s, steps[0]), steps[1..]))
  }

  ghost function SystemAfter(s: System, steps: seq<SystemStep>): System
    requires Happens(s, steps)
    decreases |steps|
  {
    if steps == [] then s else SystemAfter(SystemNext(s, steps[0]), steps[1..])
  }

  lemma {:induction false} SystemRun(s: System, steps: seq<SystemStep>)
    requires SystemOk(s) && Happens(s, steps)
    ensures SystemOk(SystemAfter(s, steps)) && SystemAfter(s, steps).a.policy == s.a.policy
    decreases |steps|
  {
    hide SystemOk, Ready, SystemNext, Encodable;
    if steps != [] {
      SystemKeeps(s, steps[0]);
      SystemRun(SystemNext(s, steps[0]), steps[1..]);
    }
  }

  /** A broker on an empty directory. */
  ghost function Fresh(cfg: Config, c: Codec<Dict>): System {
    System(W.World(Init(cfg), W.Disk(None, []), 0, {}), A.Opened(c, A.Always, [], 0), [], [], 0, 0)
  }

  lemma FreshOk(cfg: Config, c: Codec<Dict>)
    requires cfg.maxLength == None && JsonOk(c)
    ensures SystemOk(Fresh(cfg, c)) && Fresh(cfg, c).a.policy == A.Always
  {
    hide W.WorldOk, JsonOk, A.Good;
    W.StartOk(cfg);
    A.OpenedGood<Dict>(c, A.Always, [], 0);
  }

  /** The disk is known to have the message: it was live when the snapshot was taken, or a wait has returned
      for its record or for one that was appended after it. */
  ghost predicate Awaited(s: System, id: Id) {
    || id in W.SavedIds(s.w.disk.base)
    || exists r, mine :: r in s.all && mine in s.all && PublishId(r) == Some(id) && r.seqNo <= mine.seqNo
                         && A.Wait(s.a, mine.seqNo).1
  }

  /** From an empty directory, after any history of work, routing, writing, snapshots, crashes in the middle
      of any write, and restarts: if a message is live, and a wait for its record or for a later one has
      returned, then after one more crash, which may tear the file anywhere past what is flushed, recovery
      holds the message, with its payload, in its queue or on the other side of its dead-lettering. It does
      not matter whether the message was published before or after the last snapshot. */
  lemma AwaitedMessageSurvives(cfg: Config, c: Codec<Dict>, steps: seq<SystemStep>, file: Bytes, clocks: W.Clocks, id: Id)
    requires cfg.maxLength == None && JsonOk(c) && Happens(Fresh(cfg, c), steps)
    requires
      var s := SystemAfter(Fresh(cfg, c), steps);
      AllEncodable(s.a.c, s.a.batch) && Ready(s, Crashes(file, clocks)) && Letter(s.w.live, id).Some? && Awaited(s, id)
    ensures
      var s := SystemAfter(Fresh(cfg, c), steps);
      var (before, after) := (Letter(s.w.live, id), Letter(SystemNext(s, Crashes(file, clocks)).w.live, id));
      && after.Some? && SameLetter(before.value, after.value)
      && OriginQueue(after.value.queue) == OriginQueue(before.value.queue)
  {
    hide Happens, SystemAfter, SystemOk, Letter, W.After, W.Possible, ReadFrom, Resume, A.CrashLeaves, Encodable, Awaited,
      A.Opened, W.WorldOk, EncodeAll;
    var s := SystemAfter(Fresh(cfg, c), steps);
    FreshOk(cfg, c);
    SystemRun(Fresh(cfg, c), steps);
    CrashKeepsAwaited(s, file, clocks, id);
  }

  lemma CrashKeepsAwaited(s: System, file: Bytes, clocks: W.Clocks, id: Id)
    requires SystemOk(s) && s.a.policy == A.Always && Ready(s, Crashes(file, clocks)) && Awaited(s, id)
    ensures SameLife(Letter(SystemNext(s, Crashes(file, clocks)).w.live, id), Letter(s.w.live, id))
  {
    hide Joined, Letter, W.After, W.Possible, ReadFrom, Resume, A.CrashLeaves, Encodable, A.Opened, Awaited, SameLife, JsonOk;
    CrashedWorld(s, file, clocks);
    if Letter(s.w.live, id).Some? {
      AwaitedWritten(s, file, clocks, id);
      HoldsWritten(s, |clocks.replay|, clocks, id);
    } else {
      LifeGone(Letter(W.After(s.w, W.Crash(|clocks.replay|, clocks)).live, id));
    }
  }

  lemma CrashedWorld(s: System, file: Bytes, clocks: W.Clocks)
    requires AllEncodable(s.a.c, s.a.batch) && Ready(s, Crashes(file, clocks))
    ensures W.Possible(s.w, W.Crash(|clocks.replay|, clocks))
    ensures SystemNext(s, Crashes(file, clocks)).w == W.After(s.w, W.Crash(|clocks.replay|, clocks))
  {
    hide W.After, W.Possible, ReadFrom, Resume, A.CrashLeaves, Encodable, A.Opened;
  }

  lemma HoldsWritten(s: System, kept: nat, clocks: W.Clocks, id: Id)
    requires SystemOk(s) && W.Possible(s.w, W.Crash(kept, clocks)) && kept <= |s.w.disk.log|
    requires id in W.Written(W.Cut(s.w.disk, kept))
    ensures SameLife(Letter(W.After(s.w, W.Crash(kept, clocks)).live, id), Letter(s.w.live, id))
  {
    hide Joined, Letter, W.After, W.Possible, Encodable, SameLife, JsonOk, W.Written;
    JoinedWorld(s.w, s.a, s.all, s.done, s.snapSeq, s.m);
    W.CrashHolds(s.w, kept, clocks, id);
  }

  lemma CrashKept(w: W.World, kept: nat, c: W.Clocks)
    requires W.Possible(w, W.Crash(kept, c))
    ensures kept <= |w.disk.log|
  {
  }

  lemma JoinedWorld(w: W.World, a: A.Writer<Dict>, all: seq<Row>, done: seq<Row>, snapSeq: nat, m: nat)
    requires Joined(w, a, all, done, snapSeq, m)
    ensures W.WorldOk(w) && IndexOk(w.live) && PublishedKnown(w, all, snapSeq)
  {
    hide A.Good, Encodable, EncodeAll, Newer, Entries, Parsed, PublishedOnce, PublishedKnown, TablesAgree, Roomy, W.BaseOk,
      Unlimited, W.Written, W.Exact, W.Torn;
  }

  /** A live message that was awaited is in the snapshot or in the part of the log that the crash leaves. */
  lemma AwaitedWritten(s: System, file: Bytes, clocks: W.Clocks, id: Id)
    requires SystemOk(s) && s.a.policy == A.Always && Ready(s, Crashes(file, clocks)) && Awaited(s, id)
    requires Letter(s.w.live, id).Some?
    ensures |clocks.replay| <= |s.w.disk.log| && id in W.Written(W.Cut(s.w.disk, |clocks.replay|))
  {
    hide Joined, Letter, W.Possible, ReadFrom, Resume, A.CrashLeaves, Encodable, JsonOk, W.LogIds, W.SavedIds, PublishId,
      Entries, Newer, A.Wait, Parse, W.WorldOk, A.Good, TablesAgree;
    JoinedWorld(s.w, s.a, s.all, s.done, s.snapSeq, s.m);
    CrashKept(s.w, |clocks.replay|, clocks);
    LetterQueue(s.w.live, id);
    if id !in W.SavedIds(s.w.disk.base) {
      var r, mine :| r in s.all && mine in s.all && PublishId(r) == Some(id) && r.seqNo <= mine.seqNo
                     && A.Wait(s.a, mine.seqNo).1;
      var records := ReadFrom(s.a.c, file, 0).0;
      JoinedGood(s.w, s.a, s.all, s.done, s.snapSeq, s.m);
      A.CrashRecovers(s.a, s.all, s.done, file);
      CrashLog(s.w, s.a, s.all, s.done, s.snapSeq, s.m, file);
      NewerMembers(records, s.snapSeq);
      PublishedEntries(Newer(records, s.snapSeq), id);
    }
  }
}
