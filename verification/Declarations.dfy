/** What declaring a queue creates, what its record restores, and how long an acknowledgement is remembered. */
module Declarations {
  import opened Types
  import opened DlqNames
  import opened Journal
  import opened Engine
  import opened Index
  import opened Replay
  import opened Recovery

  /** Declaring a new queue creates it empty, as asked for, with the engine's defaults for what is left open; it
      creates a dead-letter queue beside it, if it keeps dead letters and has none yet, with one attempt, the
      same visibility timeout and no dead letters of its own; and it touches no other queue. */
  lemma DeclareCreates(s: State, n: QName, a: DeclareArgs, persist: bool)
    requires n !in s.queues
    ensures n in Declare(s, n, a, persist).queues
    ensures
      var s' := Declare(s, n, a, persist);
      var (q, dn) := (s'.queues[n], DlqName(n));
      var keeps := a.deadLetter && !IsDlq(n);
      && s'.byId == s.byId
      && (forall x :: x in s'.queues <==> x in s.queues || x == n || (keeps && x == dn))
      && (forall x :: x in s.queues ==> s'.queues[x] == s.queues[x])
      && Depth(q) == 0 && q.messages == map[] && q.consumerIds == [] && q.rrIndex == 0 && q.dlqIds == []
      && q.stats == Stats(0, 0, 0, 0, 0, 0)
      && q.spec.name == n && q.spec.durable == a.durable && q.spec.deadLetter == keeps
      && q.spec.maxLength == (if a.maxLength == None then s.cfg.maxLength else a.maxLength)
      && q.spec.visibilityTimeout == a.visibilityTimeout.GetOr(s.cfg.visibilityTimeout)
      && q.spec.maxAttempts == a.maxAttempts.GetOr(s.cfg.maxAttempts)
      && (keeps && dn !in s.queues ==>
            s'.queues[dn].spec == Spec(dn, true, s.cfg.maxLength, q.spec.visibilityTimeout, 1, false)
            && s'.queues[dn] == NewQueue(s'.queues[dn].spec))
  {
    hide IsDlq, Declare;
    var spec := MakeSpec(s.cfg, n, a);
    var s1 := SetQueue(s, n, NewQueue(spec));
    DeclareForm(s, n, a, persist);
    if spec.deadLetter {
      PlainDeclare(s1, DlqName(n), DlqArgs(spec), persist);
    }
  }

  lemma PlainDeclare(s: State, n: QName, a: DeclareArgs, persist: bool)
    requires IsDlq(n)
    ensures
      var s' := Declare(s, n, a, persist);
      && s'.byId == s.byId
      && s'.queues == if n in s.queues then s.queues else s.queues[n := NewQueue(MakeSpec(s.cfg, n, a))]
  {
    hide IsDlq;
  }

  /** A queue that is created on demand, because a message is published to it, bound to it or consumed from it, is
      durable, keeps dead letters and has the engine's defaults; a dead-letter queue that is created when a message
      dies has the engine's defaults too. */
  lemma OnDemand(s: State, n: QName, m: Message, persist: bool)
    ensures n !in s.queues ==>
      var s' := Declare(s, n, DEFAULT_ARGS, persist);
      n in s'.queues
      && s'.queues[n].spec == Spec(n, true, s.cfg.maxLength, s.cfg.visibilityTimeout, s.cfg.maxAttempts, !IsDlq(n))
    ensures n in s.queues && s.queues[n].spec.deadLetter && DlqName(n) !in s.queues ==>
      var s' := MoveToDlq(s, n, m, persist);
      DlqName(n) in s'.queues
      && s'.queues[DlqName(n)].spec ==
         Spec(DlqName(n), true, s.cfg.maxLength, s.cfg.visibilityTimeout, s.cfg.maxAttempts, false)
  {
    hide IsDlq, Declare, Heaps.Push;
    if n !in s.queues {
      DeclareCreates(s, n, DEFAULT_ARGS, persist);
    } else if s.queues[n].spec.deadLetter && DlqName(n) !in s.queues {
      PlainDeclare(Remove(s, n, m, persist), DlqName(n), DEFAULT_ARGS.(deadLetter := false), false);
    }
  }

  /** A queue's record declares the same queue again on an engine that does not have it, exactly if the
      record gives a limit or the engine that replays it has no default limit. */
  lemma DeclareRecordRoundTrip(s: State, spec: Spec, now: Time)
    requires spec.name !in s.queues && (spec.deadLetter ==> !IsDlq(spec.name))
    ensures
      var s' := Apply(s, Rec(DeclareMeta(spec), []), now);
      spec.name in s'.queues && (s'.queues[spec.name].spec == spec <==> spec.maxLength.Some? || s.cfg.maxLength == None)
  {
    hide IsDlq, Declare, Apply;
    DeclareApply(s, spec, now);
    DeclareCreates(s, spec.name, SpecArgs(spec, spec.durable), false);
  }

  // ----- remembering acknowledgements -----

  /** What is remembered are the newest acknowledgements, as many as the limit allows. */
  lemma {:induction false} TrimKeepsNewest(acks: seq<Id>, limit: nat)
    ensures Trim(acks, limit) == if |acks| > limit then acks[|acks| - limit..] else acks
    decreases |acks|
  {
    if |acks| > limit {
      TrimKeepsNewest(acks[1..], limit);
    }
  }

  /** Acknowledging twice: the second time the answer is "already acknowledged" if and only if anything is
      remembered at all, and neither time is another message touched. */
  lemma AckTwice(s: State, id: Id, persist: bool)
    requires IndexOk(s) && Ack(s, id, persist).1 == AckOk
    ensures
      var s1 := Ack(s, id, persist).0;
      var (s2, r) := Ack(s1, id, persist);
      && (r == AlreadyAcked <==> s.cfg.recentAckLimit > 0)
      && (r != AlreadyAcked ==> r == AckNotFound)
      && s2 == s1 && s1.byId == s.byId - {id}
  {
    hide Trim, IsDlq, TablesAgree;
    TrimKeepsNewest(s.recentAcks + [id], s.cfg.recentAckLimit);
    var acks := s.recentAcks + [id];
    assert acks[|acks| - 1] == id;
    if 0 < s.cfg.recentAckLimit < |acks| {
      assert acks[|acks| - s.cfg.recentAckLimit..][s.cfg.recentAckLimit - 1] == id;
    }
  }
}
