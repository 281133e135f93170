/** Delivery order over a restart: a restored queue delivers its messages by priority and, among equals, in the order
    in which the snapshot lists them. */
module RestartOrder {
  import opened Types
  import opened Heaps
  import opened Engine
  import opened Invariant
  import opened Snapshot

  /** The messages of the list that are not delayed have entries numbered in the order of the list. */
  ghost predicate InTurn(ready: seq<Entry<Id>>, list: seq<SavedMessage>, first: nat) {
    forall i :: 0 <= i < |list| && list[i].state != DELAYED ==> ReadyEntry(list[i].message, first + i) in ready
  }

  /** One queue gains entries, and nothing else changes. */
  ghost predicate Gains(s: State, s': State, n: QName) {
    && n in s.queues && n in s'.queues
    && (forall x :: x in s.queues && x != n ==> x in s'.queues && s'.queues[x] == s.queues[x])
    && (forall e :: e in s.queues[n].ready ==> e in s'.queues[n].ready)
  }

  lemma RestoreMessageTurn(s: State, n: QName, sm: SavedMessage, now: Time)
    requires n in s.queues
    ensures
      var s' := RestoreMessage(s, n, sm, now);
      && s'.lastOrd == s.lastOrd + 1 && Gains(s, s', n)
      && (sm.state != DELAYED ==> ReadyEntry(sm.message, s.lastOrd + 1) in s'.queues[n].ready)
  {
    hide Push;
  }

  lemma GainsTrans(a: State, b: State, c: State, n: QName)
    requires Gains(a, b, n) && Gains(b, c, n)
    ensures Gains(a, c, n)
  {
  }

  lemma TurnNext(ready: seq<Entry<Id>>, list: seq<SavedMessage>, first: nat)
    requires list != [] && InTurn(ready, list[1..], first + 1)
    requires list[0].state != DELAYED ==> ReadyEntry(list[0].message, first) in ready
    ensures InTurn(ready, list, first)
  {
    hide ReadyEntry;
    forall i | 0 <= i < |list| && list[i].state != DELAYED
      ensures ReadyEntry(list[i].message, first + i) in ready
    {
      if i > 0 {
        assert list[1..][i - 1] == list[i];
        assert ReadyEntry(list[1..][i - 1].message, first + 1 + (i - 1)) in ready;
      }
    }
  }

  lemma {:induction false} RestoreMessagesTurn(s: State, n: QName, list: seq<SavedMessage>, now: Time)
    requires n in s.queues
    ensures
      var s' := RestoreMessages(s, n, list, now);
      s'.lastOrd == s.lastOrd + |list| && Gains(s, s', n) && InTurn(s'.queues[n].ready, list, s.lastOrd + 1)
    decreases |list|
  {
    hide RestoreMessage, Gains, InTurn;
    if list == [] {
      NoTurns(s, n, list);
    } else {
      var s1 := RestoreMessage(s, n, list[0], now);
      var s' := RestoreMessages(s, n, list, now);
      RestoreMessageTurn(s, n, list[0], now);
      GainsNames(s, s1, n);
      RestoreMessagesTurn(s1, n, list[1..], now);
      GainsTrans(s, s1, s', n);
      GainsEntry(s1, s', n, ReadyEntry(list[0].message, s.lastOrd + 1));
      TurnNext(s'.queues[n].ready, list, s.lastOrd + 1);
    }
  }

  lemma NoTurns(s: State, n: QName, list: seq<SavedMessage>)
    requires n in s.queues && list == []
    ensures Gains(s, s, n) && InTurn(s.queues[n].ready, list, s.lastOrd + 1)
  {
  }

  lemma GainsNames(s: State, s': State, n: QName)
    requires Gains(s, s', n)
    ensures n in s.queues && n in s'.queues
  {
  }

  lemma GainsEntry(s: State, s': State, n: QName, e: Entry<Id>)
    requires Gains(s, s', n)
    ensures n in s.queues && n in s'.queues && (e in s.queues[n].ready ==> e in s'.queues[n].ready)
  {
  }

  ghost predicate SomeTurn(ready: seq<Entry<Id>>, list: seq<SavedMessage>, last: nat) {
    exists first: nat :: InTurn(ready, list, first) && first > last
  }

  lemma {:induction false} RestoreQueuesTurn(s: State, queues: seq<SavedQueue>, now: Time, last: nat)
    requires DistinctNames(queues) && s.lastOrd >= last
    ensures
      var s' := RestoreQueues(s, queues, now);
      && (forall x :: x in s.queues && !Named(queues, x) ==> x in s'.queues && s'.queues[x] == s.queues[x])
      && (forall sq :: sq in queues ==>
            sq.spec.name in s'.queues && SomeTurn(s'.queues[sq.spec.name].ready, sq.messages, last))
    decreases |queues|
  {
    hide RestoreMessages, InTurn, Named, DistinctNames;
    if queues == [] {
    } else {
      var sq := queues[0];
      var n := sq.spec.name;
      var q := NewQueue(sq.spec).(stats := sq.stats);
      var s1 := SetQueue(s, n, q);
      RestoreMessagesTurn(s1, n, sq.messages, now);
      TailNames(queues);
      var s2 := RestoreQueue(s, sq, now);
      assert SomeTurn(s2.queues[n].ready, sq.messages, last) by {
        assert InTurn(s2.queues[n].ready, sq.messages, s.lastOrd + 1);
      }
      RestoreQueuesTurn(s2, queues[1..], now, last);
      assert queues == [sq] + queues[1..];
    }
  }

  /** A restored queue delivers its messages in the order in which the snapshot lists them, unless a later one has a
      higher priority: of two messages that are not delayed the earlier one has the smaller number, and every number is
      larger than the last one before the snapshot. */
  lemma RestoredInTurn(s: State, saved: Saved, target: State, now: Time, sq: SavedQueue, i: nat, j: nat)
    requires Inv(s) && IsSnapshot(s, saved) && sq in saved.queues
    requires i < j < |sq.messages| && sq.messages[i].state != DELAYED && sq.messages[j].state != DELAYED
    requires sq.messages[i].message.priority >= sq.messages[j].message.priority
    ensures
      var r := Restore(target, saved, now);
      sq.spec.name in r.queues
      && exists e, e' :: e in r.queues[sq.spec.name].ready && e.item == sq.messages[i].message.id
                         && e' in r.queues[sq.spec.name].ready && e'.item == sq.messages[j].message.id
                         && Before(e, e') && saved.lastOrd < e.ord < e'.ord
  {
    hide RestoreQueues, Inv, Describes, Named, DistinctNames, InTurn;
    var s0 := target.(queues := map[], byId := map[], visibility := [], delayed := [], lastOrd := saved.lastOrd);
    RestoreQueuesTurn(s0, saved.queues, now, saved.lastOrd);
    var ready := Restore(target, saved, now).queues[sq.spec.name].ready;
    assert SomeTurn(ready, sq.messages, saved.lastOrd);
    var first: nat :| InTurn(ready, sq.messages, first) && first > saved.lastOrd;
    TurnAt(ready, sq.messages, first, i);
    TurnAt(ready, sq.messages, first, j);
  }

  lemma TurnAt(ready: seq<Entry<Id>>, list: seq<SavedMessage>, first: nat, i: nat)
    requires InTurn(ready, list, first) && i < |list| && list[i].state != DELAYED
    ensures Entry(-list[i].message.priority, first + i, list[i].message.id) in ready
  {
  }
}
