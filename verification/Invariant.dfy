/** What every operation of the engine keeps: no message is stranded or duplicated. The index agrees
    with the queues, every queue is partitioned, and the two global heaps, which may hold any number
    of outdated entries, never lack the entry of a delivery or of a delayed message. */
module Invariant {
  import opened Types
  import opened Heaps
  import opened Engine
  import opened Index
  import opened Partition

  ghost predicate HasEntry(h: seq<Entry<Addr>>, key: Time, a: Addr) {
    exists e :: e in h && e.key == key && e.item == a
  }

  ghost predicate Within(h: seq<Entry<Addr>>, h': seq<Entry<Addr>>) {
    forall e :: e in h ==> e in h'
  }

  /** Every delivery has an entry in the visibility heap at its current deadline. */
  ghost predicate VisibleOf(n: QName, inflight: map<Id, Delivery>, h: seq<Entry<Addr>>) {
    forall id :: id in inflight ==> HasEntry(h, inflight[id].deadline, Addr(n, id))
  }

  ghost predicate VisibleOk(queues: map<QName, Queue>, h: seq<Entry<Addr>>) {
    forall n :: n in queues ==> VisibleOf(n, queues[n].inflight, h)
  }

  /** Every delayed message has an entry in the delayed heap at its due time. */
  ghost predicate DelayedOf(n: QName, q: Queue, h: seq<Entry<Addr>>) {
    forall id :: id in q.delayedIds && id in q.messages && q.messages[id].availableAt.Some? ==>
      HasEntry(h, q.messages[id].availableAt.value, Addr(n, id))
  }

  ghost predicate DelayedOk(queues: map<QName, Queue>, h: seq<Entry<Addr>>) {
    forall n :: n in queues ==> DelayedOf(n, queues[n], h)
  }

  /** An entry of the delayed heap is about a message that is gone for good, or it gives the due time
      of a message that is delayed now. */
  ghost predicate EntryOk(queues: map<QName, Queue>, byId: map<Id, QName>, e: Entry<Addr>) {
    e.item.id in byId ==>
      && byId[e.item.id] == e.item.queue
      && e.item.queue in queues
      && e.item.id in queues[e.item.queue].delayedIds
      && e.item.id in queues[e.item.queue].messages
      && queues[e.item.queue].messages[e.item.id].availableAt == Some(e.key)
  }

  ghost predicate EntriesOk(queues: map<QName, Queue>, byId: map<Id, QName>, h: seq<Entry<Addr>>) {
    forall e :: e in h ==> EntryOk(queues, byId, e)
  }

  ghost predicate HeapsOk(s: State) {
    && IsHeap(s.visibility) && IsHeap(s.delayed)
    && VisibleOk(s.queues, s.visibility)
    && DelayedOk(s.queues, s.delayed)
    && EntriesOk(s.queues, s.byId, s.delayed)
  }

  ghost predicate PartsOk(queues: map<QName, Queue>) {
    forall n :: n in queues ==> QueueOk(n, queues[n])
  }

  ghost predicate PartsOkBut(queues: map<QName, Queue>, n: QName, id: Id) {
    && n in queues && QueueOkBut(n, queues[n], id)
    && forall n' :: n' in queues && n' != n ==> QueueOk(n', queues[n'])
  }

  ghost predicate Inv(s: State) {
    IndexOk(s) && PartsOk(s.queues) && HeapsOk(s)
  }

  /** The invariant while message id of queue n is in hand. */
  ghost predicate InvBut(s: State, n: QName, id: Id) {
    IndexOk(s) && PartsOkBut(s.queues, n, id) && HeapsOk(s)
  }

  // ----- how one queue's change carries over -----

  lemma SetParts(queues: map<QName, Queue>, n: QName, q: Queue)
    requires PartsOk(queues) && QueueOk(n, q)
    ensures PartsOk(queues[n := q])
  {
    hide QueueOk;
  }

  lemma HasPush(h: seq<Entry<Addr>>, e: Entry<Addr>)
    ensures Within(h, Push(h, e))
    ensures HasEntry(Push(h, e), e.key, e.item)
  {
    hide Push;
    assert e in Push(h, e);
  }

  lemma WithinItself(h: seq<Entry<Addr>>)
    ensures Within(h, h)
  {
  }

  lemma HasWithin(h: seq<Entry<Addr>>, h': seq<Entry<Addr>>, key: Time, a: Addr)
    requires Within(h, h') && HasEntry(h, key, a)
    ensures HasEntry(h', key, a)
  {
  }

  lemma SetVisible(queues: map<QName, Queue>, n: QName, q: Queue, h: seq<Entry<Addr>>, h': seq<Entry<Addr>>)
    requires VisibleOk(queues, h) && Within(h, h')
    requires forall id :: id in q.inflight ==>
      || HasEntry(h', q.inflight[id].deadline, Addr(n, id))
      || (n in queues && id in queues[n].inflight && queues[n].inflight[id] == q.inflight[id])
    ensures VisibleOk(queues[n := q], h')
  {
    hide HasEntry, Within;
    var queues' := queues[n := q];
    forall n', id | n' in queues' && id in queues'[n'].inflight
      ensures HasEntry(h', queues'[n'].inflight[id].deadline, Addr(n', id))
    {
      if n' in queues && id in queues[n'].inflight && queues[n'].inflight[id] == queues'[n'].inflight[id] {
        assert VisibleOf(n', queues[n'].inflight, h);
        HasWithin(h, h', queues[n'].inflight[id].deadline, Addr(n', id));
      }
    }
  }

  lemma SetDelayed(queues: map<QName, Queue>, n: QName, q: Queue, h: seq<Entry<Addr>>, h': seq<Entry<Addr>>)
    requires DelayedOk(queues, h) && Within(h, h')
    requires forall id :: id in q.delayedIds && id in q.messages && q.messages[id].availableAt.Some? ==>
      || HasEntry(h', q.messages[id].availableAt.value, Addr(n, id))
      || (n in queues && id in queues[n].delayedIds && id in queues[n].messages && queues[n].messages[id] == q.messages[id])
    ensures DelayedOk(queues[n := q], h')
  {
    hide HasEntry, Within;
    var queues' := queues[n := q];
    forall n', id | n' in queues' && id in queues'[n'].delayedIds && id in queues'[n'].messages &&
                    queues'[n'].messages[id].availableAt.Some?
      ensures HasEntry(h', queues'[n'].messages[id].availableAt.value, Addr(n', id))
    {
      if n' in queues && id in queues[n'].delayedIds && id in queues[n'].messages && queues[n'].messages[id] == queues'[n'].messages[id] {
        assert DelayedOf(n', queues[n'], h);
        HasWithin(h, h', queues[n'].messages[id].availableAt.value, Addr(n', id));
      }
    }
  }

  ghost predicate NoEntry(h: seq<Entry<Addr>>, id: Id) {
    forall e :: e in h ==> e.item.id != id
  }

  /** Only message id changed between two states of one queue. */
  ghost predicate SameBut(q: Queue, q': Queue, id: Id) {
    && q'.delayedIds - {id} == q.delayedIds - {id}
    && q'.messages - {id} == q.messages - {id}
  }

  lemma SetEntries(queues: map<QName, Queue>, n: QName, q: Queue, byId: map<Id, QName>, byId': map<Id, QName>,
                   h: seq<Entry<Addr>>, id: Id)
    requires EntriesOk(queues, byId, h) && NoEntry(h, id)
    requires n in queues && SameBut(queues[n], q, id) && byId' - {id} == byId - {id}
    ensures EntriesOk(queues[n := q], byId', h)
  {
    forall e | e in h
      ensures EntryOk(queues[n := q], byId', e)
    {
      assert EntryOk(queues, byId, e);
      var x := e.item.id;
      if x in byId' {
        assert x in byId - {id} && (byId - {id})[x] == byId[x] && (byId' - {id})[x] == byId'[x];
        if byId[x] == n {
          assert x in queues[n].delayedIds - {id};
          assert x in queues[n].messages - {id};
          assert (q.messages - {id})[x] == q.messages[x];
        }
      }
    }
  }

  /** A message that is not delayed has no entry in the delayed heap. */
  lemma NoEntryOf(s: State, n: QName, id: Id)
    requires EntriesOk(s.queues, s.byId, s.delayed) && id in s.byId && s.byId[id] == n
    requires n in s.queues && id !in s.queues[n].delayedIds
    ensures NoEntry(s.delayed, id)
  {
    forall e | e in s.delayed
      ensures e.item.id != id
    {
      assert EntryOk(s.queues, s.byId, e);
    }
  }
}
