/** One queue: every stored message is in exactly one of the ready heap, the deliveries and the
    delayed ids, and those three hold nothing else. */
module Partition {
  import opened Types
  import opened Heaps
  import opened Engine

  ghost predicate HeapOk(h: seq<Entry<Id>>) {
    IsHeap(h) && Distinct(h)
  }

  ghost predicate Split(ready: set<Id>, inflight: set<Id>, delayed: set<Id>, stored: set<Id>) {
    && ready !! inflight && ready !! delayed && inflight !! delayed
    && stored == ready + inflight + delayed
  }

  ghost predicate DeliveriesOk(n: QName, inflight: map<Id, Delivery>) {
    forall id :: id in inflight ==> inflight[id].id == id && inflight[id].queue == n
  }

  ghost predicate DueOk(m: Message) {
    m.availableAt.Some? && m.availableAt.value > 0
  }

  ghost predicate TimesOk(delayed: set<Id>, messages: map<Id, Message>) {
    forall id :: id in delayed && id in messages ==> DueOk(messages[id])
  }

  ghost predicate QueueOk(n: QName, q: Queue) {
    && HeapOk(q.ready)
    && Split(Items(q.ready), q.inflight.Keys, q.delayedIds, q.messages.Keys)
    && DeliveriesOk(n, q.inflight)
    && TimesOk(q.delayedIds, q.messages)
  }

  /** The same while message id is in hand: taken back from its consumer and not put anywhere yet. */
  ghost predicate QueueOkBut(n: QName, q: Queue, id: Id) {
    && HeapOk(q.ready)
    && id in q.messages
    && Split(Items(q.ready), q.inflight.Keys, q.delayedIds, q.messages.Keys - {id})
    && DeliveriesOk(n, q.inflight)
    && TimesOk(q.delayedIds, q.messages)
  }

  /** depth() counts three containers; it is the number of stored messages. */
  lemma DepthIsSize(n: QName, q: Queue)
    requires QueueOk(n, q)
    ensures Depth(q) == |q.messages|
  {
    var a, b, c := Items(q.ready), q.inflight.Keys, q.delayedIds;
    assert |a + b| == |a| + |b|;
    assert |a + b + c| == |a + b| + |c|;
    assert |q.messages| == |q.messages.Keys|;
  }

  lemma SplitArrive(ready: set<Id>, inflight: set<Id>, delayed: set<Id>, stored: set<Id>, id: Id)
    requires Split(ready, inflight, delayed, stored) && id !in stored
    ensures id !in ready && id !in delayed
    ensures Split(ready + {id}, inflight, delayed, stored + {id})
    ensures Split(ready, inflight, delayed + {id}, stored + {id})
  {
  }

  lemma SplitMove(ready: set<Id>, inflight: set<Id>, delayed: set<Id>, stored: set<Id>, id: Id)
    requires Split(ready, inflight, delayed, stored)
    ensures id in delayed ==> id !in ready && id !in inflight && id in stored
    ensures id in delayed ==> Split(ready + {id}, inflight, delayed - {id}, stored)
    ensures id in ready ==> id !in delayed && id !in inflight && id in stored
    ensures id in ready ==> Split(ready - {id}, inflight + {id}, delayed, stored)
  {
  }

  /** A message that is not stored yet becomes ready: on publishing, on dying, on going back. */
  lemma ArriveOk(n: QName, q: Queue, q': Queue, m: Message, ord: nat)
    requires QueueOk(n, q) && m.id !in q.messages
    requires q'.messages == q.messages[m.id := m] && q'.ready == Push(q.ready, ReadyEntry(m, ord))
    requires q'.inflight == q.inflight && q'.delayedIds == q.delayedIds
    ensures QueueOk(n, q')
  {
    hide Push, Items, HeapOk, Split, TimesOk, DeliveriesOk;
    SplitArrive(Items(q.ready), q.inflight.Keys, q.delayedIds, q.messages.Keys, m.id);
    assert q'.messages.Keys == q.messages.Keys + {m.id};
    PushHeapOk(q.ready, ReadyEntry(m, ord));
    TimesArrive(q.delayedIds, q.messages, m);
  }

  lemma PushHeapOk(h: seq<Entry<Id>>, e: Entry<Id>)
    requires HeapOk(h) && e.item !in Items(h)
    ensures HeapOk(Push(h, e))
  {
    hide Push, Items, IsHeap, Distinct;
    PushDistinct(h, e);
  }

  lemma TimesArrive(delayed: set<Id>, messages: map<Id, Message>, m: Message)
    requires TimesOk(delayed, messages) && m.id !in delayed
    ensures TimesOk(delayed, messages[m.id := m])
  {
    hide DueOk;
  }

  /** A message that is not stored yet becomes delayed. */
  lemma ArriveLaterOk(n: QName, q: Queue, q': Queue, m: Message)
    requires QueueOk(n, q) && m.id !in q.messages && DueOk(m)
    requires q'.messages == q.messages[m.id := m] && q'.delayedIds == q.delayedIds + {m.id}
    requires q'.inflight == q.inflight && q'.ready == q.ready
    ensures QueueOk(n, q')
  {
    hide Items, HeapOk, Split, DueOk;
    SplitArrive(Items(q.ready), q.inflight.Keys, q.delayedIds, q.messages.Keys, m.id);
    assert q'.messages.Keys == q.messages.Keys + {m.id};
  }

  lemma DeliverOk(n: QName, q: Queue, d: Delivery)
    requires QueueOk(n, q) && q.ready != [] && d.id == q.ready[0].item && d.queue == n
    ensures !Stale(PopReady(q), d.id)
    ensures QueueOk(n, Deliver(PopReady(q), d))
  {
    hide Items, IsHeap, Split, Distinct, DueOk;
    Pop(q.ready);
    HeadIsItem(q.ready);
    SplitMove(Items(q.ready), q.inflight.Keys, q.delayedIds, q.messages.Keys, d.id);
    assert q.inflight[d.id := d].Keys == q.inflight.Keys + {d.id};
  }

  lemma HeadIsItem(h: seq<Entry<Id>>)
    requires h != []
    ensures h[0].item in Items(h)
  {
  }

  lemma DischargeOk(n: QName, q: Queue, id: Id)
    requires QueueOk(n, q) && id in q.inflight
    ensures QueueOk(n, Discharge(q, id))
  {
    hide HeapOk, Items;
  }

  lemma TakeBackOk(n: QName, q: Queue, id: Id)
    requires QueueOk(n, q) && id in q.inflight
    ensures QueueOkBut(n, TakeBack(q, id), id)
  {
    hide HeapOk, Items, DueOk;
  }

  lemma CountNackOk(n: QName, q: Queue, id: Id)
    requires QueueOkBut(n, q, id)
    ensures QueueOkBut(n, CountNack(q), id)
  {
    hide HeapOk, Items, DueOk, Split;
  }

  lemma BuryOk(n: QName, q: Queue, id: Id)
    requires QueueOkBut(n, q, id)
    ensures QueueOk(n, Bury(q, id))
  {
    hide HeapOk, Items, DueOk, Split;
  }

  lemma PostponeOk(n: QName, q: Queue, m: Message)
    requires QueueOkBut(n, q, m.id) && DueOk(m)
    ensures QueueOk(n, Postpone(q, m))
  {
    hide HeapOk, Items, DueOk, Split;
    SplitArrive(Items(q.ready), q.inflight.Keys, q.delayedIds, q.messages.Keys - {m.id}, m.id);
    assert q.messages[m.id := m].Keys == q.messages.Keys - {m.id} + {m.id};
  }

  lemma ReleaseOk(n: QName, q: Queue, m: Message, ord: nat)
    requires QueueOk(n, q) && m.id in q.delayedIds
    ensures m.id in q.messages && m.id !in q.inflight
    ensures QueueOk(n, Mature(Undelay(q, m.id), m, ord))
  {
    hide Push, Items, IsHeap, Split, Distinct, DueOk;
    SplitMove(Items(q.ready), q.inflight.Keys, q.delayedIds, q.messages.Keys, m.id);
    assert q.messages[m.id := m].Keys == q.messages.Keys;
    PushDistinct(q.ready, ReadyEntry(m, ord));
  }

  lemma WithdrawOk(n: QName, d: Queue, id: Id)
    requires QueueOk(n, d) && id in Items(d.ready)
    ensures QueueOk(n, Withdraw(d, id))
  {
    hide Drop, Items, HeapOk, TimesOk, DeliveriesOk, Without;
    DropHeapOk(d.ready, id);
    TimesShrink(d.delayedIds, d.messages, id);
  }

  lemma DropHeapOk(h: seq<Entry<Id>>, id: Id)
    requires HeapOk(h)
    ensures HeapOk(Drop(h, id))
  {
    hide Drop, Items, IsHeap, Distinct;
    DropDistinct(h, id);
  }

  lemma TimesShrink(delayed: set<Id>, messages: map<Id, Message>, id: Id)
    requires TimesOk(delayed, messages)
    ensures TimesOk(delayed, messages - {id})
  {
    hide DueOk;
  }
}
