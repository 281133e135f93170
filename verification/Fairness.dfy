/** Draining a queue among consumers without a limit serves them in turn. */
module Fairness {
  import opened Types
  import opened Heaps
  import opened Engine
  import opened Invariant
  import opened InvariantOps
  import opened Consumers
  import opened Deliveries

  /** Every listed consumer is registered and has no limit. */
  ghost predicate AllUnlimited(b: Broker, n: QName) {
    && n in b.engine.queues && b.engine.queues[n].consumerIds != []
    && forall id :: id in b.engine.queues[n].consumerIds ==> id in b.consumers && b.consumers[id].prefetch <= 0
  }

  lemma AskedUnlimited(b: Broker, n: QName)
    requires AllUnlimited(b, n)
    ensures Eligible(b, Asked(b, n, 0)) && Skips(b, n, 0, |b.engine.queues[n].consumerIds|) == 0
  {
    assert Asked(b, n, 0) in b.engine.queues[n].consumerIds;
  }

  /** One delivery: the next consumer in turn gets the first ready message. */
  lemma TurnTaken(b: Broker, n: QName, now: Time)
    requires AllUnlimited(b, n) && Inv(b.engine) && b.engine.queues[n].ready != []
    ensures
      var (b1, r) := TryReserve(b, n, now);
      && r.Some? && r.value.consumer == Asked(b, n, 0) && r.value.message.id == b.engine.queues[n].ready[0].item
      && AllUnlimited(b1, n) && Inv(b1.engine)
      && b1.engine.queues[n].consumerIds == b.engine.queues[n].consumerIds
      && b1.engine.queues[n].rrIndex == b.engine.queues[n].rrIndex + 1
      && b1.engine.queues[n].ready == b.engine.queues[n].ready[1..]
  {
    hide Inv, Eligible, Skips, TryRounds, AllUnlimited, SameCore, Reserve;
    UnlimitedListed(b, n);
    var len := |b.engine.queues[n].consumerIds|;
    AskedUnlimited(b, n);
    RoundsServe(b, n, now, 0, len);
    RotatedNext(b, n, 0);
    RotatedCore(b, n, 1);
    CoreInv(b.engine, Rotated(b, n, 1).engine);
    EligibleKnown(b, Asked(b, n, 0));
    ServedNext(Rotated(b, n, 1), n, Asked(b, n, 0), now);
    RotatedUnlimited(b, n);
    ServeUnlimited(Rotated(b, n, 1), n, Asked(b, n, 0), now);
  }

  lemma UnlimitedListed(b: Broker, n: QName)
    requires AllUnlimited(b, n)
    ensures n in b.engine.queues && b.engine.queues[n].consumerIds != []
  {
  }

  lemma RotatedUnlimited(b: Broker, n: QName)
    requires AllUnlimited(b, n)
    ensures AllUnlimited(Rotated(b, n, 1), n)
  {
  }

  lemma ServedNext(b: Broker, n: QName, id: ConsumerId, now: Time)
    requires Inv(b.engine) && n in b.engine.queues && id in b.consumers && b.engine.queues[n].ready != []
    ensures
      var (b1, r) := Serve(b, n, id, now);
      && r.Some? && r.value.consumer == id && r.value.message.id == b.engine.queues[n].ready[0].item
      && Inv(b1.engine) && n in b1.engine.queues
      && b1.engine.queues[n].ready == b.engine.queues[n].ready[1..]
      && b1.engine.queues[n].consumerIds == b.engine.queues[n].consumerIds
      && b1.engine.queues[n].rrIndex == b.engine.queues[n].rrIndex
  {
    hide Index.TablesAgree, PartsOk, HeapsOk, Reserve, Partition.QueueOk, Push;
    ReserveHead(b.engine, n, id, now);
    ReserveInv(b.engine, n, id, now);
    HeadId(b.engine, n);
  }

  lemma ServeUnlimited(b: Broker, n: QName, id: ConsumerId, now: Time)
    requires AllUnlimited(b, n) && id in b.consumers && Serve(b, n, id, now).1.Some?
    ensures n in Serve(b, n, id, now).0.engine.queues ==> AllUnlimited(Serve(b, n, id, now).0, n)
  {
    hide Reserve;
    ReserveShortens(b.engine, n, id, now);
  }

  /** A drain hands out all ready messages, in their order, to the listed consumers in turn. */
  lemma {:induction false} DrainInTurn(b: Broker, n: QName, now: Time)
    requires AllUnlimited(b, n) && Inv(b.engine)
    ensures
      var items := Drain(b, n, now).1;
      && |items| == |b.engine.queues[n].ready|
      && (forall i :: 0 <= i < |items| ==> items[i].message.id == b.engine.queues[n].ready[i].item)
      && (forall i :: 0 <= i < |items| ==> items[i].consumer == Asked(b, n, i))
    decreases ReadyCount(b, n)
  {
    hide Inv, Eligible, TryReserve, AllUnlimited;
    UnlimitedListed(b, n);
    if b.engine.queues[n].ready == [] {
      hide Drain;
      DrainNothing(b, n, now);
    } else {
      TurnTaken(b, n, now);
      var (b1, r) := TryReserve(b, n, now);
      UnlimitedListed(b1, n);
      DrainInTurn(b1, n, now);
      var rest := Drain(b1, n, now).1;
      var items := Drain(b, n, now).1;
      assert items == [r.value] + rest;
      forall i | 0 <= i < |items|
        ensures items[i].message.id == b.engine.queues[n].ready[i].item && items[i].consumer == Asked(b, n, i)
      {
        if i > 0 {
          assert items[i] == rest[i - 1];
          assert Asked(b1, n, i - 1) == Asked(b, n, i);
        }
      }
    }
  }

  lemma DrainNothing(b: Broker, n: QName, now: Time)
    requires Inv(b.engine) && n in b.engine.queues && b.engine.queues[n].ready == []
    ensures Drain(b, n, now).1 == []
  {
    hide Inv, TryReserve;
    TryReserveComplete(b, n, now);
  }

  // ----- counting turns -----

  function Count(items: seq<Item>, c: ConsumerId): nat {
    if items == [] then 0
    else Count(items[..|items| - 1], c) + if items[|items| - 1].consumer == c then 1 else 0
  }

  lemma DivNext(x: nat, len: nat)
    requires len > 0
    ensures (x + 1) / len == x / len + if (x + 1) % len == 0 then 1 else 0
  {
    var q, r := x / len, x % len;
    assert x == len * q + r;
    if r + 1 < len {
      ModUnique(x + 1, len, q, r + 1);
    } else {
      assert x + 1 == len * (q + 1) + 0;
      ModUnique(x + 1, len, q + 1, 0);
    }
  }

  /** The distance, going round, from the index to a position. */
  function Offset(index: nat, len: nat, p: nat): (d: nat)
    requires p < len
    ensures d < len && (index + d) % len == p
  {
    var r := index % len;
    var d := if p >= r then p - r else p - r + len;
    ModShift(index, d, len, p);
    d
  }

  lemma Distribute(len: nat, r: nat, q: nat)
    ensures len * (r + q) == len * r + len * q && len * (r + q + 1) == len * r + len * q + len
  {
  }

  lemma SumMod(len: nat, r: nat, p: nat, q: nat, m: nat)
    requires p < len && m < len
    ensures (len * r + p + (len * q + m)) % len == if p + m < len then p + m else p + m - len
  {
    Distribute(len, r, q);
    if p + m < len {
      ModUnique(len * r + p + (len * q + m), len, r + q, p + m);
    } else {
      ModUnique(len * r + p + (len * q + m), len, r + q + 1, p + m - len);
    }
  }

  lemma Division(x: nat, len: nat)
    requires len > 0
    ensures x == len * (x / len) + x % len && x % len < len
  {
  }

  /** A position is asked in the rounds that differ from its distance by whole turns. */
  lemma AskedWhen(index: nat, len: nat, p: nat, i: nat)
    requires p < len
    ensures (index + i) % len == p <==> (i + len - Offset(index, len, p)) % len == 0
  {
    hide Offset;
    var y, x := index + Offset(index, len, p), i + len - Offset(index, len, p);
    Division(y, len);
    Division(x, len);
    SumMod(len, y / len, p, x / len, x % len);
    ModTurn(index + i, len);
    assert y + x == index + i + len;
  }

  lemma ModTurn(x: nat, len: nat)
    requires len > 0
    ensures (x + len) % len == x % len
  {
    Distribute(len, x / len, 0);
    ModUnique(x + len, len, x / len + 1, x % len);
  }

  /** How often a position has been asked after some rounds. */
  lemma {:induction false} TurnsCounted(ids: seq<ConsumerId>, index: nat, items: seq<Item>, p: nat)
    requires p < |ids| && forall i, j :: 0 <= i < j < |ids| ==> ids[i] != ids[j]
    requires forall i :: 0 <= i < |items| ==> items[i].consumer == ids[(index + i) % |ids|]
    ensures Count(items, ids[p]) == (|items| + |ids| - 1 - Offset(index, |ids|, p)) / |ids|
    decreases |items|
  {
    hide Offset;
    var len := |ids|;
    var d := Offset(index, len, p);
    if items == [] {
      ModUnique(len - 1 - d, len, 0, len - 1 - d);
    } else {
      var i := |items| - 1;
      TurnsCounted(ids, index, items[..i], p);
      AskedWhen(index, len, p, i);
      DivNext(i + len - 1 - d, len);
      assert items[i].consumer == ids[p] <==> (index + i) % len == p;
    }
  }

  lemma CountBounds(n: nat, len: nat, d: nat)
    requires d < len
    ensures n / len <= (n + len - 1 - d) / len <= n / len + 1
  {
    var q, r := n / len, n % len;
    assert n == len * q + r;
    if r + (len - 1 - d) < len {
      ModUnique(n + len - 1 - d, len, q, r + len - 1 - d);
    } else {
      assert n + len - 1 - d == len * (q + 1) + (r - 1 - d);
      ModUnique(n + len - 1 - d, len, q + 1, r - 1 - d);
    }
  }

  /** Fairness: one drain among consumers without a limit gives any two of them numbers of messages that
      differ by at most one, and leaves no message ready. */
  lemma DrainIsFair(b: Broker, n: QName, now: Time, c: ConsumerId, c': ConsumerId)
    requires AllUnlimited(b, n) && Inv(b.engine)
    requires
      var ids := b.engine.queues[n].consumerIds;
      c in ids && c' in ids && forall i, j :: 0 <= i < j < |ids| ==> ids[i] != ids[j]
    ensures
      var items := Drain(b, n, now).1;
      && |items| == |b.engine.queues[n].ready|
      && Count(items, c) <= Count(items, c') + 1
  {
    hide Inv, Drain, Count;
    var q := b.engine.queues[n];
    var items := Drain(b, n, now).1;
    DrainInTurn(b, n, now);
    var p :| 0 <= p < |q.consumerIds| && q.consumerIds[p] == c;
    var p' :| 0 <= p' < |q.consumerIds| && q.consumerIds[p'] == c';
    forall i | 0 <= i < |items|
      ensures items[i].consumer == q.consumerIds[(q.rrIndex + i) % |q.consumerIds|]
    {
      assert items[i].consumer == Asked(b, n, i);
    }
    TurnsCounted(q.consumerIds, q.rrIndex, items, p);
    TurnsCounted(q.consumerIds, q.rrIndex, items, p');
    CountBounds(|items|, |q.consumerIds|, Offset(q.rrIndex, |q.consumerIds|, p));
    CountBounds(|items|, |q.consumerIds|, Offset(q.rrIndex, |q.consumerIds|, p'));
  }
}
