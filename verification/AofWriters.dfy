/** The append-only file's writer as the object it is; every method is one atomic step of module Aof. */
module AofWriters {
  import opened Types
  import opened Records
  import TornLog
  import Aof

  class AofWriter<M(!new)> {
    const c: Codec<M>
    const policy: Aof.Policy
    var seqNo: nat
    var queue: seq<Aof.Item<M>>
    var waiters: map<nat, bool>
    var durableSeq: nat
    var batch: seq<Record<M>>
    var written: bool
    var disk: Bytes
    var synced: nat
    var closed: bool
    var running: bool

    function State(): Aof.Writer<M>
      reads this
    {
      Aof.Writer(c, policy, seqNo, queue, waiters, durableSeq, batch, written, disk, synced, closed, running)
    }

    /** open, attach_existing_seq and start, on the file that recovery left. */
    constructor (c: Codec<M>, policy: Aof.Policy, file: Bytes, seqNo: nat, ghost recs: seq<Record<M>>)
      requires TornLog.AllEncodable(c, recs) && file == TornLog.EncodeAll(c, recs)
      ensures State() == Aof.Opened(c, policy, recs, seqNo)
    {
      this.c, this.policy, this.seqNo, this.durableSeq := c, policy, seqNo, seqNo;
      queue, waiters, batch, written := [], map[], [], false;
      disk, synced, closed, running := file, |file|, false, true;
    }

    method Append(d: TornLog.Draft<M>) returns (s: Option<nat>)
      modifies this
      ensures State() == Aof.Append(old(State()), d).0 && s == Aof.Append(old(State()), d).1
    {
      if closed {
        return Some(seqNo);
      }
      seqNo := seqNo + 1;
      var r := Record(seqNo, d.op, d.meta, d.payload, d.time);
      if !Encodable(c, r) {
        return None;
      }
      if policy == Aof.Always {
        waiters := waiters[seqNo := false];
      }
      queue := queue + [Aof.Data(r)];
      return Some(seqNo);
    }

    /** The part of _run that takes everything queued up to the entry that ends the loop. */
    method TakeBatch()
      requires running && batch == [] && queue != []
      modifies this
      ensures State() == Aof.Take(old(State()))
    {
      hide Aof.Leading, Aof.Left;
      if queue[0].Stop? {
        queue, running := queue[1..], false;
      } else {
        batch := DrainQueue();
        written := false;
      }
    }

    method DrainQueue() returns (taken: seq<Record<M>>)
      modifies `queue
      ensures taken == Aof.Leading(old(queue)) && queue == Aof.Left(old(queue))
    {
      hide Aof.Leading;
      taken := [];
      while queue != [] && queue[0].Data?
        invariant |taken| <= |old(queue)| && queue == old(queue)[|taken|..]
        invariant Aof.Leading(old(queue)) == taken + Aof.Leading(queue)
        decreases |queue|
      {
        Aof.LeadingHead(queue);
        taken := taken + [queue[0].record];
        queue := queue[1..];
      }
      Aof.LeadingHead(queue);
      if queue != [] {
        queue := queue[1..] + [queue[0]];
      }
    }

    method WriteBytes(due: bool)
      requires TornLog.AllEncodable(c, batch)
      modifies this
      ensures State() == Aof.Write(old(State()), due)
    {
      var blob: Bytes := [];
      var i := 0;
      while i < |batch|
        invariant 0 <= i <= |batch|
        invariant TornLog.AllEncodable(c, batch[..i]) && blob == TornLog.EncodeAll(c, batch[..i])
        invariant State() == old(State())
      {
        BlobGrows(c, batch, i);
        blob := blob + Whole(c, batch[i]);
        i := i + 1;
      }
      assert batch[..i] == batch;
      disk := disk + blob;
      written := true;
      if policy == Aof.Always || (policy == Aof.EverySecond && due) {
        synced := |disk|;
      }
    }

    static lemma BlobGrows(c: Codec<M>, batch: seq<Record<M>>, i: nat)
      requires TornLog.AllEncodable(c, batch) && i < |batch|
      ensures TornLog.AllEncodable(c, batch[..i]) && TornLog.AllEncodable(c, batch[..i + 1])
      ensures TornLog.EncodeAll(c, batch[..i + 1]) == TornLog.EncodeAll(c, batch[..i]) + Whole(c, batch[i])
    {
      hide Encodable, Whole;
      TornLog.PrefixEncodable(c, batch, i);
      TornLog.PrefixEncodable(c, batch, i + 1);
      assert batch[..i + 1] == batch[..i] + [batch[i]];
      TornLog.EncodeConcat(c, batch[..i], [batch[i]]);
      assert TornLog.EncodeAll(c, [batch[i]]) == Whole(c, batch[i]);
    }

    /** The part of _run after the batch is written: everyone who waits for one of its records is told. */
    method CompleteBatch()
      requires batch != [] && written
      modifies this
      ensures State() == Aof.Complete(old(State()))
    {
      hide Aof.Told, Aof.Numbers;
      durableSeq := batch[|batch| - 1].seqNo;
      if policy == Aof.Always {
        TellWaiters();
      }
      batch, written := [], false;
    }

    method TellWaiters()
      modifies `waiters
      ensures waiters == Aof.Told(old(waiters), Aof.Numbers(batch))
    {
      ghost var numbers := Aof.Numbers(batch);
      var i := 0;
      while i < |batch|
        invariant 0 <= i <= |batch|
        invariant waiters == Aof.Told(old(waiters), numbers[..i])
      {
        assert numbers[..i + 1] == numbers[..i] + [batch[i].seqNo];
        if batch[i].seqNo in waiters {
          waiters := waiters[batch[i].seqNo := true];
        }
        i := i + 1;
      }
      assert numbers[..i] == numbers;
    }

    /** wait_durable, when it is scheduled; false if it goes on waiting. */
    method WaitDurable(s: nat) returns (returned: bool)
      modifies this
      ensures State() == Aof.Wait(old(State()), s).0 && returned == Aof.Wait(old(State()), s).1
    {
      if policy != Aof.Always || s !in waiters {
        return true;
      }
      if waiters[s] {
        waiters := waiters - {s};
        return true;
      }
      return false;
    }

    /** The first half of flush_and_stop. */
    method Close()
      modifies this
      ensures State() == Aof.StopLoop(old(State()))
    {
      closed := true;
      queue := queue + [Aof.Stop];
    }

    /** The second half, after the loop has ended. */
    method FlushAndClose()
      requires closed && !running
      modifies this
      ensures State() == Aof.Finish(old(State()))
    {
      synced := |disk|;
    }
  }
}
