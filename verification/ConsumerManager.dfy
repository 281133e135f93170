/** The consumer registry and the handler's delivery paths as the objects they are; every method is proved to
    do what the function of the same name in modules Consumers, Deliveries and Disconnects says. */
module ConsumerManagers {
  import opened Types
  import E = Engine
  import I = Index
  import R = Runs
  import C = Consumers
  import D = Deliveries
  import X = Disconnects
  import Places
  import DlqNames
  import Replay
  import BrokerRuns
  import opened QueueEngines

  class ConsumerManager {
    const engine: QueueEngine
    var consumers: map<ConsumerId, C.Consumer>
    var byConnection: map<C.ConnId, set<ConsumerId>>

    function State(): C.Broker
      reads this, engine, engine.delayed
    {
      C.Broker(engine.State(), consumers, byConnection)
    }

    constructor (engine: QueueEngine)
      ensures this.engine == engine && State() == C.Broker(engine.State(), map[], map[])
    {
      this.engine := engine;
      consumers, byConnection := map[], map[];
    }

    method Register(id: ConsumerId, conn: C.ConnId, names: seq<QName>, prefetch: int)
      modifies this, engine`queues, engine`journal
      ensures State() == C.Register(old(State()), id, conn, names, prefetch)
    {
      hide C.JoinAll;
      consumers := consumers[id := C.Consumer(id, conn, names, prefetch, 0)];
      byConnection := byConnection[conn := (if conn in byConnection then byConnection[conn] else {}) + {id}];
      ghost var s := engine.State();
      var i := 0;
      assert names[i..] == names;
      while i < |names|
        invariant 0 <= i <= |names|
        invariant C.JoinAll(engine.State(), names[i..], id) == C.JoinAll(s, names, id)
        modifies engine`queues, engine`journal
      {
        JoinNext(engine.State(), names[i..], id);
        assert names[i..][1..] == names[i + 1..];
        Join(names[i], id);
        i := i + 1;
      }
      JoinNext(engine.State(), names[i..], id);
    }

    static lemma JoinNext(s: E.State, names: seq<QName>, id: ConsumerId)
      ensures C.JoinAll(s, names, id) == if names == [] then s else C.JoinAll(C.Join(s, names[0], id), names[1..], id)
    {
      hide C.Join;
    }

    method Join(n: QName, id: ConsumerId)
      modifies engine`queues, engine`journal
      ensures engine.State() == C.Join(old(engine.State()), n, id)
    {
      hide E.Declare;
      C.DeclaredNow(engine.State(), n, E.DEFAULT_ARGS);
      engine.DeclareQueue(n, E.DEFAULT_ARGS, true);
      var q := engine.queues[n];
      if id !in q.consumerIds {
        engine.queues := engine.queues[n := q.(consumerIds := q.consumerIds + [id])];
      }
    }

    method Qos(id: ConsumerId, prefetch: int) returns (found: bool)
      modifies `consumers
      ensures State() == C.Qos(old(State()), id, prefetch).0 && found == C.Qos(old(State()), id, prefetch).1
    {
      if id !in consumers {
        return false;
      }
      consumers := consumers[id := C.SetPrefetch(consumers[id], prefetch)];
      return true;
    }

    method OnAck(id: ConsumerId)
      modifies `consumers
      ensures State() == C.OnAck(old(State()), id)
    {
      if id in consumers {
        consumers := consumers[id := C.OnAckOf(consumers[id])];
      }
    }

    // ----- cancelling -----

    method Dismiss(id: ConsumerId)
      requires id in consumers
      modifies this, engine`queues
      ensures State() == C.Dismiss(old(State()), id)
    {
      hide C.LeaveAll, C.Unlink;
      var c := consumers[id];
      consumers := consumers - {id};
      Unlink(c.connection, id);
      ghost var s := engine.State();
      var i := 0;
      assert c.queues[i..] == c.queues;
      while i < |c.queues|
        invariant 0 <= i <= |c.queues|
        invariant C.LeaveAll(engine.State(), c.queues[i..], id) == C.LeaveAll(s, c.queues, id)
        modifies engine`queues
      {
        LeaveNext(engine.State(), c.queues[i..], id);
        assert c.queues[i..][1..] == c.queues[i + 1..];
        Leave(c.queues[i], id);
        i := i + 1;
      }
      LeaveNext(engine.State(), c.queues[i..], id);
    }

    method Unlink(conn: C.ConnId, id: ConsumerId)
      modifies `byConnection
      ensures byConnection == C.Unlink(old(byConnection), conn, id)
    {
      if conn in byConnection {
        var ids := byConnection[conn] - {id};
        byConnection := byConnection[conn := ids];
        if ids == {} {
          byConnection := byConnection - {conn};
          assert byConnection == old(byConnection) - {conn};
        }
      }
    }

    static lemma LeaveNext(s: E.State, names: seq<QName>, id: ConsumerId)
      ensures C.LeaveAll(s, names, id) == if names == [] then s else C.LeaveAll(C.Leave(s, names[0], id), names[1..], id)
    {
      hide C.Leave;
    }

    static lemma RemoveAbsent(ids: seq<ConsumerId>, id: ConsumerId)
      requires id !in ids
      ensures C.RemoveFirst(ids, id) == ids
    {
    }

    method Leave(n: QName, id: ConsumerId)
      modifies engine`queues
      ensures engine.State() == C.Leave(old(engine.State()), n, id)
    {
      if n in engine.queues {
        var q := engine.queues[n];
        if id in q.consumerIds {
          engine.queues := engine.queues[n := q.(consumerIds := C.RemoveFirst(q.consumerIds, id))];
        } else {
          RemoveAbsent(q.consumerIds, id);
          assert engine.queues == engine.queues[n := q];
        }
      }
    }

    /** cancel. The order in which the consumer's deliveries are visited is returned for the specification; an
        error raised while they are taken back is raised here too, and leaves the queues in "left" out. */
    method Cancel(id: ConsumerId, now: Time)
      returns (found: bool, raised: bool, ghost todo: seq<Addr>, ghost left: set<QName>)
      modifies this, engine, engine.delayed
      ensures engine.delayed == old(engine.delayed)
      ensures id in old(consumers) ==> R.TakenBack(C.Dismiss(old(State()), id).engine, id, todo, left, now, true)
      ensures id in old(consumers) ==> forall a :: a in todo ==> a.queue in C.Dismiss(old(State()), id).engine.queues
      ensures State() == C.Cancel(old(State()), id, todo, now).0 && found == C.Cancel(old(State()), id, todo, now).1
      ensures raised <==> id in old(consumers) && R.Grows(C.Dismiss(old(State()), id).engine, todo, now, true)
      ensures R.DlqsPresent(old(engine.State())) ==> !raised
    {
      hide C.Dismiss, E.Recover, R.TakenBack, R.Grows, R.DeliveriesBut, R.DlqsPresent;
      todo, left := [], {};
      if id !in consumers {
        return false, false, [], {};
      }
      DismissDlqs(State(), id);
      ghost var dismissed := C.Dismiss(State(), id);
      Dismiss(id);
      var recovered;
      recovered, raised, todo, left := engine.RecoverConsumer(id, now, true);
      R.TakenFacts(dismissed.engine, id, todo, left, now, true);
      return true, raised, todo, left;
    }

    static lemma DismissDlqs(b: C.Broker, id: ConsumerId)
      requires id in b.consumers
      ensures R.DlqsPresent(b.engine) ==> R.DlqsPresent(C.Dismiss(b, id).engine)
      ensures C.Dismiss(b, id).engine.queues.Keys == b.engine.queues.Keys
    {
      hide C.LeaveAll, DlqNames.DlqName;
      LeaveAllSpecs(b.engine, b.consumers[id].queues, id);
    }

    static lemma LeaveAllSpecs(s: E.State, names: seq<QName>, id: ConsumerId)
      ensures
        var s' := C.LeaveAll(s, names, id);
        s'.queues.Keys == s.queues.Keys && forall n :: n in s.queues ==> s'.queues[n].spec == s.queues[n].spec
      decreases |names|
    {
      if names != [] {
        assert C.Leave(s, names[0], id).queues.Keys == s.queues.Keys;
        LeaveAllSpecs(C.Leave(s, names[0], id), names[1..], id);
      }
    }

    /** disconnect_connection. If cancelling a consumer raises an error, that consumer is the last one. */
    method DisconnectConnection(conn: C.ConnId, now: Time)
      returns (cancelled: nat, raised: bool, ghost ids: seq<ConsumerId>, ghost todos: seq<seq<Addr>>, ghost lefts: seq<set<QName>>)
      requires X.Linked(State()) && I.IndexOk(engine.State())
      modifies this, engine, engine.delayed
      ensures engine.delayed == old(engine.delayed)
      ensures |lefts| == |todos| == |ids| && X.Disconnectable(old(State()), ids, todos, lefts, now)
      ensures State() == X.Disconnect(old(State()), ids, todos, lefts, now)
      ensures raised <==> X.Interrupted(old(State()), ids, todos, lefts, now)
      ensures forall id :: id in ids ==> id in C.Members(old(State()), conn)
      ensures !raised ==> (forall id :: id in C.Members(old(State()), conn) ==> id in ids)
                          && cancelled == |C.Members(old(State()), conn)|
      ensures R.DlqsPresent(old(engine.State())) ==> !raised
    {
      hide X.Linked, I.TablesAgree, R.DlqsPresent, C.Cancel, X.Disconnectable, X.Disconnect, X.Interrupted, C.Members, C.Dismiss,
        R.TakenBack, R.Grows;
      var members := C.Members(State(), conn);
      ghost var b := State();
      ids, todos, lefts, cancelled, raised := [], [], [], 0, false;
      X.NothingLeft(b, todos, lefts, now, Places.Gone);
      while members != {}
        invariant engine.delayed == old(engine.delayed) && !raised
        invariant X.Linked(State()) && I.IndexOk(engine.State())
        invariant R.DlqsPresent(b.engine) ==> R.DlqsPresent(engine.State())
        invariant |lefts| == |todos| == |ids| && X.Disconnectable(b, ids, todos, lefts, now)
        invariant State() == X.Disconnect(b, ids, todos, lefts, now) && !X.Interrupted(b, ids, todos, lefts, now)
        invariant C.Members(State(), conn) == members <= C.Members(b, conn)
        invariant forall id :: id in ids <==> id in C.Members(b, conn) - members
        invariant cancelled == |C.Members(b, conn)| - |members|
        decreases |members|
      {
        var id :| id in members;
        MemberKnown(State(), conn, id);
        ghost var before := State();
        var found, failed;
        ghost var todo, left;
        found, failed, todo, left := Cancel(id, now);
        CancelKeeps(before, id, todo, now);
        DisconnectMore(b, ids, todos, lefts, id, todo, left, now);
        ids, todos, lefts := ids + [id], todos + [todo], lefts + [left];
        if failed {
          return cancelled, true, ids, todos, lefts;
        }
        members := members - {id};
        if found {
          cancelled := cancelled + 1;
        }
      }
    }

    static lemma MemberKnown(b: C.Broker, conn: C.ConnId, id: ConsumerId)
      requires X.Linked(b) && id in C.Members(b, conn)
      ensures id in b.consumers
    {
      hide X.ListsOk;
    }

    static lemma CancelKeeps(b: C.Broker, id: ConsumerId, todo: seq<Addr>, now: Time)
      requires X.Linked(b) && I.IndexOk(b.engine) && id in b.consumers
      requires forall a :: a in todo ==> a.queue in C.Dismiss(b, id).engine.queues
      ensures
        var b' := C.Cancel(b, id, todo, now).0;
        && X.Linked(b') && I.IndexOk(b'.engine) && (R.DlqsPresent(b.engine) ==> R.DlqsPresent(b'.engine))
        && C.Cancel(b, id, todo, now).1
        && forall conn :: C.Members(b', conn) == C.Members(b, conn) - {id}
    {
      hide X.Linked, I.TablesAgree, R.DlqsPresent, C.Dismiss, E.Recover, C.Members;
      var s1 := C.Dismiss(b, id).engine;
      X.CancelLinked(b, id, todo, now);
      DismissDlqs(b, id);
      DismissIndex(b, id);
      I.RecoverIndex(s1, todo, now, true);
      if R.DlqsPresent(b.engine) {
        RecoverDlqs(s1, todo, now);
      }
    }

    static lemma DismissIndex(b: C.Broker, id: ConsumerId)
      requires I.IndexOk(b.engine) && id in b.consumers
      ensures I.IndexOk(C.Dismiss(b, id).engine)
    {
      hide I.TablesAgree, C.LeaveAll;
      BrokerRuns.LeaveAllCore(b.engine, b.consumers[id].queues, id);
      D.CoreIndex(b.engine, C.LeaveAll(b.engine, b.consumers[id].queues, id));
    }

    static lemma RecoverDlqs(s: E.State, todo: seq<Addr>, now: Time)
      requires I.IndexOk(s) && R.DlqsPresent(s) && forall a :: a in todo ==> a.queue in s.queues
      ensures R.DlqsPresent(E.Recover(s, todo, now, true))
    {
      hide E.Recover, I.TablesAgree, DlqNames.IsDlq, Replay.Decay, Replay.QuietGrowth;
      var s' := E.Recover(s, todo, now, true);
      Replay.RecoverWane(s, todo, now, true);
      I.RecoverIndex(s, todo, now, true);
      forall n | n in s'.queues && s'.queues[n].spec.deadLetter
        ensures DlqNames.DlqName(n) in s'.queues
      {
        I.SpecIndex(s', n);
        assert n in s.queues;
      }
    }

    /** One more consumer, after those whose cancellation raised no error. */
    static lemma DisconnectMore(b: C.Broker, ids: seq<ConsumerId>, todos: seq<seq<Addr>>, lefts: seq<set<QName>>,
                                id: ConsumerId, todo: seq<Addr>, left: set<QName>, now: Time)
      requires |lefts| == |todos| == |ids| && X.Disconnectable(b, ids, todos, lefts, now)
      requires !X.Interrupted(b, ids, todos, lefts, now)
      requires
        var b1 := X.Disconnect(b, ids, todos, lefts, now);
        && id in b1.consumers && R.TakenBack(C.Dismiss(b1, id).engine, id, todo, left, now, true)
        && forall a :: a in todo ==> a.queue in C.Dismiss(b1, id).engine.queues
      ensures
        var (ids', todos', lefts') := (ids + [id], todos + [todo], lefts + [left]);
        var b1 := X.Disconnect(b, ids, todos, lefts, now);
        && X.Disconnectable(b, ids', todos', lefts', now)
        && X.Disconnect(b, ids', todos', lefts', now) == C.Cancel(b1, id, todo, now).0
        && (X.Interrupted(b, ids', todos', lefts', now) <==> R.Grows(C.Dismiss(b1, id).engine, todo, now, true))
      decreases |ids|
    {
      hide C.Cancel, C.Dismiss, R.TakenBack, R.Grows;
      if ids == [] {
        X.NothingLeft(b, todos, lefts, now, Places.Gone);
        X.NothingLeft(C.Cancel(b, id, todo, now).0, [], [], now, Places.Gone);
        assert (ids + [id])[1..] == [] && (todos + [todo])[1..] == [] && (lefts + [left])[1..] == [];
      } else {
        X.DisconnectNext(b, ids, todos, lefts, now);
        assert (ids + [id])[1..] == ids[1..] + [id] && (todos + [todo])[1..] == todos[1..] + [todo];
        assert (lefts + [left])[1..] == lefts[1..] + [left];
        DisconnectMore(C.Cancel(b, ids[0], todos[0], now).0, ids[1..], todos[1..], lefts[1..], id, todo, left, now);
      }
    }

    // ----- delivering -----

    method TryReserve(n: QName, now: Time) returns (r: Option<C.Item>)
      modifies this, engine, engine.delayed
      ensures engine.delayed == old(engine.delayed)
      ensures State() == C.TryReserve(old(State()), n, now).0 && r == C.TryReserve(old(State()), n, now).1
    {
      hide C.TryRounds, C.Serve, C.Eligible;
      if n !in engine.queues || engine.queues[n].consumerIds == [] {
        return None;
      }
      ghost var b := State();
      var rounds := |engine.queues[n].consumerIds|;
      var i := 0;
      while i < rounds
        invariant 0 <= i <= rounds && engine.delayed == old(engine.delayed)
        invariant n in engine.queues && engine.queues[n].consumerIds == b.engine.queues[n].consumerIds
        invariant C.TryRounds(State(), n, now, rounds - i) == C.TryRounds(b, n, now, rounds)
        invariant consumers == b.consumers
      {
        var q := engine.queues[n];
        var id := q.consumerIds[q.rrIndex % |q.consumerIds|];
        RoundsNext(State(), n, now, rounds - i);
        engine.queues := engine.queues[n := q.(rrIndex := q.rrIndex + 1)];
        i := i + 1;
        if IsEligible(id) {
          r := Serve(n, id, now);
          return;
        }
      }
      RoundsNext(State(), n, now, 0);
      return None;
    }

    function IsEligible(id: ConsumerId): (b: bool)
      reads this, engine, engine.delayed
      ensures b == C.Eligible(State(), id)
      ensures b ==> id in consumers
    {
      id in consumers && C.CanDeliver(consumers[id])
    }

    static lemma RoundsNext(b: C.Broker, n: QName, now: Time, left: nat)
      requires n in b.engine.queues && b.engine.queues[n].consumerIds != []
      ensures left == 0 ==> C.TryRounds(b, n, now, left) == (b, None)
      ensures left > 0 ==>
        var q := b.engine.queues[n];
        var id := q.consumerIds[q.rrIndex % |q.consumerIds|];
        var b1 := C.Advance(b, n);
        && (C.Eligible(b, id) ==> id in b.consumers)
        && C.Eligible(b1, id) == C.Eligible(b, id)
        && C.TryRounds(b, n, now, left) ==
           if !C.Eligible(b, id) then C.TryRounds(b1, n, now, left - 1) else C.Serve(b1, n, id, now)
    {
      hide C.Serve;
    }

    method Serve(n: QName, id: ConsumerId, now: Time) returns (r: Option<C.Item>)
      requires id in consumers
      modifies this, engine, engine.delayed
      ensures engine.delayed == old(engine.delayed)
      ensures State() == C.Serve(old(State()), n, id, now).0 && r == C.Serve(old(State()), n, id, now).1
    {
      hide E.Reserve;
      var m := engine.Reserve(n, id, now);
      if m == None {
        return None;
      }
      consumers := consumers[id := C.OnDeliver(consumers[id])];
      return Some(C.Item(id, m.value));
    }

    method DrainQueue(n: QName, now: Time) returns (delivered: seq<C.Item>)
      modifies this, engine, engine.delayed
      ensures engine.delayed == old(engine.delayed)
      ensures State() == D.Drain(old(State()), n, now).0 && delivered == D.Drain(old(State()), n, now).1
    {
      hide C.TryReserve, D.Drain;
      delivered := [];
      while true
        invariant engine.delayed == old(engine.delayed)
        invariant D.Drain(old(State()), n, now).0 == D.Drain(State(), n, now).0
        invariant D.Drain(old(State()), n, now).1 == delivered + D.Drain(State(), n, now).1
        decreases C.ReadyCount(State(), n)
      {
        D.TryReserveShortens(State(), n, now);
        DrainNext(State(), n, now);
        var item := TryReserve(n, now);
        if item == None {
          break;
        }
        delivered := delivered + [item.value];
      }
    }

    static lemma DrainNext(b: C.Broker, n: QName, now: Time)
      ensures
        var (b1, r) := C.TryReserve(b, n, now);
        if r == None then D.Drain(b, n, now) == (b1, [])
        else D.Drain(b, n, now).0 == D.Drain(b1, n, now).0 && D.Drain(b, n, now).1 == [r.value] + D.Drain(b1, n, now).1
    {
      hide C.TryReserve;
    }
  }

  /** The command handler, as far as it pairs engine steps with the consumers' accounts. "send" says whether
      a consumer's connection takes a message. */
  class Handler {
    const consumers: ConsumerManager

    constructor (consumers: ConsumerManager)
      ensures this.consumers == consumers
    {
      this.consumers := consumers;
    }

    function State(): C.Broker
      reads consumers, consumers.engine, consumers.engine.delayed
    {
      consumers.State()
    }

    method PumpQueue(n: QName, now: Time, send: (ConsumerId, Id) -> bool)
      modifies consumers, consumers.engine, consumers.engine.delayed
      ensures consumers.engine.delayed == old(consumers.engine.delayed)
      ensures State() == D.Pump(old(State()), n, now, send)
    {
      hide C.TryReserve, D.Pump, E.Nack, C.OnAck;
      while true
        invariant consumers.engine.delayed == old(consumers.engine.delayed)
        invariant D.Pump(State(), n, now, send) == D.Pump(old(State()), n, now, send)
        decreases C.ReadyCount(State(), n)
      {
        D.TryReserveShortens(State(), n, now);
        PumpNext(State(), n, now, send);
        var item := consumers.TryReserve(n, now);
        if item == None {
          return;
        }
        var (c, m) := (item.value.consumer, item.value.message);
        if !send(c, m.id) {
          var r := consumers.engine.Nack(m.id, true, now, true);
          consumers.OnAck(c);
          return;
        }
      }
    }

    static lemma PumpNext(b: C.Broker, n: QName, now: Time, send: (ConsumerId, Id) -> bool)
      ensures
        var (b1, r) := C.TryReserve(b, n, now);
        D.Pump(b, n, now, send) ==
        if r == None then b1
        else if send(r.value.consumer, r.value.message.id) then D.Pump(b1, n, now, send)
        else C.OnAck(b1.(engine := E.Nack(b1.engine, r.value.message.id, true, now, true).0), r.value.consumer)
    {
      hide C.TryReserve, E.Nack, C.OnAck;
    }

    method PumpQueues(names: seq<QName>, now: Time, send: (ConsumerId, Id) -> bool)
      modifies consumers, consumers.engine, consumers.engine.delayed
      ensures consumers.engine.delayed == old(consumers.engine.delayed)
      ensures State() == D.PumpAll(old(State()), names, now, send)
    {
      hide D.PumpAll;
      var i := 0;
      assert names[i..] == names;
      while i < |names|
        invariant 0 <= i <= |names| && consumers.engine.delayed == old(consumers.engine.delayed)
        invariant D.PumpAll(State(), names[i..], now, send) == D.PumpAll(old(State()), names, now, send)
      {
        PumpAllNext(State(), names[i..], now, send);
        assert names[i..][1..] == names[i + 1..];
        PumpQueue(names[i], now, send);
        i := i + 1;
      }
      PumpAllNext(State(), names[i..], now, send);
    }

    static lemma PumpAllNext(b: C.Broker, names: seq<QName>, now: Time, send: (ConsumerId, Id) -> bool)
      ensures D.PumpAll(b, names, now, send) ==
              if names == [] then b else D.PumpAll(D.Pump(b, names[0], now, send), names[1..], now, send)
    {
      hide D.Pump;
    }

    method CmdAck(id: Id, now: Time, send: (ConsumerId, Id) -> bool) returns (r: E.AckResult)
      modifies consumers, consumers.engine, consumers.engine.delayed
      ensures consumers.engine.delayed == old(consumers.engine.delayed)
      ensures State() == D.CmdAck(old(State()), id, now, send).0 && r == D.CmdAck(old(State()), id, now, send).1
    {
      hide E.Ack, E.InflightConsumer, C.OnAck, D.PumpAll;
      var c := consumers.engine.InflightConsumer(id);
      r := consumers.engine.Ack(id, true);
      if r == E.AckOk && c.Some? {
        consumers.OnAck(c.value);
        if c.value in consumers.consumers {
          PumpQueues(consumers.consumers[c.value].queues, now, send);
        }
      }
    }

    method CmdNack(id: Id, requeue: bool, now: Time, send: (ConsumerId, Id) -> bool) returns (r: E.NackResult)
      modifies consumers, consumers.engine, consumers.engine.delayed
      ensures consumers.engine.delayed == old(consumers.engine.delayed)
      ensures State() == D.CmdNack(old(State()), id, requeue, now, send).0
      ensures r == D.CmdNack(old(State()), id, requeue, now, send).1
    {
      hide E.Nack, E.InflightConsumer, C.OnAck, D.PumpAll;
      var c := consumers.engine.InflightConsumer(id);
      r := consumers.engine.Nack(id, requeue, now, true);
      if r == E.NackOk && c.Some? {
        consumers.OnAck(c.value);
        if c.value in consumers.consumers {
          PumpQueues(consumers.consumers[c.value].queues, now, send);
        }
      }
    }
  }
}
