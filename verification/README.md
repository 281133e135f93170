# OneOpen Broker: a verified model

OneOpen Broker is a message broker that runs as one process: clients publish to queues, consumers get
deliveries and acknowledge them, failed deliveries are retried with growing delays and end in dead-letter
queues, and an append-only file with periodic snapshots carries the state over a restart. One event loop
owns all state, so every command, every tick and every replayed record is one atomic step; only the thread
that writes the file runs beside it.

This project models the broker's queue engine, its consumers, its journal and recovery, its file and wire
formats and its router, and proves what they keep over whole runs.

## How the model is built

Two layers describe the stateful parts. The first is a set of functions on values: `Engine`, `Consumers`,
`Deliveries`, `Aof`, `Routing` say what one step does to the state, and the lemmas are about them. The second
is a set of classes in the form the program has: `QueueEngine`, `DelayedHeap`, `ConsumerManager`, `Handler`,
`AofWriter`, `FrameReader` and `RoutingEngine` change their fields step by step, with the program's loops, and
each method is proved to take its object from one state to the state that the function names. What is proved
about the functions therefore holds of the methods.

| files | subject |
|---|---|
| `Types`, `DlqNames`, `Heaps`, `Backoff`, `Journal`, `Dictionaries` | values, dead-letter names, heaps, retry delays, journal records and the dictionaries they are written as |
| `Engine`, `QueueEngine`, `Declarations` | the queue engine, as functions and as a class; what declaring creates |
| `Index`, `Partition`, `Invariant`, `InvariantOps` | the engine's invariant and that every operation keeps it |
| `Places`, `Ticks`, `Requeue`, `Runs` | where a message is, and how every operation moves it |
| `Bounds`, `Accounts`, `Counters`, `Order`, `Counts` | bounds on deliveries, delays and queue lengths; conservation; what every counter counts; order of delivery; what the loops report |
| `SettleRecords` | what settling messages and the passing of time write to the journal |
| `Snapshot`, `SnapshotFile`, `Restoring` | saving and restoring the engine, and the snapshot file |
| `Replay`, `Recovery`, `Restarts`, `Crashes`, `Worlds`, `Recoverer` | the journal, its replay, crashes and restarts |
| `Holdings`, `RestartInv`, `RestartOrder`, `Traces`, `SoundHistories`, `Limits`, `ClosedRuns` | what a recovered engine holds, exactly; when it has the full invariant, over any number of lifetimes; in which order it delivers; where recovery loses a message, and short runs from a new broker that get there |
| `Packing`, `Records`, `TornLog`, `Aof`, `Waits`, `AofWriters`, `EndToEnd` | the append-only file, its writer, when a wait for it returns, and the way from an awaited write to a surviving message |
| `Frames` | the wire format and its incremental reader |
| `Consumers`, `Deliveries`, `Rooms`, `Settling`, `Fairness`, `Prefetch`, `BrokerRuns`, `BrokerInv`, `Disconnects`, `LostConsumers`, `ConsumerManager` | consumers, round-robin delivery, prefetch accounts and the exact effect of every command on them, lost connections, and the command handler's delivery paths |
| `Routing`, `RouterReplay`, `RouterBindings`, `RouterWorlds` | exchanges, bindings and fan-out; the router over a restart, and over any number of lifetimes |

Things that the program takes from outside are parameters: the clock (every operation gets the reading it
would see), the order in which dictionaries and sets are iterated over (a list, or an arbitrary choice), the
source of new message ids, the outcome of a send to a connection, `zlib.crc32` (a function into 32 bits), and
the JSON encoder and decoder of dictionaries (a pair of which the second undoes the first, and which writes no
dictionary as an empty string; the operation is not in the dictionary but in the record's header). Times are
integers; a time stamp in a file header is eight opaque bytes.

## What the proofs found

- Replay never takes an acknowledgement or a refusal back: during replay nothing is in flight, so the records
  of `ack` and `nack` change nothing (`Recovery.QuietApply`). What recovery promises is that no live message
  is lost, not that the state is the same: in every state that a history reaches, a message that has just been
  acknowledged is there again, with its payload, after a crash and a restart, even if the log is whole
  (`Holdings.AckedComesBack`). Exactly which messages recovery holds is `Holdings.RecoveredHolds`: those of the
  snapshot and of the publications after it, except those that a later record deletes with their queue. Only a
  snapshot makes an acknowledgement last (`Holdings.SavedStaysGone`).
- With bounded queues a live message can be lost: `Limits.BoundedReplayLoses` gives the family of runs,
  `ClosedRuns.BoundedLosesReached` one from a new broker, and `Recovery.PublishSim` says exactly when a publish
  is replayed.
- A requeue named after a queue with a double suffix is replayed as a requeue out of the dead-letter queue it
  stayed in; `Limits.StrayedRequeueLoses` and, from a new broker, `ClosedRuns.StrayedLosesReached` show the
  loss, `Recovery.RequeueSim` says exactly when a requeue is replayed faithfully.
- `dlq_requeue` keeps the engine's invariant exactly when the dead letter is ready
  (`Requeue.RequeueKeepsIff`); four operations on a new broker reach one that is not
  (`ClosedRuns.RequeueBreaksReached`). During replay that is the case exactly if the dead letter is still delayed
  (`RestartInv.ApplyInv`); a snapshot and one requeue record reach it (`ClosedRuns.DelayedLetterReached`). With
  new ids and unbounded queues nothing else breaks the invariant: over any number of lifetimes every state of the
  engine is sound if and only if every requeue, made or replayed, finds its dead letter ready
  (`SoundHistories.HistorySoundIff`).
- `recover_consumer` raises an error in the middle of its loop exactly when a message dies in a queue whose
  dead-letter queue was deleted on its own (`Counts.RecoverGrows`). So cancelling a consumer, or losing its
  connection, ends in that error if and only if the consumer, or one of the connection's consumers, holds a
  delivery of such a message (`Disconnects.CancelStopsIff`, `Disconnects.DisconnectStopsIff`). The deliveries in
  the queues not visited then stay with a consumer that is not registered any more, and the connection's other
  consumers stay registered (`Disconnects.DisconnectLeaves`); eight operations on a new broker and a cancellation
  get there (`LostConsumers.CancelStopsReached`). Otherwise a lost connection leaves nothing behind
  (`Disconnects.DisconnectLosesNothing`), and prefetch limits hold with a debt of exactly what such errors left
  (`BrokerRuns.PrefetchSafety`).
- A publish that names a dead-letter queue goes nowhere, because only the queue itself was bound
  (`Routing.DeadLettersUnbound`); after a restart it is bound, because replay binds every queue it declares
  (`RouterReplay.DeadLettersBound`).
- A replay of the whole journal keeps every binding and adds, exactly, those of the queues that a record declares,
  under their own name, unless a later record removes them (`RouterBindings.AddedBindings`); it gives back the same
  bindings if and only if the live router has all of these too (`RouterBindings.SameBindingsIff`). With snapshots,
  crashes and restarts in between, exactly the bindings that were left of deleted queues at the last snapshot, and
  not made again since, are missing, queues' own bindings aside (`RouterWorlds.RouterLasts`).
- Deleting a queue leaves its bindings, which work again once it is declared anew, unless a snapshot was taken
  and the broker restarted in between (`RouterReplay.RevivedBindingLost`); four operations on a new broker reach
  such a binding (`RouterReplay.RevivedBindingReached`).

Where the code and its documentation disagree, the model follows the code. The broker's README promises that
with `fsync: always` responses wait until the record is flushed; the server queues the response first and
waits afterwards (`src/oneopen_broker/broker/server.py:296-307`). The model therefore speaks of what has been
flushed when `wait_durable` returns.

## Model

| member | source | states |
|---|---|---|
| DlqNames.DlqName | src/oneopen_broker/core/dlq.py:8-11 | the name always carries the suffix; it is unchanged exactly for names that carry it already, and otherwise the original name can be read back |
| DlqNames.OriginQueue | src/oneopen_broker/core/dlq.py:18-21 | an ordinary name is its own origin; a suffixed one is its shorter origin plus the suffix |
| DlqNames.DlqNameRoundTrip | src/oneopen_broker/core/dlq.py:8-21 | naming a dead-letter queue and asking for its origin undo each other, and no two ordinary queues share a dead-letter queue |
| DlqNames.DoubleSuffix | src/oneopen_broker/core/dlq.py:8-21 | a name whose origin is suffixed is its own dead-letter queue |
| Heaps.Push | src/oneopen_broker/core/queue.py:216 | pushing adds one entry and keeps the order of the heap |
| Heaps.Pop | src/oneopen_broker/core/queue.py:238 | the first entry precedes all others, and removing it removes its item from a heap without repetitions |
| Heaps.Drop | src/oneopen_broker/core/queue.py:596-600 | exactly the entries for the item go, and the heap stays ordered |
| Heaps.DropDistinct | src/oneopen_broker/core/queue.py:596-600 | dropping from a heap without repetitions removes exactly one entry if the item is there |
| Backoffs.TotalDelayClosed | src/oneopen_broker/core/retry.py:6-11 | exponential delays before n retries add up to base * (2^n - 1), fixed ones to n * base |
| Bounds.DelayBound | src/oneopen_broker/core/retry.py:6-11 | the total delay grows with the number of retries and stays below the closed form |
| Declarations.DeclareCreates | src/oneopen_broker/core/queue.py:135-174 | a declared queue is empty and as asked for, with the engine's defaults; its dead-letter queue has one attempt, the same timeout and no dead letters; no other queue is touched |
| Declarations.DeclareRecordRoundTrip | src/oneopen_broker/persistence/recovery.py:41-51 | a queue's record declares the same queue again if and only if it gives a limit or the replaying engine has no default one |
| Declarations.TrimKeepsNewest | src/oneopen_broker/core/queue.py:591-594 | the newest acknowledgements are remembered, as many as the limit allows |
| Declarations.AckTwice | src/oneopen_broker/core/queue.py:269-289 | a second acknowledgement is answered as such if and only if anything is remembered, and changes nothing |
| Declarations.OnDemand | src/oneopen_broker/core/queue.py:124-174 | a queue that is declared on demand, or comes into being because a message dies, has the engine's defaults, which are spelled out |
| Index.DeclareIndex | src/oneopen_broker/core/queue.py:124-174 | declaring keeps the index in agreement with the queues |
| Index.DeleteIndex | src/oneopen_broker/core/queue.py:176-186 | deleting a queue and its dead-letter queue takes exactly their messages out of the index |
| Index.MoveToDlqIndex | src/oneopen_broker/core/queue.py:531-551 | dead-lettering keeps the index in agreement with the queues |
| Index.DlqRequeueIndex | src/oneopen_broker/core/queue.py:375-403 | both the success and the rollback of a requeue keep the index in agreement, whatever state the dead letter is in |
| Runs.StepIndex | src/oneopen_broker/core/queue.py:124-403 | every operation keeps the index in agreement with the queues' own tables |
| Runs.RunIndex | src/oneopen_broker/core/queue.py:124-403 | so does every run |
| Runs.IndexAgrees | src/oneopen_broker/core/queue.py:108 | in every state that a run reaches, the index maps an id to a queue exactly when the queue exists and stores the id, so no id is stored in two queues |
| Partition.DepthIsSize | src/oneopen_broker/core/queue.py:85-86 | the depth computed from three containers is the number of stored messages |
| InvariantOps.EnqueueInv | src/oneopen_broker/core/queue.py:194-231 | publishing a message with a new id keeps the full invariant |
| InvariantOps.ReserveInv | src/oneopen_broker/core/queue.py:233-257 | reserving keeps the full invariant |
| InvariantOps.ReserveHead | src/oneopen_broker/core/queue.py:237-257 | under the invariant no ready entry is outdated: reserve takes the head of the heap, puts it in flight and records its deadline |
| InvariantOps.AckInv | src/oneopen_broker/core/queue.py:269-289 | acknowledging keeps the full invariant |
| InvariantOps.NackInv | src/oneopen_broker/core/queue.py:291-322 | refusing keeps the full invariant, whether the message is retried, dead-lettered or dropped |
| InvariantOps.RetryOrDeadInv | src/oneopen_broker/core/queue.py:506-529 | counting an attempt and retrying or dead-lettering restores the invariant for the message in hand |
| InvariantOps.MoveToDlqInv | src/oneopen_broker/core/queue.py:531-551 | dead-lettering restores the invariant, even if the dead-letter queue has to be declared first |
| InvariantOps.RecoverInv | src/oneopen_broker/core/queue.py:324-339 | taking back all deliveries of a consumer keeps the full invariant |
| InvariantOps.DeclareInv | src/oneopen_broker/core/queue.py:124-174 | declaring keeps the full invariant |
| InvariantOps.DeleteInv | src/oneopen_broker/core/queue.py:176-186 | deleting keeps the full invariant, although the heaps keep entries of the deleted messages |
| Places.PlaceMeaning | src/oneopen_broker/core/queue.py:58-66 | every stored message is in exactly one of the ready heap, the deliveries and the delayed ids, and those hold nothing else |
| Places.EnqueueAnswer | src/oneopen_broker/core/queue.py:200-205 | publish answers that the queue is full exactly when it stores as many messages as its limit, and changes nothing unless it succeeds |
| Places.EnqueuePlace | src/oneopen_broker/core/queue.py:206-216 | a published message is delayed exactly if its due time is ahead and ready otherwise; no other message moves |
| Places.ReservePlace | src/oneopen_broker/core/queue.py:233-257 | what reserve returns was ready and is in flight; it returns nothing only if nothing is ready; no other message moves |
| Places.AckPlace | src/oneopen_broker/core/queue.py:269-289 | an acknowledged message is gone, and no other message moves |
| Places.NackPlace | src/oneopen_broker/core/queue.py:291-322 | a refused message goes where a failure or a death sends it, and no other message moves |
| Places.RetryOrDeadPlace | src/oneopen_broker/core/queue.py:506-529 | with attempts left the message is delayed in its queue until the backoff is over, otherwise it dies |
| Places.MoveToDlqPlace | src/oneopen_broker/core/queue.py:531-551 | a dead message is ready in the dead-letter queue, or gone if its queue keeps no dead letters |
| Ticks.PopDueMeaning | src/oneopen_broker/core/delayed.py:17-28 | popping the due entries gives exactly those at or before the time, and leaves none of them |
| Ticks.ReleaseDelayedPlace | src/oneopen_broker/core/queue.py:553-569 | exactly the delayed messages whose due time has come become ready |
| Ticks.TimeoutPlace | src/oneopen_broker/core/queue.py:571-589 | exactly the deliveries whose current deadline has passed fail, despite outdated heap entries |
| Ticks.TickIsScan | src/oneopen_broker/core/queue.py:341-346 | a tick does to every message what a scan of all messages by due time and deadline would do, none early and none missed, and keeps the invariant |
| Ticks.RecoverPlace | src/oneopen_broker/core/queue.py:324-339 | exactly the listed deliveries fail; every other message stays |
| Counts.TickCounted | src/oneopen_broker/core/queue.py:341-346 | the number that a tick returns is the number of delayed messages that are due plus the number of deliveries past their deadline |
| Counts.RecoverCounted | src/oneopen_broker/core/queue.py:324-339 | recover_consumer counts every delivery that it takes back |
| Counts.RecoverGrows | src/oneopen_broker/core/queue.py:324-339 | a queue appears while the deliveries of a consumer are taken back, so that the loop raises an error, if and only if one of the messages dies in a queue whose dead-letter queue is missing |
| Requeue.RequeueKeepsIff | src/oneopen_broker/core/queue.py:381-387 | a requeue keeps the invariant if and only if the dead letter is ready |
| Requeue.RequeuePlace | src/oneopen_broker/core/queue.py:375-403 | a ready dead letter goes to its origin with its attempts forgotten exactly if there is room, and stays otherwise |
| Requeue.DeletePlace | src/oneopen_broker/core/queue.py:176-186 | deleting removes the queue, its dead-letter queue and their messages, and nothing else |
| Runs.StepInv | src/oneopen_broker/core/queue.py:124-403 | every operation keeps the full invariant |
| Runs.StepMoves | src/oneopen_broker/core/queue.py:124-403 | the transition system: every event moves every message from its place to the one place that the event and the message's own record determine; a lost consumer's deliveries may be taken back all or in part |
| Runs.StepSpecs | src/oneopen_broker/core/queue.py:124-403 | no event changes the configuration or the specification of a surviving queue |
| Runs.RunInv | src/oneopen_broker/core/queue.py:124-403 | no run strands or duplicates a message: the invariant holds in every reachable state |
| Bounds.RunTrack | src/oneopen_broker/core/queue.py:506-529 | a message's attempts are the failures since it was published or requeued, and its deliveries and delays are bounded by them |
| Bounds.BoundedDelivery | src/oneopen_broker/core/queue.py:506-529 | in an ordinary queue a message has fewer attempts than its limit, was reserved at most that many times, and its delays add up to at most base * (2^(limit-1) - 1) |
| Bounds.ExclusiveDelivery | src/oneopen_broker/core/queue.py:233-257 | between a delivery and the event that ends it no reserve returns the message again |
| Bounds.RunCapacity | src/oneopen_broker/core/queue.py:203-205 | a queue with a limit that is not a dead-letter queue never stores more than the limit, through publishes, retries, releases and requeues |
| Accounts.StepAccounts | src/oneopen_broker/core/queue.py:194-339 | every event keeps both balances of every queue |
| Accounts.Conservation | src/oneopen_broker/core/queue.py:194-339 | after any run delivered = in flight + acked + retried + dead in every queue, and published = stored + acked + dead in every ordinary queue; which event counts where is Counters.RunCounters |
| Counters.StepCounters | src/oneopen_broker/core/queue.py:194-589 | every event adds to each counter of each queue exactly the number of what it is named after: arrivals and requeues, reservations, accepted acknowledgements, accepted refusals, deliveries that failed with attempts left, and those that failed for good |
| Counters.RunCounters | src/oneopen_broker/core/queue.py:33-46 | over any run every counter is the sum of these since the queue was last created; so an acknowledged message counts as acked and not as dead |
| SettleRecords.AckWrites | src/oneopen_broker/core/queue.py:269-289 | an accepted acknowledgement writes its record and nothing else; a refused one writes nothing |
| SettleRecords.NackWrites | src/oneopen_broker/core/queue.py:291-322 | an accepted refusal writes two records: the refusal, and that the message is retried at its due time with its attempts, or died, with its payload |
| SettleRecords.RecoverWrites | src/oneopen_broker/core/queue.py:324-339 | taking back a consumer's deliveries writes one record for each, in order, that says what became of it |
| SettleRecords.TickWrites | src/oneopen_broker/core/queue.py:341-346 | a tick writes one such record for exactly the deliveries past their deadline, the earliest deadline first, and none for released messages |
| Order.ReserveIsFirst | src/oneopen_broker/core/queue.py:216 | reserve returns the ready message of highest priority and, among those, of lowest sequence number |
| Order.RunOrder | src/oneopen_broker/core/queue.py:216 | over a run, entries keep their rank and only later numbers join |
| Order.FirstComeFirstServed | src/oneopen_broker/core/queue.py:237-257 | a message that was ready before another is not overtaken by it, unless that has a higher priority |
| Snapshot.RoundTrip | src/oneopen_broker/core/queue.py:405-504 | restoring a snapshot of a reachable state, in any listing order, gives a state with the invariant, the same queues, specifications, counters and messages; deliveries are ready again, delays keep their due times |
| Snapshot.RoundTripContents | src/oneopen_broker/core/queue.py:449-495 | the restored index and messages are the same; ready is old ready plus old in flight; nothing is in flight |
| Snapshot.SecondSnapshot | src/oneopen_broker/core/queue.py:497-504 | a second snapshot names the same states, except that INFLIGHT has become READY or DEAD |
| Snapshot.SavedWhere | src/oneopen_broker/core/queue.py:497-504 | a saved message is listed under the queue it is in, and its state is INFLIGHT, DELAYED, DEAD or READY exactly if it is in flight, delayed, ready in a dead-letter queue or ready in another one |
| Replay.ReplayConcat | src/oneopen_broker/persistence/recovery.py:126-131 | replaying two stretches of records one after the other is replaying them joined |
| Replay.ReserveWane | src/oneopen_broker/core/queue.py:233-257 | reserving journals nothing and loses no message |
| Replay.AckWane | src/oneopen_broker/core/queue.py:269-289 | acknowledging only takes a message away, and its record says nothing to a replay |
| Replay.NackWane | src/oneopen_broker/core/queue.py:291-322 | refusing only moves a message to its dead-letter queue or drops it, and its records say nothing to a replay |
| Replay.RecoverWane | src/oneopen_broker/core/queue.py:324-339 | the same for taking back a consumer's deliveries |
| Replay.TickWane | src/oneopen_broker/core/queue.py:341-346 | the same for a tick |
| Recovery.QuietApply | src/oneopen_broker/persistence/recovery.py:91-101 | the records of acknowledgements, refusals, retries and deaths change nothing in an engine without deliveries |
| Recovery.WaneSim | src/oneopen_broker/persistence/recovery.py:91-101 | losing and dead-lettering messages keeps the simulation between the live engine and its replay |
| Recovery.DeclareSim | src/oneopen_broker/persistence/recovery.py:41-51 | declaring, with its one or two records, keeps the simulation |
| Recovery.DeleteReplay | src/oneopen_broker/persistence/recovery.py:52-53 | the first record of a deletion already removes both queues from the replaying engine |
| Recovery.DeleteSim | src/oneopen_broker/persistence/recovery.py:52-53 | deleting, with its one or two records, keeps the simulation |
| Recovery.PublishSim | src/oneopen_broker/persistence/recovery.py:69-90 | a publish is replayed faithfully if and only if the replaying engine has room for it |
| Recovery.RequeueSim | src/oneopen_broker/persistence/recovery.py:95-97 | a requeue is replayed faithfully if and only if the origin has room and the record does not take the message on |
| Recovery.RequeueRefusedSim | src/oneopen_broker/core/queue.py:391-396 | a refused requeue writes no record and keeps the simulation |
| Holdings.ApplyHolds | src/oneopen_broker/persistence/recovery.py:36-101 | after one record a message is held if and only if it was held and the record does not delete its queue, or the record publishes it and finds room |
| Holdings.ReplayHolds | src/oneopen_broker/persistence/recovery.py:126-131 | after any list of records a message is held if and only if it was there or was published and found room at some point, and no record from then on deletes the queue that it is in |
| Holdings.RecoveredHolds | src/oneopen_broker/persistence/recovery.py:104-134 | recovery holds exactly the messages of the snapshot and of the publications after it, except those that a later record deletes with their queue |
| Holdings.CrashHoldsExactly | src/oneopen_broker/persistence/recovery.py:104-134 | the same for every crash, with a torn log, that ends any history |
| Holdings.AckForgotten | src/oneopen_broker/persistence/recovery.py:91-92 | an engine that replays an acknowledgement keeps the message |
| Holdings.AckedComesBack | src/oneopen_broker/persistence/recovery.py:91-92 | in every world that a history reaches, a message just acknowledged is gone, and is back with its payload after a crash and a restart on the whole log |
| Holdings.SavedStaysGone | src/oneopen_broker/persistence/snapshot.py:22-75 | a message that is not live when a snapshot is taken and is not published again is not held after the next recovery |
| Limits.BoundedReplayLoses | src/oneopen_broker/persistence/recovery.py:88-90 | on a queue of length one: deliver and acknowledge one message, publish another, and the replay does not hold it |
| Limits.StrayedRequeueLoses | src/oneopen_broker/core/queue.py:375-403 | a requeue under a doubly suffixed name, followed by the deletion of the plain queue: the live engine holds the message and the replay does not |
| ClosedRuns.RequeueBreaksReached | src/oneopen_broker/core/queue.py:375-403 | on a new broker: declare a queue, publish to its dead-letter queue, reserve the message, requeue it, and the invariant is broken |
| ClosedRuns.BoundedLosesReached | src/oneopen_broker/persistence/recovery.py:88-90 | a whole run of a new broker on a queue of length one whose journal, replayed, lacks a live message |
| ClosedRuns.StrayedLosesReached | src/oneopen_broker/core/queue.py:375-403 | a whole run of a new broker with a requeue under a doubly suffixed name whose journal, replayed, lacks a live message |
| ClosedRuns.DelayedLetterReached | src/oneopen_broker/persistence/recovery.py:95-97 | a run of a new broker, sound all the way, with a snapshot after which replaying the one record breaks the invariant |
| Restoring.RestoreTables | src/oneopen_broker/core/queue.py:449-495 | a restored engine holds exactly the saved messages, without any assumption but the index |
| Restarts.ApplyContinues | src/oneopen_broker/persistence/recovery.py:36-101 | every record, whatever it is, keeps the replaying engine's tables sound, free of deliveries and unbounded |
| Restarts.ApplyTwins | src/oneopen_broker/persistence/recovery.py:36-101 | one record applied at two different times gives the same queues and messages up to what is delayed |
| Restarts.ReplayTwins | src/oneopen_broker/persistence/recovery.py:126-131 | the same for any list of records |
| Restarts.IdleTick | src/oneopen_broker/persistence/recovery.py:132 | the tick that ends recovery loses nothing: it only makes delayed messages ready |
| RestartInv.ApplyInv | src/oneopen_broker/persistence/recovery.py:36-101 | replaying one record keeps the full invariant if and only if it does not requeue a dead letter that is not ready |
| RestartInv.ReplayInv | src/oneopen_broker/persistence/recovery.py:126-131 | a replay in which every publish is of a message without a trace, or stored, and every requeue finds its dead letter ready keeps the full invariant |
| RestartInv.RecoveredInv | src/oneopen_broker/persistence/recovery.py:104-134 | on any disk, under the same condition, a restart gives an engine with the full invariant, so that everything proved of runs holds of what it does next; SoundHistories.HistorySoundIff shows the half about publishes for every disk that a history writes |
| RestartInv.DelayedLetterBreaks | src/oneopen_broker/persistence/recovery.py:95-97 | without it: from any sound state with a delayed dead letter, a snapshot and one requeue record, the replay breaks the invariant |
| RestartInv.PublishComesBack | src/oneopen_broker/persistence/recovery.py:69-90 | replaying the record of a publish stores the message with every field as the live engine stored it, delayed if its due time is still to come and ready without one otherwise, unless the queue is full; nothing else moves |
| RestartInv.RecoveredIdle | src/oneopen_broker/persistence/recovery.py:132 | after a restart nothing is in flight, and nothing is delayed whose due time has passed |
| RestartOrder.RestoredInTurn | src/oneopen_broker/core/queue.py:449-495 | of two restored messages that are not delayed the one listed first comes first, unless the other has a higher priority, and both have numbers beyond those handed out before the snapshot |
| Traces.StepKnown | src/oneopen_broker/core/queue.py:124-403 | no operation leaves a trace, in the index or in the heap of delayed messages, of a message whose id was never used |
| Traces.ApplyKnown | src/oneopen_broker/persistence/recovery.py:36-101 | neither does a replayed record, which adds at most the id that it publishes |
| SoundHistories.OnceWork | src/oneopen_broker/core/queue.py:194-231 | no step of work writes a publication of an id that the snapshot or an earlier record of the log has |
| SoundHistories.ReplaySoundIff | src/oneopen_broker/persistence/recovery.py:126-131 | if no id is published twice, every state of a replay has the full invariant and the order of delivery if and only if every requeue record finds its dead letter ready |
| SoundHistories.HappeningSoundIff | src/oneopen_broker/persistence/recovery.py:104-134 | the same for one step of a history: work, routing, a flush, a snapshot, or a crash with a torn log and the recovery after it |
| SoundHistories.HistorySoundIff | src/oneopen_broker/persistence/recovery.py:104-134 | over any number of lifetimes, every state of the engine, at work and record by record while it recovers, has the full invariant and the order of delivery if and only if every requeue, made or replayed, finds its dead letter ready; nothing is assumed of the disk |
| Crashes.StepWane | src/oneopen_broker/core/queue.py:233-346 | reserving, settling, recovering and ticking only lose messages or dead-letter them |
| Crashes.StepSim | src/oneopen_broker/persistence/recovery.py:36-101 | every live step on unbounded queues keeps the simulation once its records are replayed, whatever the clock says then |
| Crashes.RouteSim | src/oneopen_broker/persistence/recovery.py:54-68 | a record of an exchange or a binding keeps the simulation, although replaying a binding may declare a queue |
| Crashes.StepLife | src/oneopen_broker/core/queue.py:124-403 | through any step a message that is still live is the same message, in its queue or across its dead-lettering |
| Worlds.ReplayedTwins | src/oneopen_broker/persistence/recovery.py:104-134 | two recoveries of the same disk at different times hold the same messages |
| Worlds.MidHeld | src/oneopen_broker/persistence/recovery.py:117-124 | a log torn between the two records of one operation loses no live message it knows of |
| Worlds.WorkOk | src/oneopen_broker/persistence/recovery.py:104-134 | every step of work keeps the invariant of all lifetimes: the whole log replays to a simulation, and every torn log keeps what it knows |
| Worlds.RouteOk | src/oneopen_broker/persistence/recovery.py:54-68 | so does every record that the router writes to the same log |
| Worlds.SaveOk | src/oneopen_broker/persistence/snapshot.py:22-75 | so does taking a snapshot |
| Worlds.CrashOk | src/oneopen_broker/persistence/recovery.py:104-134 | so does a crash and the restart after it |
| Worlds.HistoryOk | src/oneopen_broker/persistence/recovery.py:104-134 | so does any history of work, routing, flushes, snapshots, crashes and restarts |
| Worlds.DeclareCommand | src/oneopen_broker/broker/handler.py:135-146 | the command that declares a queue, which writes the queue's records and then the record of its binding, is such a history |
| Worlds.AtLeastOnce | src/oneopen_broker/persistence/recovery.py:104-134 | after any history, in which engine and router write to the log, one more crash that tears the log anywhere past its durable part keeps every live message whose publication is in the kept log or the snapshot, with its payload, in its queue or across its dead-lettering |
| Worlds.NothingLost | src/oneopen_broker/persistence/recovery.py:104-134 | after any such history, if the log is whole, recovery holds every live message, in its queue or in the origin of its dead-letter queue |
| Packing.Pack | src/oneopen_broker/persistence/records.py:13 | a packed integer has the width asked for |
| Packing.PackRoundTrip | src/oneopen_broker/persistence/records.py:13 | unpacking undoes packing for every integer that fits |
| Packing.UnpackRoundTrip | src/oneopen_broker/persistence/records.py:13 | packing undoes unpacking for every string of bytes |
| Packing.PackOrder | src/oneopen_broker/persistence/records.py:13 | the most significant byte comes first |
| Dictionaries.ParseDict | src/oneopen_broker/persistence/recovery.py:36-101 | every record is read back from its dictionary as it was written, given the operation in its header |
| Dictionaries.DictNeedsOperation | src/oneopen_broker/persistence/records.py:53-64 | the dictionary alone does not say what was done: two pairs of operations write the same one |
| Records.Encode | src/oneopen_broker/persistence/records.py:53-64 | encoding fails exactly when a field does not fit its header, and gives header, dictionary and payload in length |
| Records.DecodeEncode | src/oneopen_broker/persistence/records.py:67-93 | decoding undoes encoding, whatever follows the record |
| Records.DecodeTorn | src/oneopen_broker/persistence/records.py:67-93 | any part of a record that stops short of its end is partial, never corrupt |
| Records.Layout | src/oneopen_broker/persistence/records.py:53-64 | where every field of a record is, and what its checksum covers |
| Records.ReadMatches | src/oneopen_broker/persistence/records.py:67-93 | nothing is read as a record whose checksum does not match its bytes |
| Records.AlteredRefused | src/oneopen_broker/persistence/records.py:67-93 | a record whose dictionary or payload was altered is corrupt, unless its checksum stays the same |
| TornLog.ReadAof | src/oneopen_broker/persistence/recovery.py:15-33 | the loop returns the records and the offset that parsing from the start gives |
| TornLog.WholeCountFits | src/oneopen_broker/persistence/recovery.py:15-33 | the number of records returned is the largest that fits before the cut |
| TornLog.TornLogReads | src/oneopen_broker/persistence/recovery.py:15-33 | wherever the file is cut, reading gives exactly the records that fit whole, and the size of their encodings |
| TornLog.RecoverRecords | src/oneopen_broker/persistence/recovery.py:124-131 | the loop applies what comes after the snapshot and returns the number to go on with |
| TornLog.ResumeLast | src/oneopen_broker/persistence/recovery.py:124-131 | on increasing records exactly those past the snapshot are applied, and no record has a larger number than the one returned |
| TornLog.LogCycles | src/oneopen_broker/persistence/recovery.py:117-134 | any number of appends, snapshots, crashes at any byte and truncations: the file holds whole records with strictly increasing numbers and reads back as exactly those |
| Aof.StepKeeps | src/oneopen_broker/persistence/aof.py:39-110 | after every step file, batch and queue together are the encodings of everything appended, in order |
| Aof.RunKeeps | src/oneopen_broker/persistence/aof.py:39-110 | and so after any interleaving of steps |
| Aof.WaitIsDurable | src/oneopen_broker/persistence/aof.py:52-58 | under always, when a wait for a record returns the flushed file holds every record up to it |
| Aof.FinishLeavesNothing | src/oneopen_broker/persistence/aof.py:65-74 | when flush_and_stop returns the whole of what was appended is in the file and flushed |
| Aof.StopEnds | src/oneopen_broker/persistence/aof.py:65-96 | flush_and_stop ends: the loop always has an enabled step, and each leaves less to do |
| Aof.CrashRecovers | src/oneopen_broker/persistence/aof.py:76-110 | a crash at any byte of any write recovers a prefix of what was appended, and under always every record up to any one whose wait has returned |
| Aof.FlushedSurvives | src/oneopen_broker/persistence/aof.py:98-110 | a batch that is flushed when it is written, every one under always and the one that finds the second over under everysec, survives every later crash with everything before it |
| Waits.CompleteTells | src/oneopen_broker/persistence/aof.py:92-96 | once a batch is reported, a wait under always returns if and only if it was told before or waits for a record of the batch |
| Waits.TurnTells | src/oneopen_broker/persistence/aof.py:76-96 | whoever waits when the loop takes a batch is told when that batch is reported |
| Waits.WaitReturnsIff | src/oneopen_broker/persistence/aof.py:52-58 | between two batches the wait for an appended record returns if and only if the record is in the file; once the loop has ended every wait returns |
| Waits.RunTells | src/oneopen_broker/persistence/aof.py:39-96 | in any run a waiter is told if and only if its number is at most the durable one, the entry that stops the loop is never lost, and when the loop has ended the wait for every record ever appended returns; without always none blocks |
| AofWriters.AofWriter.Append | src/oneopen_broker/persistence/aof.py:39-50 | the method takes the writer from state to state as Aof.Append says, and returns its number or raises |
| AofWriters.AofWriter.TakeBatch | src/oneopen_broker/persistence/aof.py:80-89 | the loop takes everything queued up to the entry that ends it, and puts that entry back |
| AofWriters.AofWriter.DrainQueue | src/oneopen_broker/persistence/aof.py:84-89 | the inner loop: the leading records are taken, in order, and the entry that stops it goes to the back |
| AofWriters.AofWriter.WriteBytes | src/oneopen_broker/persistence/aof.py:90-110 | the joined batch is written at the end of the file and flushed as the policy says |
| AofWriters.AofWriter.CompleteBatch | src/oneopen_broker/persistence/aof.py:92-96 | the method takes the writer to the state of Aof.Complete: the durable number moves to the batch's last, and the batch's waiters are told, exactly those by Waits.CompleteTells |
| AofWriters.AofWriter.TellWaiters | src/oneopen_broker/persistence/aof.py:94-96 | exactly the waiters of the batch's records are told |
| AofWriters.AofWriter.WaitDurable | src/oneopen_broker/persistence/aof.py:52-58 | when it returns and when it goes on waiting |
| AofWriters.AofWriter.Close | src/oneopen_broker/persistence/aof.py:65-67 | the writer is closed and the loop is told to end |
| AofWriters.AofWriter.FlushAndClose | src/oneopen_broker/persistence/aof.py:70-74 | everything written is flushed |
| Frames.Encode | src/oneopen_broker/protocol/frames.py:48-72 | encoding fails exactly when a field does not fit its header |
| Frames.ParseEncoded | src/oneopen_broker/protocol/frames.py:48-141 | a sent frame is read back as it was if and only if its version is the reader's and its size is within the limit |
| Frames.ParseEncodedAll | src/oneopen_broker/protocol/frames.py:94-141 | joined encodings of such frames parse to exactly those frames with nothing left |
| Frames.ParseOneMore | src/oneopen_broker/protocol/frames.py:106-141 | a decision about the head of a buffer does not depend on the bytes that follow |
| Frames.ParseAllMore | src/oneopen_broker/protocol/frames.py:94-104 | a stream is parsed in two halves by parsing the second after what the first left over |
| Frames.ClosedStays | src/oneopen_broker/protocol/frames.py:95-96 | after an error every call raises it again and nothing is delivered |
| Frames.ChunkingIndependent | src/oneopen_broker/protocol/frames.py:94-141 | for every stream and every way to cut it, the calls agree with parsing the whole stream at once |
| Frames.FramesArrive | src/oneopen_broker/protocol/frames.py:48-141 | frames within the limit, joined and cut anywhere, are exactly the frames that arrive, with an empty buffer |
| Frames.LeftoverBounded | src/oneopen_broker/protocol/frames.py:94-141 | after a normal return less than max(28, max_frame_size) bytes are buffered |
| Frames.Layout | src/oneopen_broker/protocol/frames.py:48-72 | where every field of a frame is, and what its checksum covers |
| Frames.ReadIsEncoded | src/oneopen_broker/protocol/frames.py:106-141 | nothing is read as a frame but what encoding writes: the bytes taken off the buffer are the encoding of the frame, with this version and within the limit |
| Frames.AlteredRefused | src/oneopen_broker/protocol/frames.py:106-141 | a frame whose metadata or payload was altered closes the stream, unless its checksum stays the same |
| Frames.FrameReader.Take | src/oneopen_broker/protocol/frames.py:94-104 | the method's loop does what parsing the buffered stream says, and loses the frames of a failing call |
| Frames.FrameReader.TryOne | src/oneopen_broker/protocol/frames.py:106-141 | one frame is taken, more bytes are waited for, or the reader is closed with an error |
| SnapshotFile.AttachStripQueues | src/oneopen_broker/persistence/snapshot.py:28-45 | every message gets its own payload back, for any nesting of queues and messages |
| SnapshotFile.SplitBlob | src/oneopen_broker/persistence/snapshot.py:48-51 | the blob splits into exactly the payloads it was built of, empty ones included |
| SnapshotFile.FileRoundTrip | src/oneopen_broker/persistence/snapshot.py:22-115 | reading back what was written gives the same number and state, whatever follows in the file |
| SnapshotFile.CutIsIgnored | src/oneopen_broker/persistence/snapshot.py:82-96 | a snapshot that was cut short is ignored, wherever it was cut |
| SnapshotFile.Layout | src/oneopen_broker/persistence/snapshot.py:47-68 | where every field of a snapshot file is, and what its checksum covers |
| SnapshotFile.LoadedMatches | src/oneopen_broker/persistence/snapshot.py:77-96 | nothing is loaded whose checksum does not match its bytes |
| SnapshotFile.AlteredIgnored | src/oneopen_broker/persistence/snapshot.py:77-96 | a snapshot whose JSON text or blob was altered is ignored, unless its checksum stays the same |
| SnapshotFile.Extract | src/oneopen_broker/persistence/snapshot.py:28-45 | the loops take out all payloads in order and leave their indices |
| SnapshotFile.JoinBlob | src/oneopen_broker/persistence/snapshot.py:48-51 | the loop joins the length-prefixed payloads |
| SnapshotFile.SplitPayloads | src/oneopen_broker/persistence/snapshot.py:99-105 | the loop takes the blob apart by its length prefixes |
| SnapshotFile.Reattach | src/oneopen_broker/persistence/snapshot.py:106-114 | the loops put every payload back by its index |
| SnapshotFile.WriteSnapshot | src/oneopen_broker/persistence/snapshot.py:22-68 | the file written is header, JSON and blob under one checksum, or an error if a length does not fit |
| SnapshotFile.ReadSnapshot | src/oneopen_broker/persistence/snapshot.py:77-115 | the checks in their order, and what is loaded if they pass |
| QueueEngines.DelayedHeap.Push | src/oneopen_broker/core/delayed.py:14-15 | the heap gains the entry |
| QueueEngines.DelayedHeap.PopDue | src/oneopen_broker/core/delayed.py:17-28 | the loop removes the due entries and returns their messages, earliest first |
| QueueEngines.QueueEngine.constructor | src/oneopen_broker/core/queue.py:90-115 | a new engine is empty |
| QueueEngines.QueueEngine.DeclareQueue | src/oneopen_broker/core/queue.py:124-174 | the method takes the engine to the state of Engine.Declare, dead-letter queue and records included |
| QueueEngines.QueueEngine.DeleteQueue | src/oneopen_broker/core/queue.py:176-186 | the same for Engine.Delete, recursively |
| QueueEngines.QueueEngine.Forget | src/oneopen_broker/core/queue.py:180-181 | the loop takes exactly the queue's ids out of the index |
| QueueEngines.QueueEngine.Enqueue | src/oneopen_broker/core/queue.py:194-231 | the same for Engine.Enqueue, with its three answers |
| QueueEngines.QueueEngine.Reserve | src/oneopen_broker/core/queue.py:233-257 | the loop over outdated entries ends where Engine.Reserve ends |
| QueueEngines.QueueEngine.InflightConsumer | src/oneopen_broker/core/queue.py:259-267 | the consumer that holds the message, if it is in flight |
| QueueEngines.QueueEngine.Ack | src/oneopen_broker/core/queue.py:269-289 | the same for Engine.Ack, with its three answers |
| QueueEngines.QueueEngine.RememberAck | src/oneopen_broker/core/queue.py:591-594 | the newest acknowledgements are remembered, up to the limit |
| QueueEngines.QueueEngine.Nack | src/oneopen_broker/core/queue.py:291-322 | the same for Engine.Nack, with its answers |
| QueueEngines.QueueEngine.RetryOrDead | src/oneopen_broker/core/queue.py:506-529 | the same for Engine.RetryOrDead |
| QueueEngines.QueueEngine.MoveToDlq | src/oneopen_broker/core/queue.py:531-551 | the same for Engine.MoveToDlq |
| QueueEngines.QueueEngine.RecoverConsumer | src/oneopen_broker/core/queue.py:324-339 | the nested loops visit the deliveries of the consumer, each once, in some order, and fail them; all of them unless the queue map grows, and then up to the end of the queue that made it grow, after which the loop raises an error; the number is that of the messages found |
| QueueEngines.QueueEngine.RecoverQueue | src/oneopen_broker/core/queue.py:327-338 | the inner loop does so for one queue and leaves the deliveries of the others alone |
| QueueEngines.QueueEngine.Tick | src/oneopen_broker/core/queue.py:341-346 | the same for Engine.Tick, and the number that it returns |
| QueueEngines.QueueEngine.ReleaseDelayed | src/oneopen_broker/core/queue.py:553-569 | the loop over the due entries ends where Engine.ReleaseDelayed ends, and counts the messages made ready |
| QueueEngines.QueueEngine.TimeoutInflight | src/oneopen_broker/core/queue.py:571-589 | the loop over the visibility heap ends where Engine.TimeoutInflight ends, and counts the deliveries taken back |
| QueueEngines.QueueEngine.DlqRequeue | src/oneopen_broker/core/queue.py:375-403 | the same for Engine.DlqRequeue, success and rollback |
| QueueEngines.QueueEngine.SnapshotState | src/oneopen_broker/core/queue.py:405-447 | the saved state lists every queue and every message once, with its state |
| QueueEngines.QueueEngine.SaveQueue | src/oneopen_broker/core/queue.py:407-425 | the inner loop lists every message of a queue once, with its state |
| QueueEngines.QueueEngine.RestoreState | src/oneopen_broker/core/queue.py:449-495 | the loops end in the state of Snapshot.Restore |
| Recoverer.ApplyRecord | src/oneopen_broker/persistence/recovery.py:36-101 | the method takes engine and router to the state of RouterReplay.RouterApply, record by record |
| Recoverer.RecoverInto | src/oneopen_broker/persistence/recovery.py:104-134 | a new engine and a new router end in the state that snapshot, records and final tick give |
| RouterWorlds.RecoveredEngine | src/oneopen_broker/persistence/recovery.py:104-134 | the engine of that state is the one that the theorems about crashes and restarts speak of, whatever the router does |
| EndToEnd.CrashJoined | src/oneopen_broker/persistence/recovery.py:104-134 | what recovery reads from the bytes that a crash left is a possible crash of the broker's log, and a new writer goes on from there |
| EndToEnd.SystemKeeps | src/oneopen_broker/persistence/aof.py:39-110 | work, routing, writing, snapshots and crashes keep the broker's log and the file in step |
| EndToEnd.CrashAlwaysReady | src/oneopen_broker/persistence/recovery.py:104-134 | whatever file a crash leaves, what it holds can be read, applied and written on from |
| EndToEnd.AwaitedMessageSurvives | src/oneopen_broker/broker/server.py:296-307 | from an empty directory, after any history, a live message that is in the snapshot, or for whose record or a later one a wait has returned, survives a crash at any byte past the flushed ones |
| Consumers.OneTurn | src/oneopen_broker/core/consumers.py:123-126 | the modular index asks every listed consumer within one turn |
| Consumers.RoundsServe | src/oneopen_broker/core/consumers.py:119-139 | the rounds skip the consumers that may not be given a message and serve the next one in turn |
| Deliveries.TryReserveComplete | src/oneopen_broker/core/consumers.py:119-139 | try_reserve gives nothing if and only if no listed consumer is eligible or none is ready; otherwise the first ready message goes to the first eligible one in turn; who is eligible, Rooms.TryReserveRule spells out |
| Deliveries.TryReserveShortens | src/oneopen_broker/broker/handler.py:384-406 | every delivery uses up a ready entry, so draining and pumping end |
| Rooms.TryReserveRule | src/oneopen_broker/core/qos.py:13-16 | try_reserve gives a message if and only if one is ready and some listed consumer is registered and has no positive limit or fewer unacknowledged messages than it; the first such consumer in turn gets the first ready message, its account goes up by one, and no other account or message changes |
| Rooms.RegisterEffect | src/oneopen_broker/core/consumers.py:46-71 | a registered consumer is listed last in each of its queues, which exist, and can be served at once under the prefetch it asked for; no message and no other consumer's room changes |
| Rooms.QosEffect | src/oneopen_broker/core/consumers.py:73-79 | a new limit decides at once whether its consumer has room, and no other's |
| Rooms.QosOfEffect | src/oneopen_broker/broker/handler.py:308-320 | the same for all consumers of a connection, and no others |
| Settling.PumpEffect | src/oneopen_broker/broker/handler.py:384-406 | every account grows by exactly the deliveries its consumer got, each of them sent; pumping ends when nothing is ready or nobody has room, or with the first message that cannot be sent, which counts as a failed delivery and in no account |
| Settling.CmdAckEffect | src/oneopen_broker/broker/handler.py:273-289 | an acknowledged message is gone; its consumer's account is the old one less one plus the deliveries made to it in the command, every other account changes by its own deliveries, and if sends succeed each of the consumer's queues ends without ready messages or without a listed consumer with room |
| Settling.CmdNackEffect | src/oneopen_broker/broker/handler.py:291-306 | the same for a refusal, which sends the message to its retry or its dead-letter queue first |
| Fairness.DrainInTurn | src/oneopen_broker/core/consumers.py:141-148 | a drain hands out all ready messages in order to the listed consumers in turn |
| Fairness.TurnsCounted | src/oneopen_broker/core/consumers.py:123-126 | how often a position has been asked after any number of rounds |
| Fairness.DrainIsFair | src/oneopen_broker/core/consumers.py:141-148 | any two consumers without a limit get numbers of messages that differ by at most one, and nothing stays ready |
| BrokerRuns.TryCovered | src/oneopen_broker/core/consumers.py:119-139 | an attempt to deliver keeps every consumer's deliveries within its account |
| BrokerRuns.PumpCovered | src/oneopen_broker/broker/handler.py:384-406 | so does pumping, although a failed send gives the message back |
| BrokerRuns.CmdAckCovered | src/oneopen_broker/broker/handler.py:273-289 | so does acknowledging, whose exact effect on the accounts is Settling.CmdAckEffect |
| BrokerRuns.CmdNackCovered | src/oneopen_broker/broker/handler.py:291-306 | so does refusing, whose exact effect is Settling.CmdNackEffect |
| BrokerRuns.CancelCovered | src/oneopen_broker/core/consumers.py:81-97 | so does cancelling, except for the deliveries that the cancelled consumer keeps when the cancellation ends in an error |
| BrokerRuns.CancelLeaves | src/oneopen_broker/core/consumers.py:81-97 | a cancelled consumer keeps exactly its deliveries in the queues that were not visited, and so none if no error was raised |
| BrokerRuns.BrokerStepCovered | src/oneopen_broker/core/consumers.py:46-148 | so does every step of the broker, timeouts, deletions and cancellations that end in an error included; the last leave a debt of what the consumer keeps |
| BrokerRuns.StepLimited | src/oneopen_broker/core/qos.py:13-29 | no step lifts an account above the largest limit |
| BrokerRuns.PrefetchSafety | src/oneopen_broker/core/qos.py:13-29 | after any run that never lifts a consumer's limit, its account is at most the largest limit it had, and what it holds across all queues at most its account and the debt that its failed cancellations left; if none failed, there is no debt and an unregistered consumer holds nothing |
| BrokerInv.BrokerStepInv | src/oneopen_broker/broker/handler.py:203-320 | delivering, settling, registering and cancelling, with or without an error, keep the engine's invariant |
| BrokerInv.BrokerRunInv | src/oneopen_broker/broker/handler.py:203-406 | no run of the broker strands or duplicates a message, failed cancellations included |
| Disconnects.BrokerStepLinked | src/oneopen_broker/core/consumers.py:46-105 | after every step, even a cancellation that ends in an error, the lists name registered consumers of their queue, each once, and consumers and connections refer to each other |
| Disconnects.RunLinked | src/oneopen_broker/core/consumers.py:46-105 | and so after every run |
| Disconnects.DisconnectPlaces | src/oneopen_broker/core/consumers.py:99-105 | every message whose delivery was reached goes where the loss of its own consumer sends it, and every other message stays, whether the loop ends in an error or not |
| Disconnects.CancelStopsIff | src/oneopen_broker/core/consumers.py:81-97 | cancelling a consumer ends in an error if and only if it holds a delivery of a message that dies now in a queue whose dead-letter queue is missing |
| Disconnects.CancelLists | src/oneopen_broker/core/consumers.py:91-94 | a cancelled consumer is out of every list it was in, the others keep their order, and no list or index changes otherwise |
| Disconnects.DisconnectStopsIff | src/oneopen_broker/core/consumers.py:99-105 | losing a connection ends in an error if and only if one of its consumers holds such a delivery |
| Disconnects.DisconnectLeaves | src/oneopen_broker/core/consumers.py:99-105 | after the error the consumers whose turn did not come stay registered with the connection and keep their deliveries, and the one whose cancellation failed is unregistered and keeps its deliveries in the queues not visited |
| LostConsumers.CancelStopsReached | src/oneopen_broker/core/queue.py:324-339 | a run of a new broker that declares two queues, deletes a dead-letter queue, registers, publishes, delivers and cancels: the cancellation raises the error and an unregistered consumer holds a delivery |
| Disconnects.DisconnectLosesNothing | src/oneopen_broker/core/consumers.py:99-105 | if no consumer of the connection holds a message that dies now in a queue whose dead-letter queue is missing, no error is raised, nothing refers to the lost connection, and what it held is delayed in its queue or ready in its dead-letter queue, or dropped only if its attempts are used up in a queue without dead letters |
| ConsumerManagers.ConsumerManager.Register | src/oneopen_broker/core/consumers.py:46-71 | the method takes the registry and the engine to the state of Consumers.Register |
| ConsumerManagers.ConsumerManager.Qos | src/oneopen_broker/core/consumers.py:73-79 | the same for Consumers.Qos |
| ConsumerManagers.ConsumerManager.OnAck | src/oneopen_broker/core/consumers.py:113-117 | the account goes down by one if it can |
| ConsumerManagers.ConsumerManager.Cancel | src/oneopen_broker/core/consumers.py:81-97 | the same for Consumers.Cancel, with the deliveries that recover_consumer takes back: all of the consumer's, or those visited before an error, which is raised exactly if the queue map grew |
| ConsumerManagers.ConsumerManager.DisconnectConnection | src/oneopen_broker/core/consumers.py:99-105 | the loop cancels the connection's consumers as Disconnects.Disconnect says and counts them: all of them, or those up to the first whose cancellation raises an error |
| ConsumerManagers.ConsumerManager.TryReserve | src/oneopen_broker/core/consumers.py:119-139 | the same for Consumers.TryReserve |
| ConsumerManagers.ConsumerManager.DrainQueue | src/oneopen_broker/core/consumers.py:141-148 | the same for Deliveries.Drain, and the loop ends |
| ConsumerManagers.Handler.PumpQueue | src/oneopen_broker/broker/handler.py:384-406 | the same for Deliveries.Pump, and the loop ends |
| ConsumerManagers.Handler.CmdAck | src/oneopen_broker/broker/handler.py:273-289 | the same for Deliveries.CmdAck |
| ConsumerManagers.Handler.CmdNack | src/oneopen_broker/broker/handler.py:291-306 | the same for Deliveries.CmdNack |
| Routing.SortedOnce | src/oneopen_broker/core/routing.py:98-110 | the targets of a publish are determined: a set of names has one sorted list |
| Routing.BeforeMeaning | src/oneopen_broker/core/routing.py:98-110 | the order of the targets is the alphabetical one, character by character |
| Routing.FanOutPlaces | src/oneopen_broker/core/routing.py:137-158 | a publish adds one new copy, its fields written out, to exactly those targets that exist and come before the first full one, moves nothing else, lists them, and reports a full queue exactly when it met one |
| Routing.FanOutLast | src/oneopen_broker/core/routing.py:137-158 | the id answered is that of the copy a full queue refused, or else of the last copy |
| Routing.DirectPublishBound | src/oneopen_broker/core/routing.py:125-131 | a publish that names a queue and no exchange reaches it if and only if the queue is bound to the default exchange under the routing key, or is missing, and so declared and bound, and the key is its name |
| Routing.DeadLettersUnbound | src/oneopen_broker/core/routing.py:125-131 | a dead-letter queue that came with its queue is bound to nothing: a publish that names it does not reach it |
| Routing.TargetsDiffer | src/oneopen_broker/core/routing.py:98-110 | a message goes to each bound queue once |
| Routing.PublishPlaces | src/oneopen_broker/core/routing.py:112-158 | a whole publish with new ids: each queue bound to the exchange, by any key for a fanout and by the message's key for a direct one, that exists, up to the first full one, gets one copy, ready, whose payload, priority, headers, exchange, key, attempt limit and other fields are written out; no other message moves; if it reports success the queues it lists are exactly the bound ones that exist |
| Routing.RoutingEngine.RouteTargets | src/oneopen_broker/core/routing.py:98-110 | the sorted list of the bound queues, each once |
| Routing.RoutingEngine.Delete | src/oneopen_broker/core/routing.py:44-53 | the exchange and its bindings go, unless it is the default one or unknown |
| Routing.RoutingEngine.Bind | src/oneopen_broker/core/routing.py:55-74 | binding is refused if the exchange or the queue is missing |
| Routing.RoutingEngine.Unbind | src/oneopen_broker/core/routing.py:76-93 | unbinding is refused if there is no such binding |
| Routing.RoutingEngine.PrepareTarget | src/oneopen_broker/core/routing.py:125-131 | a publish that names only a queue declares and binds it if need be, and goes through the default exchange |
| Routing.RoutingEngine.Publish | src/oneopen_broker/core/routing.py:112-158 | the method ends in the state and with the answer of Routing.PublishTo, of which Routing.PublishPlaces and Routing.FanOutLast speak |
| Routing.RoutingEngine.Send | src/oneopen_broker/core/routing.py:139-158 | the loop stops at the first full queue and skips bindings whose queue is gone |
| Routing.RoutingEngine.SnapshotState | src/oneopen_broker/core/routing.py:160-170 | the saved state lists exactly the exchanges and the bindings |
| Routing.RoutingEngine.RestoreState | src/oneopen_broker/core/routing.py:172-189 | the loops end in the state of Routing.RestoreRouter |
| RouterReplay.RouterApplyEngine | src/oneopen_broker/persistence/recovery.py:36-101 | what a record does to the engine does not depend on the router |
| RouterReplay.RouterJournals | src/oneopen_broker/core/routing.py:24-96 | every operation of the router writes one record or none, and that record is one that the recovery theorems allow |
| RouterReplay.StepFollows | src/oneopen_broker/persistence/recovery.py:36-101 | every live operation, on the engine or the router, keeps the replaying router in step once its records are replayed |
| RouterReplay.RouterSurvives | src/oneopen_broker/persistence/recovery.py:36-101 | after any run, replaying the whole journal gives the same exchanges and every binding; anything more is the binding of a queue under its own name to the default exchange, and RouterBindings.AddedBindings says which |
| RouterReplay.DeadLettersBound | src/oneopen_broker/persistence/recovery.py:51 | it can have more: replay binds dead-letter queues, which the live router does not |
| RouterReplay.RouterRoundTrip | src/oneopen_broker/core/routing.py:160-189 | restoring a snapshot gives back every exchange and exactly those bindings whose queue exists |
| RouterReplay.SavedFollowsIff | src/oneopen_broker/core/routing.py:160-189 | the restored router has every binding if and only if no binding was left of a deleted queue |
| RouterReplay.RevivedBindingLost | src/oneopen_broker/core/routing.py:172-189 | a binding whose queue is deleted, and declared again after a snapshot, works in the live router and is missing after a restart |
| RouterReplay.RevivedBindingReached | src/oneopen_broker/core/routing.py:55-74 | a new broker gets there by declaring a queue, creating an exchange, binding them and deleting the queue |
| RouterBindings.ApplyBinds | src/oneopen_broker/persistence/recovery.py:36-101 | after one record a binding is there if and only if it was there and the record does not take it, or the record brings it: a declaration, a publish to a missing queue, or the binding itself |
| RouterBindings.ReplayBindings | src/oneopen_broker/persistence/recovery.py:126-131 | after any list of records a binding is there if and only if it was there or some record brought it, and no record from then on removes it or deletes its exchange |
| RouterBindings.LiveBindings | src/oneopen_broker/core/routing.py:44-93 | after any run the live router has a binding if and only if its journal has a BIND record of it and none since that removes it or deletes its exchange |
| RouterBindings.LiveExchanges | src/oneopen_broker/core/routing.py:24-53 | after any run an exchange of a kind and durability is there if and only if it is the default one, or the journal has a record that makes it so and none since that deletes it |
| RouterBindings.AddedBindings | src/oneopen_broker/persistence/recovery.py:36-101 | the bindings that replaying the whole journal adds are exactly those of the queues that a record declares, under their own name, unless a later record removes them |
| RouterBindings.SameBindingsIff | src/oneopen_broker/persistence/recovery.py:36-101 | replaying gives back the same bindings if and only if the live router has all of these too |
| RouterWorlds.BackAlike | src/oneopen_broker/persistence/recovery.py:104-134 | two recoveries of one disk at different times give the same exchanges and bindings |
| RouterWorlds.IncidentOk | src/oneopen_broker/persistence/recovery.py:104-134 | every operation of engine and router, flush, snapshot, and crash with a torn log keeps the recovery of the whole log in step with the live router, up to the bindings that a snapshot could not keep |
| RouterWorlds.RouterLasts | src/oneopen_broker/persistence/recovery.py:104-134 | over any number of lifetimes, recovering the whole log gives back every exchange, and of the bindings that are not a queue's own exactly the live ones that were not left of a deleted queue at the last snapshot, or were made again or recovered since; own bindings come back too, and more of them may |
| RouterWorlds.RecoveredBindings | src/oneopen_broker/persistence/recovery.py:104-134 | exactly which bindings a recovery has, whatever snapshot and log are |

## Left out

- Queues, messages, deliveries, consumers and their prefetch accounts are values in the maps of the objects
  that own them; that several references to one such object see each other's updates is not modelled.
- Every operation sees one clock reading, where the program may read the clock several times within it.
- Places.EnqueuePlace: publishes are proved for new ids, as generated ids are; an id that a client supplies twice overwrites a stored message and is not covered.
- BrokerRuns.BrokerStepCovered: a consumer id is registered at most once at a time; registering a live id again resets its account.
- Snapshot.RoundTrip: due times are positive, because a due time of zero counts as missing when a snapshot is restored.
- Worlds.AtLeastOnce: queues are unbounded and a requeue under a doubly suffixed name is made only if the plain queue keeps dead letters; Recovery.PublishSim and Recovery.RequeueSim give the exact conditions, and module Limits what happens otherwise.
- Recoverer.ApplyRecord: an exchange of a kind other than direct or fanout, which the broker never writes and on which it would not start, is read as a direct one; reading the files and cutting the log are in TornLog and SnapshotFile.
- EndToEnd.SystemKeeps: work on a closed writer, whose appends are dropped, is not among the system's steps.
- The configuration is the same in every lifetime.
- Aof.StepKeeps: errors of the operating system while writing are not modelled, nor is the time between flushes under `everysec`; whether a flush is due is a parameter.
- Flushes make everything written so far durable, and replacing the snapshot file is atomic and durable.
- The outcome of each send is given to the pump; frames for deliveries, connections and their buffers are not modelled.
- Heaps are lists in the order in which pops would return their entries; the array layout of `heapq` is not modelled.
- The limit on remembered acknowledgements is not negative.
- Sockets, the asyncio server, TLS, signals, the command line, the Celery transport, the clients, configuration, metrics, introspection, authentication and access control, and Pub/Sub: input and output, or flat tables that would only add easy members.
- `dlq_info` and `queue_info`, and the list of dead ids that only they read: reports without a property of their own.
