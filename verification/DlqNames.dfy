/** Dead-letter queue naming: a queue's dead letters go to the queue named with a suffix. */
module DlqNames {

  const SUFFIX: string := ".DLQ"

  predicate IsDlq(queue: string) {
    |queue| >= |SUFFIX| && queue[|queue| - |SUFFIX|..] == SUFFIX
  }

  function DlqName(queue: string): (dlq: string)
    ensures IsDlq(dlq)
    ensures dlq == queue <==> IsDlq(queue)
    ensures !IsDlq(queue) ==> OriginQueue(dlq) == queue
  {
    if IsDlq(queue) then queue
    else
      var r := queue + SUFFIX;
      assert r[|r| - |SUFFIX|..] == SUFFIX;
      assert r[..|r| - |SUFFIX|] == queue;
      r
  }

  function OriginQueue(queue: string): (origin: string)
    ensures !IsDlq(queue) ==> origin == queue
    ensures IsDlq(queue) ==> origin + SUFFIX == queue && |origin| < |queue|
  {
    if IsDlq(queue) then queue[..|queue| - |SUFFIX|] else queue
  }

  /** Naming a dead-letter queue and asking for its origin undo each other, on every name whose
      origin is an ordinary queue; and no two ordinary queues share a dead-letter queue. */
  lemma DlqNameRoundTrip(queue: string, other: string)
    requires !IsDlq(OriginQueue(queue))
    ensures DlqName(OriginQueue(queue)) == DlqName(queue)
    ensures OriginQueue(DlqName(queue)) == OriginQueue(queue)
    ensures !IsDlq(queue) && !IsDlq(other) && DlqName(queue) == DlqName(other) ==> queue == other
  {
    if IsDlq(queue) {
      assert DlqName(OriginQueue(queue)) == OriginQueue(queue) + SUFFIX;
    }
  }

  /** A doubly suffixed name is its own dead-letter queue: its origin is a dead-letter queue too, so a
      requeue on that name starts and ends in the same queue. */
  lemma DoubleSuffix(queue: string)
    ensures IsDlq(OriginQueue(queue)) <==> DlqName(OriginQueue(queue)) == OriginQueue(queue)
    ensures IsDlq(OriginQueue(queue)) ==> IsDlq(queue)
  {
  }
}
