/**
 * The retry policy `flush` applies when a delivery fails: the failed batch is
 * put back at the front of the buffer while the buffer is short and failures
 * are under the ceiling, the buffer is emptied once the ceiling is reached,
 * and otherwise the failed batch is dropped.
 */
module EventBuffer {
  import opened Sequences

  /** `maxFailures`: the failure count from which the buffer is discarded. */
  const MaxFailures: nat := 3
  /** The buffer length under which a failed batch is put back. */
  const MaxQueue: nat := 1000

  /**
   * The buffer after a failed delivery of `batch`, given the buffer `current`
   * (the events captured while the request was in flight) and the failure
   * count `failures` after it was incremented.
   */
  function AfterFailure<E>(current: seq<E>, batch: seq<E>, failures: nat): (r: seq<E>)
    ensures failures >= MaxFailures ==> r == []
    ensures failures < MaxFailures && batch + current != [] ==> r != []
    ensures failures < MaxFailures ==> |r| >= |current| && r[|r| - |current|..] == current
  {
    if |current| < MaxQueue && failures < MaxFailures then batch + current
    else if failures >= MaxFailures then []
    else current
  }

  /** Below both limits the failed batch is retried ahead of every newer event. */
  lemma FailedBatchRequeued<E>(current: seq<E>, batch: seq<E>, failures: nat)
    requires |current| < MaxQueue && failures < MaxFailures
    ensures AfterFailure(current, batch, failures) == batch + current
  {
  }

  /** At or past the failure ceiling every buffered event is discarded. */
  lemma CeilingEmptiesBuffer<E>(current: seq<E>, batch: seq<E>, failures: nat)
    requires failures >= MaxFailures
    ensures AfterFailure(current, batch, failures) == []
  {
  }

  /** With a long buffer and failures under the ceiling, the failed batch is lost and newer events stay. */
  lemma LongBufferDropsBatch<E>(current: seq<E>, batch: seq<E>, failures: nat)
    requires |current| >= MaxQueue && failures < MaxFailures
    ensures AfterFailure(current, batch, failures) == current
  {
  }

  /**
   * A failure never invents or duplicates an event and never reorders: the new
   * buffer is an order-preserving selection of the failed batch followed by
   * the newer events.
   */
  lemma {:induction false} FailureKeepsOrder<E>(current: seq<E>, batch: seq<E>, failures: nat)
    ensures IsSubsequence(AfterFailure(current, batch, failures), batch + current)
    ensures |AfterFailure(current, batch, failures)| <= |batch| + |current|
  {
    var r := AfterFailure(current, batch, failures);
    if r == batch + current {
      SubsequenceReflexive(r);
    } else if r == current {
      SuffixIsSubsequence(batch, current);
    }
    SubsequenceElements(r, batch + current);
  }

  /** A failure keeps at most as many copies of each event as the batch and the buffer held. */
  lemma FailureInventsNothing<E>(current: seq<E>, batch: seq<E>, failures: nat)
    ensures multiset(AfterFailure(current, batch, failures)) <= multiset(batch) + multiset(current)
  {
  }

  /** Below the ceiling no event captured during the failed request is lost: they stay at the tail. */
  lemma NewerEventsSurviveBelowCeiling<E>(current: seq<E>, batch: seq<E>, failures: nat)
    requires failures < MaxFailures
    ensures var r := AfterFailure(current, batch, failures);
            |r| >= |current| && r[|r| - |current|..] == current
  {
  }

  /**
   * The queue limit is checked against the buffer before the batch goes back,
   * so a put-back can take the buffer past 1000 events, by less than the batch.
   */
  lemma RequeueBound<E>(current: seq<E>, batch: seq<E>, failures: nat)
    requires failures < MaxFailures && |current| < MaxQueue
    ensures |AfterFailure(current, batch, failures)| < MaxQueue + |batch|
  {
  }

  /** A buffer of 999 events and a failed batch of 2 give a buffer of 1001 events. */
  lemma RequeueCanExceedQueueLimit()
    ensures |AfterFailure(seq(999, i => 0), [1, 2], 1)| == 1001
  {
  }
}
