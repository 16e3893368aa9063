/**
  The polling loop of a cluster health checker
  (cluster-api/controllers/remote/cluster_cache_tracker.go, healthCheckCluster).

  A run of the loop is fed the sequence of observations its polls make; the end of the
  sequence stands for the cancellation of the cache context.
 */
module HealthCheck {

  const DEFAULT_UNHEALTHY_THRESHOLD: int := 10

  /** What one poll finds out, in the order the closure asks. */
  datatype Poll =
    | ClusterNotFound     // the Cluster object is gone
    | ClusterNotReady     // the Cluster could not be read, or is not initialised yet
    | AccessorLocked      // no accessor, but somebody holds the cluster lock
    | AccessorGone        // no accessor and the lock was free
    | ProbeOk
    | ProbeUnauthorized
    | ProbeError

  /** The (bool, error) pair the closure hands to the poller: `failed` is a non-nil error. */
  datatype Return = Return(done: bool, failed: bool)

  const KEEP_POLLING := Return(false, false)

  function EffectiveThreshold(threshold: int): int {
    if threshold == 0 then DEFAULT_UNHEALTHY_THRESHOLD else threshold
  }

  /** The counter after a poll; only a probe that ran and was not rejected touches it. */
  function CountAfter(count: int, p: Poll): int {
    match p
    case ProbeOk => 0
    case ProbeError => count + 1
    case _ => count
  }

  /** What the closure returns for poll `p` once the counter stands at `count`. */
  function Outcome(count: int, p: Poll, threshold: int): Return {
    match p
    case ClusterNotFound | ProbeUnauthorized => Return(false, true)
    case ClusterNotReady | AccessorLocked => KEEP_POLLING
    case AccessorGone => Return(true, false)
    case ProbeOk | ProbeError => if count >= threshold then Return(false, p.ProbeError?) else KEEP_POLLING
  }

  /** Positions of the failed probes that no later successful probe has wiped out. */
  function UnhealedFailures(polls: seq<Poll>): set<int> {
    set i | 0 <= i < |polls| && polls[i].ProbeError? && (forall j :: i <= j < |polls| ==> !polls[j].ProbeOk?)
  }

  /** The counter after a whole sequence of polls. */
  function CountOver(polls: seq<Poll>): int {
    if polls == [] then 0 else CountAfter(CountOver(polls[..|polls| - 1]), polls[|polls| - 1])
  }

  lemma OneMorePoll(polls: seq<Poll>)
    requires polls != [] && !polls[|polls| - 1].ProbeOk?
    ensures UnhealedFailures(polls) ==
      UnhealedFailures(polls[..|polls| - 1]) + if polls[|polls| - 1].ProbeError? then {|polls| - 1} else {}
  {
  }

  /** The counter is the number of failed probes since the last successful one. */
  lemma {:induction false} CounterCountsUnhealedFailures(polls: seq<Poll>)
    ensures CountOver(polls) == |UnhealedFailures(polls)|
  {
    if polls == [] {
      assert UnhealedFailures(polls) == {};
    } else {
      var last := |polls| - 1;
      var front := polls[..last];
      CounterCountsUnhealedFailures(front);
      match polls[last] {
        case ProbeOk =>
          assert UnhealedFailures(polls) == {};
        case _ =>
          OneMorePoll(polls);
      }
    }
  }

  /** Poll `i` ends the loop. */
  ghost predicate EndsAt(polls: seq<Poll>, i: int, threshold: int)
    requires 0 <= i < |polls|
  {
    Outcome(CountOver(polls[..i + 1]), polls[i], threshold) != KEEP_POLLING
  }

  /** The unhealthy count has reached the threshold at poll `i`. */
  ghost predicate ThresholdReachedAt(polls: seq<Poll>, i: int, threshold: int)
    requires 0 <= i < |polls|
  {
    |UnhealedFailures(polls[..i + 1])| >= threshold
  }

  /** As long as the loop runs with a positive threshold, the counter stays below it. */
  lemma {:induction false} BelowThresholdWhilePolling(polls: seq<Poll>, n: nat, threshold: int)
    requires 1 <= threshold && n <= |polls|
    requires forall i :: 0 <= i < n ==> !EndsAt(polls, i, threshold)
    ensures 0 <= CountOver(polls[..n]) < threshold
  {
    if n == 0 {
    } else {
      BelowThresholdWhilePolling(polls, n - 1, threshold);
      assert polls[..n][..n - 1] == polls[..n - 1];
      assert !EndsAt(polls, n - 1, threshold);
    }
  }

  /**
    With a positive threshold, the first poll at which the number of unhealed failures reaches it ends
    the loop, that poll is a failed probe, and the loop is left with a non-nil error.
    Conversely a failed probe ends the loop only there.
   */
  lemma ThresholdExit(polls: seq<Poll>, i: nat, threshold: int)
    requires 1 <= threshold && i < |polls|
    requires forall j :: 0 <= j < i ==> !EndsAt(polls, j, threshold)
    ensures forall j :: 0 <= j < i ==> !ThresholdReachedAt(polls, j, threshold)
    ensures ThresholdReachedAt(polls, i, threshold) <==> (EndsAt(polls, i, threshold) && polls[i].ProbeError?)
    ensures ThresholdReachedAt(polls, i, threshold)
        ==> Outcome(CountOver(polls[..i + 1]), polls[i], threshold) == Return(false, true)
    ensures ThresholdReachedAt(polls, i, threshold) ==> |UnhealedFailures(polls[..i + 1])| == threshold
  {
    BelowThresholdWhilePolling(polls, i, threshold);
    assert polls[..i + 1][..i] == polls[..i];
    CounterCountsUnhealedFailures(polls[..i + 1]);
    forall j | 0 <= j < i ensures !ThresholdReachedAt(polls, j, threshold) {
      BelowThresholdWhilePolling(polls, j + 1, threshold);
      CounterCountsUnhealedFailures(polls[..j + 1]);
    }
  }

  /**
    A negative threshold is accepted by the code (only zero is replaced): then every failed probe ends
    the loop and no successful one does, since the error returned with it is nil.
   */
  lemma NegativeThreshold(polls: seq<Poll>, i: nat, threshold: int)
    requires threshold < 0 && i < |polls|
    ensures polls[i].ProbeError? ==> EndsAt(polls, i, threshold)
    ensures polls[i].ProbeOk? ==> !EndsAt(polls, i, threshold)
  {
    CounterCountsUnhealedFailures(polls[..i + 1]);
  }

  /**
    The loop itself. `polled` polls are made; the loop stops at the first poll that ends it, or when the
    context is cancelled after the last one, and the counter is the number of unhealed failures.
   */
  method HealthCheckCluster(polls: seq<Poll>, threshold: int) returns (polled: nat, unhealthyCount: int, ret: Return)
    ensures polled <= |polls|
    ensures unhealthyCount == |UnhealedFailures(polls[..polled])|
    ensures forall i :: 0 <= i < polled - 1 ==> !EndsAt(polls, i, EffectiveThreshold(threshold))
    ensures ret == KEEP_POLLING ==> polled == |polls|
    ensures ret != KEEP_POLLING ==> polled > 0 && EndsAt(polls, polled - 1, EffectiveThreshold(threshold))
    ensures polled > 0 && !EndsAt(polls, polled - 1, EffectiveThreshold(threshold)) ==> ret == KEEP_POLLING
    ensures ret.failed <==> (polled > 0 &&
      (|| polls[polled - 1].ClusterNotFound?
       || polls[polled - 1].ProbeUnauthorized?
       || (polls[polled - 1].ProbeError? && unhealthyCount >= if threshold == 0 then 10 else threshold)))
    ensures ret.done <==> polled > 0 && polls[polled - 1].AccessorGone?
  {
    var unhealthyThreshold := threshold;
    if unhealthyThreshold == 0 {
      unhealthyThreshold := DEFAULT_UNHEALTHY_THRESHOLD;
    }
    unhealthyCount := 0;
    polled := 0;
    ret := KEEP_POLLING;
    while polled < |polls| && ret == KEEP_POLLING
      invariant polled <= |polls|
      invariant unhealthyCount == CountOver(polls[..polled])
      invariant forall i :: 0 <= i < polled - 1 ==> !EndsAt(polls, i, unhealthyThreshold)
      invariant polled == 0 ==> ret == KEEP_POLLING
      invariant polled > 0 ==> ret == Outcome(CountOver(polls[..polled]), polls[polled - 1], unhealthyThreshold)
      decreases |polls| - polled, ret == KEEP_POLLING
    {
      assert polls[..polled + 1][..polled] == polls[..polled];
      assert CountOver(polls[..polled + 1]) == CountAfter(CountOver(polls[..polled]), polls[polled]);
      assert polled > 0 ==> !EndsAt(polls, polled - 1, unhealthyThreshold);
      match polls[polled] {
        case ClusterNotFound =>
          ret := Return(false, true);
        case ClusterNotReady =>
        case AccessorLocked =>
        case AccessorGone =>
          ret := Return(true, false);
        case ProbeUnauthorized =>
          ret := Return(false, true);
        case _ =>
          var failed := polls[polled].ProbeError?;
          if failed {
            unhealthyCount := unhealthyCount + 1;
          } else {
            unhealthyCount := 0;
          }
          if unhealthyCount >= unhealthyThreshold {
            ret := Return(false, failed);
          }
      }
      polled := polled + 1;
    }
    CounterCountsUnhealedFailures(polls[..polled]);
  }
}
