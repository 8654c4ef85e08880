/**
 * The completion detector: one pod query classified by the status of the
 * container named "main", and the retry wrapper that repeats it.
 */
module Detector {
  import opened Outcomes

  /** The name of the watched container; hard-coded, not configured. */
  const TargetName: string := "main"

  /** The reason the Kubernetes API gives for a conflicting update. */
  const ConflictReason: string := "Conflict"

  /** One entry of the pod's container statuses: its name and whether its Terminated state is set. */
  datatype ContainerStatus = ContainerStatus(name: string, terminated: bool)

  /** An error returned by the Kubernetes API, identified by its status reason. */
  datatype ApiError = ApiError(reason: string)

  /** The result of one pod `Get`: the API error, or the pod's container statuses in order. */
  datatype PodQuery = QueryFailed(err: ApiError) | PodStatus(statuses: seq<ContainerStatus>)

  /** The three ways one completion check can fail. */
  datatype DetectError = QueryError(cause: ApiError) | NotYetCompleted | NotFound

  /** Some entry of the list is named after the target. */
  ghost predicate HasTarget(statuses: seq<ContainerStatus>)
  {
    exists i :: 0 <= i < |statuses| && statuses[i].name == TargetName
  }

  /** `i` is the index of the first entry named after the target. */
  ghost predicate FirstTarget(statuses: seq<ContainerStatus>, i: int)
  {
    && 0 <= i < |statuses|
    && statuses[i].name == TargetName
    && forall j :: 0 <= j < i ==> statuses[j].name != TargetName
  }

  /** The first entry named after the target has terminated. */
  ghost predicate FirstTargetTerminated(statuses: seq<ContainerStatus>)
  {
    exists i :: FirstTarget(statuses, i) && statuses[i].terminated
  }

  /** The first entry named after the target has not terminated. */
  ghost predicate FirstTargetRunning(statuses: seq<ContainerStatus>)
  {
    exists i :: FirstTarget(statuses, i) && !statuses[i].terminated
  }

  /**
   * The in-order search of the status list for the target: the first match
   * decides, terminated or not; no match means "not found".
   */
  function ScanStatuses(statuses: seq<ContainerStatus>): (r: Outcome<DetectError>)
    ensures r.Pass? || r == Fail(NotYetCompleted) || r == Fail(NotFound)
    ensures r == Fail(NotFound) <==> !HasTarget(statuses)
  {
    if statuses == [] then
      Fail(NotFound)
    else if statuses[0].name == TargetName then
      if statuses[0].terminated then Pass else Fail(NotYetCompleted)
    else
      assert HasTarget(statuses) ==> statuses[1..][FirstIndexAfterHead(statuses)].name == TargetName;
      ScanStatuses(statuses[1..])
  }

  /** A witness for `HasTarget` shifted past a non-target head; ghost helper for the proof above. */
  ghost function FirstIndexAfterHead(statuses: seq<ContainerStatus>): (k: nat)
    requires |statuses| > 0 && statuses[0].name != TargetName && HasTarget(statuses)
    ensures k < |statuses| - 1 && statuses[k + 1].name == TargetName
  {
    var i :| 0 <= i < |statuses| && statuses[i].name == TargetName; i - 1
  }

  /** One completion check: a failed query is returned unchanged, otherwise the status list is scanned. */
  function CheckCompletion(q: PodQuery): (r: Outcome<DetectError>)
    ensures q.QueryFailed? ==> r == Fail(QueryError(q.err))
    ensures q.PodStatus? ==> r.Pass? || r == Fail(NotYetCompleted) || r == Fail(NotFound)
    ensures r.Pass? <==> q.PodStatus? && FirstTargetTerminated(q.statuses)
    ensures q.PodStatus? ==> (r == Fail(NotYetCompleted) <==> FirstTargetRunning(q.statuses))
    ensures q.PodStatus? ==> (r == Fail(NotFound) <==> !HasTarget(q.statuses))
  {
    match q
    case QueryFailed(e) => Fail(QueryError(e))
    case PodStatus(statuses) =>
      ScanFindsFirstTarget(statuses);
      ScanStatuses(statuses)
  }

  /** Shifting the first-target index past a non-target head. */
  lemma FirstTargetTail(statuses: seq<ContainerStatus>, i: int)
    requires |statuses| > 0 && statuses[0].name != TargetName
    ensures FirstTarget(statuses, i) <==> i >= 1 && FirstTarget(statuses[1..], i - 1)
  {
  }

  /**
   * The scan succeeds exactly when the first target entry has terminated, and
   * reports "not yet completed" exactly when the first target entry has not.
   */
  lemma {:induction false} ScanFindsFirstTarget(statuses: seq<ContainerStatus>)
    ensures ScanStatuses(statuses).Pass? <==> FirstTargetTerminated(statuses)
    ensures ScanStatuses(statuses) == Fail(NotYetCompleted) <==> FirstTargetRunning(statuses)
  {
    if statuses == [] {
    } else if statuses[0].name == TargetName {
      assert FirstTarget(statuses, 0);
      forall i | FirstTarget(statuses, i) ensures i == 0 { }
    } else {
      var tail := statuses[1..];
      ScanFindsFirstTarget(tail);
      forall i ensures FirstTarget(statuses, i) <==> i >= 1 && FirstTarget(tail, i - 1) {
        FirstTargetTail(statuses, i);
      }
      if exists i :: FirstTarget(tail, i) && tail[i].terminated {
        var i :| FirstTarget(tail, i) && tail[i].terminated;
        assert FirstTarget(statuses, i + 1);
      }
      if exists i :: FirstTarget(tail, i) && !tail[i].terminated {
        var i :| FirstTarget(tail, i) && !tail[i].terminated;
        assert FirstTarget(statuses, i + 1);
      }
    }
  }

  /** The entries named after the target, in their original order. */
  function TargetEntries(statuses: seq<ContainerStatus>): (r: seq<ContainerStatus>)
  {
    if statuses == [] then []
    else if statuses[0].name == TargetName then [statuses[0]] + TargetEntries(statuses[1..])
    else TargetEntries(statuses[1..])
  }

  /** Entries with other names never influence the scan: dropping them all leaves its result unchanged. */
  lemma {:induction false} ScanIgnoresOtherContainers(statuses: seq<ContainerStatus>)
    ensures ScanStatuses(statuses) == ScanStatuses(TargetEntries(statuses))
  {
    if statuses != [] && statuses[0].name != TargetName {
      ScanIgnoresOtherContainers(statuses[1..]);
    }
  }

  /** Only the first match is examined: once the list holds a target entry, anything appended is ignored. */
  lemma {:induction false} ScanStopsAtFirstMatch(statuses: seq<ContainerStatus>, later: seq<ContainerStatus>)
    requires HasTarget(statuses)
    ensures ScanStatuses(statuses + later) == ScanStatuses(statuses)
  {
    assert statuses != [];
    if statuses[0].name != TargetName {
      var k := FirstIndexAfterHead(statuses);
      assert statuses[1..][k].name == TargetName;
      assert (statuses + later)[1..] == statuses[1..] + later;
      ScanStopsAtFirstMatch(statuses[1..], later);
    }
  }

  /** The retry predicate client-go's RetryOnConflict uses: only an API Conflict error is retried. */
  predicate IsConflict(e: DetectError)
  {
    e.QueryError? && e.cause.reason == ConflictReason
  }

  /** A pod query that failed with an API Conflict. */
  predicate IsConflictQuery(q: PodQuery)
  {
    q.QueryFailed? && q.err.reason == ConflictReason
  }

  /** What the retry wrapper returns and how many checks it ran. */
  datatype Detection = Detection(outcome: Outcome<DetectError>, attempts: nat)

  /**
   * The retry wrapper over the outcomes the successive checks would produce:
   * it stops at the first success or non-retriable error, and otherwise
   * returns the last retriable error once the attempts are used up.
   */
  function Retry(outcomes: seq<Outcome<DetectError>>, retriable: DetectError -> bool): (d: Detection)
    requires |outcomes| >= 1
    ensures 1 <= d.attempts <= |outcomes|
    ensures d.outcome == outcomes[d.attempts - 1]
    ensures forall j :: 0 <= j < d.attempts - 1 ==> outcomes[j].Fail? && retriable(outcomes[j].error)
    ensures d.attempts < |outcomes| ==> d.outcome.Pass? || !retriable(d.outcome.error)
    decreases |outcomes|
  {
    if |outcomes| == 1 || outcomes[0].Pass? || !retriable(outcomes[0].error) then
      Detection(outcomes[0], 1)
    else
      var rest := Retry(outcomes[1..], retriable);
      Detection(rest.outcome, rest.attempts + 1)
  }

  /**
   * The wrapper's result is fixed by where it stops: after `n` checks when the
   * first `n - 1` failed retriably and the n-th either ended the search or
   * used the last attempt.
   */
  lemma RetryStopsAt(outcomes: seq<Outcome<DetectError>>, retriable: DetectError -> bool, n: nat)
    requires 1 <= n <= |outcomes|
    requires RetriableBefore(outcomes, retriable, n - 1)
    requires n < |outcomes| ==> outcomes[n - 1].Pass? || !retriable(outcomes[n - 1].error)
    ensures Retry(outcomes, retriable) == Detection(outcomes[n - 1], n)
  {
  }

  /**
   * The wrapper succeeds exactly when some check succeeds and every check
   * before it failed with a retriable error.
   */
  lemma RetrySucceedsIff(outcomes: seq<Outcome<DetectError>>, retriable: DetectError -> bool)
    requires |outcomes| >= 1
    ensures Retry(outcomes, retriable).outcome.Pass? <==>
              exists i :: 0 <= i < |outcomes| && outcomes[i].Pass? && RetriableBefore(outcomes, retriable, i)
  {
  }

  /** The outcomes of `steps` successive checks, starting with the query numbered `first`. */
  function Polls(pod: nat -> PodQuery, first: nat, steps: nat): (r: seq<Outcome<DetectError>>)
    ensures |r| == steps
    decreases steps
  {
    if steps == 0 then [] else [CheckCompletion(pod(first))] + Polls(pod, first + 1, steps - 1)
  }

  /** The check numbered `k` of a run of polls classifies the query numbered `first + k`. */
  lemma {:induction false} PollAt(pod: nat -> PodQuery, first: nat, steps: nat, k: nat)
    requires k < steps
    ensures Polls(pod, first, steps)[k] == CheckCompletion(pod(first + k))
    decreases k
  {
    if k > 0 {
      PollAt(pod, first + 1, steps - 1, k - 1);
    }
  }

  /**
   * Under RetryOnConflict only an API Conflict is retried: any other first
   * result (success, "not yet completed", "not found", or another API error,
   * returned unchanged) ends detection at the first query, whatever later
   * queries would return and however many steps are allowed.
   */
  lemma OnlyConflictsAreRetried(pod: nat -> PodQuery, first: nat, steps: nat)
    requires steps >= 1 && !IsConflictQuery(pod(first))
    ensures Retry(Polls(pod, first, steps), IsConflict) == Detection(CheckCompletion(pod(first)), 1)
  {
  }

  /**
   * When every query hits a Conflict, detection uses up all its steps and
   * returns the error of the last query.
   */
  lemma ConflictsExhaustSteps(pod: nat -> PodQuery, first: nat, steps: nat)
    requires steps >= 1 && ConflictsBefore(pod, first, first + steps)
    ensures Retry(Polls(pod, first, steps), IsConflict) ==
              Detection(Fail(QueryError(pod(first + steps - 1).err)), steps)
  {
    ConflictsAreRetried(pod, first, steps, steps - 1);
    PollAt(pod, first, steps, steps - 1);
    assert IsConflictQuery(pod(first + steps - 1));
    RetryStopsAt(Polls(pod, first, steps), IsConflict, steps);
  }

  /** Every query numbered from `first` up to, not including, `k` failed with an API Conflict. */
  ghost predicate ConflictsBefore(pod: nat -> PodQuery, first: nat, k: nat)
  {
    forall m :: first <= m < k ==> IsConflictQuery(pod(m))
  }

  /** The checks before `i` all failed with a retriable error. */
  ghost predicate RetriableBefore(outcomes: seq<Outcome<DetectError>>, retriable: DetectError -> bool, i: int)
    requires i <= |outcomes|
  {
    forall j :: 0 <= j < i ==> outcomes[j].Fail? && retriable(outcomes[j].error)
  }

  /** Conflicts on the queries are exactly retriable failures of the checks. */
  lemma ConflictsAreRetried(pod: nat -> PodQuery, first: nat, steps: nat, i: nat)
    requires i <= steps
    ensures RetriableBefore(Polls(pod, first, steps), IsConflict, i) <==> ConflictsBefore(pod, first, first + i)
  {
    var outcomes := Polls(pod, first, steps);
    if RetriableBefore(outcomes, IsConflict, i) {
      forall m | first <= m < first + i ensures IsConflictQuery(pod(m)) {
        PollAt(pod, first, steps, m - first);
      }
    }
    if ConflictsBefore(pod, first, first + i) {
      forall j | 0 <= j < i ensures outcomes[j].Fail? && IsConflict(outcomes[j].error) {
        PollAt(pod, first, steps, j);
        assert IsConflictQuery(pod(first + j));
      }
    }
  }

  /** The query numbered `k` reports the target terminated, and every query since `first` before it hit a Conflict. */
  ghost predicate DetectedAt(pod: nat -> PodQuery, first: nat, k: nat)
  {
    CheckCompletion(pod(k)).Pass? && ConflictsBefore(pod, first, k)
  }

  /** A query that finds "main" terminated after only Conflicts makes detection succeed there. */
  lemma DetectedAtSucceeds(pod: nat -> PodQuery, first: nat, steps: nat, k: nat)
    requires first <= k < first + steps && DetectedAt(pod, first, k)
    ensures Retry(Polls(pod, first, steps), IsConflict) == Detection(Pass, k - first + 1)
  {
    var i := k - first;
    PollAt(pod, first, steps, i);
    ConflictsAreRetried(pod, first, steps, i);
    RetryStopsAt(Polls(pod, first, steps), IsConflict, i + 1);
  }

  /**
   * Detection succeeds exactly when some query reports the target terminated
   * and every earlier query failed with an API Conflict.
   */
  lemma DetectionSucceedsIff(pod: nat -> PodQuery, first: nat, steps: nat)
    requires steps >= 1
    ensures Retry(Polls(pod, first, steps), IsConflict).outcome.Pass? <==>
              exists k :: first <= k < first + steps && DetectedAt(pod, first, k)
  {
    var d := Retry(Polls(pod, first, steps), IsConflict);
    if k :| first <= k < first + steps && DetectedAt(pod, first, k) {
      DetectedAtSucceeds(pod, first, steps, k);
    }
    if d.outcome.Pass? {
      var i := d.attempts - 1;
      ConflictsAreRetried(pod, first, steps, i);
      PollAt(pod, first, steps, i);
      assert DetectedAt(pod, first, first + i);
    }
  }
}
