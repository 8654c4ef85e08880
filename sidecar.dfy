/**
 * The watcher's process: detect that "main" has terminated, then notify the
 * launch API once. The cluster, the token file, the environment variables and
 * the HTTP endpoint are an `Environment` whose answers are fixed inputs; what
 * the process does to it is counted (pod queries) and logged (requests sent).
 */
module Sidecar {
  import opened Outcomes
  import opened Detector
  import opened Notifier

  /** How a run of the watcher ends. */
  datatype RunOutcome = DetectionFailed(detectError: DetectError) | NotifyFailed(notifyError: NotifyError) | Launched

  /** How a run ends and the requests it sent. */
  datatype RunResult = RunResult(outcome: RunOutcome, sent: seq<Request>)

  /**
   * main after detection: a detection error ends the run without notifying;
   * otherwise the run ends as the notification does.
   */
  function Launch(detected: Outcome<DetectError>, notification: Notification): (r: RunResult)
    ensures detected.Fail? ==> r == RunResult(DetectionFailed(detected.error), [])
    ensures r.sent != [] ==> detected.Pass?
    ensures detected.Pass? ==> r.sent == notification.sent
    ensures detected.Pass? && notification.outcome.Fail? ==> r.outcome == NotifyFailed(notification.outcome.error)
    ensures r.outcome == Launched <==> detected.Pass? && notification.outcome.Pass?
  {
    match detected
    case Fail(e) => RunResult(DetectionFailed(e), [])
    case Pass =>
      match notification.outcome
      case Pass => RunResult(Launched, notification.sent)
      case Fail(e) => RunResult(NotifyFailed(e), notification.sent)
  }

  /**
   * A whole run sends at most one request, sends none unless detection
   * succeeded, and launches exactly when detection succeeded, the token was
   * read, the URL parsed and the endpoint answered 200.
   */
  lemma RunSendsAtMostOneRequest(pod: nat -> PodQuery, first: nat, steps: nat, token: TokenRead,
                                  apiUrl: string, urlParses: seq<string> -> bool, respond: Request -> SendResult)
    requires steps >= 1
    ensures var d := Retry(Polls(pod, first, steps), IsConflict);
            var r := Launch(d.outcome, Notify(token, apiUrl, urlParses, respond));
      && |r.sent| <= 1
      && (r.sent != [] ==> d.outcome.Pass? && r.sent == [LaunchRequest(apiUrl, token.token)])
      && (d.outcome.Pass? && token.TokenRead? && urlParses(LaunchRequest(apiUrl, token.token).path) ==>
            r.sent == [LaunchRequest(apiUrl, token.token)])
      && (r.outcome == Launched <==>
            && d.outcome.Pass?
            && token.TokenRead?
            && urlParses(LaunchRequest(apiUrl, token.token).path)
            && respond(LaunchRequest(apiUrl, token.token)) == Response(StatusOK))
  {
  }

  /**
   * If the first pod query shows "main" still running, the run ends after that
   * one query with "not yet completed" and sends nothing, whatever later
   * queries would have shown.
   */
  lemma RunningMainEndsRun(pod: nat -> PodQuery, first: nat, steps: nat, token: TokenRead,
                           apiUrl: string, urlParses: seq<string> -> bool, respond: Request -> SendResult)
    requires steps >= 1
    requires pod(first).PodStatus? && FirstTargetRunning(pod(first).statuses)
    ensures var d := Retry(Polls(pod, first, steps), IsConflict);
      && d.attempts == 1
      && Launch(d.outcome, Notify(token, apiUrl, urlParses, respond)) ==
           RunResult(DetectionFailed(NotYetCompleted), [])
  {
  }

  /** The cluster, file system, process environment and network as the watcher sees them. */
  class Environment {
    /** What the pod `Get` numbered n returns. */
    const pod: nat -> PodQuery
    /** What reading a file returns. */
    const readFile: string -> TokenRead
    /** The value of each environment variable. */
    const getenv: string -> string
    /** Whether a URL made of these path segments parses into a request. */
    const urlParses: seq<string> -> bool
    /** What the endpoint answers to a request. */
    const respond: Request -> SendResult
    /** How many pod queries have been issued. */
    var queries: nat
    /** The requests sent so far, in order. */
    var sent: seq<Request>

    constructor (pod: nat -> PodQuery, readFile: string -> TokenRead, getenv: string -> string,
                 urlParses: seq<string> -> bool, respond: Request -> SendResult)
      ensures this.pod == pod && this.readFile == readFile && this.getenv == getenv
      ensures this.urlParses == urlParses && this.respond == respond
      ensures queries == 0 && sent == []
    {
      this.pod := pod;
      this.readFile := readFile;
      this.getenv := getenv;
      this.urlParses := urlParses;
      this.respond := respond;
      queries := 0;
      sent := [];
    }

    /** One pod `Get`: returns the next query result and counts the query. */
    method GetPod() returns (q: PodQuery)
      modifies this`queries
      ensures queries == old(queries) + 1
      ensures q == pod(old(queries))
    {
      q := pod(queries);
      queries := queries + 1;
    }

    /** One HTTP round trip: logs the request and returns the endpoint's answer. */
    method Do(request: Request) returns (result: SendResult)
      modifies this`sent
      ensures sent == old(sent) + [request]
      ensures result == respond(request)
    {
      result := respond(request);
      sent := sent + [request];
    }
  }

  /** The completion check: one pod query, classified by the status of "main". */
  method CheckContainerCompletion(env: Environment) returns (r: Outcome<DetectError>)
    modifies env`queries
    ensures env.queries == old(env.queries) + 1
    ensures r == CheckCompletion(env.pod(old(env.queries)))
  {
    var q := env.GetPod();
    r := CheckCompletion(q);
  }

  /**
   * The retry wrapper: runs the check at least once and at most `steps` times,
   * repeating it only after a failure `retriable` accepts.
   */
  method RetryOnError(env: Environment, steps: nat, retriable: DetectError -> bool) returns (d: Detection)
    requires steps >= 1
    modifies env`queries
    ensures env.queries == old(env.queries) + d.attempts
    ensures d == Retry(Polls(env.pod, old(env.queries), steps), retriable)
  {
    ghost var first := env.queries;
    ghost var outcomes := Polls(env.pod, first, steps);
    PollAt(env.pod, first, steps, 0);
    var outcome := CheckContainerCompletion(env);
    var attempts := 1;
    while attempts < steps && outcome.Fail? && retriable(outcome.error)
      invariant 1 <= attempts <= steps
      invariant env.queries == first + attempts
      invariant outcome == outcomes[attempts - 1]
      invariant RetriableBefore(outcomes, retriable, attempts - 1)
      decreases steps - attempts
    {
      PollAt(env.pod, first, steps, attempts);
      outcome := CheckContainerCompletion(env);
      attempts := attempts + 1;
    }
    RetryStopsAt(outcomes, retriable, attempts);
    d := Detection(outcome, attempts);
  }

  /** finishLaunch: each failed step ends it, and at most the one launch request is sent. */
  method FinishLaunch(env: Environment) returns (r: Outcome<NotifyError>)
    modifies env`sent
    ensures var n := Notify(env.readFile(TokenPath), env.getenv(ApiUrlVariable), env.urlParses, env.respond);
            r == n.outcome && env.sent == old(env.sent) + n.sent
  {
    var read := env.readFile(TokenPath);
    if read.TokenReadFailed? {
      return Fail(TokenUnreadable);
    }
    var request := LaunchRequest(env.getenv(ApiUrlVariable), read.token);
    if !env.urlParses(request.path) {
      return Fail(RequestInvalid);
    }
    var result := env.Do(request);
    if result.TransportError? {
      return Fail(TransportFailed);
    }
    if result.statusCode != StatusOK {
      return Fail(BadStatus);
    }
    return Pass;
  }

  /**
   * main: detection under RetryOnConflict with `steps` attempts, then, only if
   * it succeeded, one notification.
   */
  method Run(env: Environment, steps: nat) returns (r: RunOutcome)
    requires steps >= 1
    modifies env
    ensures var d := Retry(Polls(env.pod, old(env.queries), steps), IsConflict);
            var run := Launch(d.outcome, Notify(env.readFile(TokenPath), env.getenv(ApiUrlVariable),
                                                env.urlParses, env.respond));
            && env.queries == old(env.queries) + d.attempts
            && r == run.outcome
            && env.sent == old(env.sent) + run.sent
  {
    var d := RetryOnError(env, steps, IsConflict);
    if d.outcome.Fail? {
      return DetectionFailed(d.outcome.error);
    }
    var notified := FinishLaunch(env);
    if notified.Fail? {
      return NotifyFailed(notified.error);
    }
    return Launched;
  }
}
