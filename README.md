# Completion-watcher sidecar, modelled in Dafny

The watcher runs beside a pod's primary container, which is named `main`.
It queries its own pod and looks through the container statuses for the
first entry named `main`. It succeeds only if that entry's Terminated state
is set. It wraps this check in client-go's `RetryOnConflict`. Once the check
succeeds, it reads the service-account token and builds one
`GET <LAUNCHPAD_API_URL>/api/mission/launched/<token>` request. It sends that
request once and counts only status 200 as success.

The model has four modules:

- `Outcomes` (outcomes.dfy): Go's `error` result as `Pass | Fail(error)`.
- `Detector` (detector.dfy): the status scan as a recursive function over
  `seq<ContainerStatus>`, and the completion check over one pod query. It also
  holds the retry wrapper as a specification function, `Retry`, over the
  outcomes of successive checks. The wrapper takes its step count and its
  retry predicate as parameters. `IsConflict` is the predicate
  `RetryOnConflict` uses.
- `Notifier` (notifier.dfy): `finishLaunch` as a function of its effects'
  results. Those results are the token read, whether the URL parses into a
  request, and the endpoint's answer.
- `Sidecar` (sidecar.dfy): the imperative program. An `Environment` object
  supplies every effect's result as a fixed input. It counts pod queries
  (`queries`) and logs the requests sent (`sent`). `CheckContainerCompletion`,
  `RetryOnError`, `FinishLaunch` and `Run` are methods over that object. Each
  method is proved against the specification functions above.

The comments beside the retry call (main.go:51 and main.go:55) speak of
polling with retries and of a timeout. The call itself is `RetryOnConflict`
(main.go:52), which retries only errors that client-go classifies as an API
Conflict, and the closure's own two errors never are. So a `main` that is
still running, or a status list without `main`, ends detection after one
query, and the run ends without notifying.
`Detector.OnlyConflictsAreRetried` and `Sidecar.RunningMainEndsRun` prove
this.

## Model

| member | source | states |
|---|---|---|
| `Detector.ScanStatuses` | main.go:37-48 | The scan yields only success, "not yet completed" or "not found". It yields "not found" exactly when no entry is named `main`, including for the empty list. |
| `Detector.ScanFindsFirstTarget` | main.go:37-45 | The scan succeeds exactly when the first entry named `main` has terminated. It reports "not yet completed" exactly when that first entry has not terminated. |
| `Detector.ScanIgnoresOtherContainers` | main.go:37-38 | Entries with other names never influence the result: the scan gives the same result once they are all dropped. |
| `Detector.ScanStopsAtFirstMatch` | main.go:38-45 | Only the first match is examined: once the list holds a `main` entry, whatever follows it is ignored. |
| `Detector.CheckCompletion` | main.go:31-49 | A failed pod query's error is returned unchanged, and no status is inspected. Otherwise the check succeeds exactly when the first `main` entry has terminated. It reports "not yet completed" exactly when that entry has not terminated, and "not found" exactly when no entry is named `main`. |
| `Detector.Retry` | main.go:52 | The retry wrapper runs between 1 and `steps` checks. It returns the result of its last check. Every earlier check failed with a retriable error. It stops early only at a success or a non-retriable error. |
| `Detector.RetryStopsAt` | main.go:52 | The wrapper's result is fixed by its stop point. Suppose the first n-1 checks fail retriably, and the n-th check either ends the search or is the last one allowed. Then the result is the n-th outcome after n attempts. |
| `Detector.RetrySucceedsIff` | main.go:52 | The wrapper succeeds exactly when some check succeeds and every check before it failed retriably. |
| `Detector.OnlyConflictsAreRetried` | main.go:52 | Under `RetryOnConflict`, only an API Conflict is retried. Any other first result ends detection after one query with that result, whatever later queries hold. |
| `Detector.ConflictsExhaustSteps` | main.go:52 | If every query hits a Conflict, detection uses all `steps` queries and returns the last query's error. |
| `Detector.DetectionSucceedsIff` | main.go:31-52 | Detection succeeds exactly when some query within the steps finds `main` terminated, and every query before it failed with a Conflict. |
| `Detector.DetectedAtSucceeds` | main.go:31-52 | If query k finds `main` terminated, and every query before it hit a Conflict, detection succeeds at query k. It has then used k - first + 1 attempts. |
| `Detector.PollAt` | main.go:52 | Check number k in a run of polls classifies pod query number `first + k`. |
| `Notifier.Notify` | main.go:68-94 | At most one request is sent. It is sent exactly when the token was read and the URL parsed, and it is the launch request. The result is success exactly when that request got status 200. |
| `Notifier.NotifyFailureKinds` | main.go:72-90 | Each error names the step that failed. An unreadable token or an unparsable URL sends nothing. A transport error, or a status other than 200, comes after exactly one request, with no retry. |
| `Notifier.LaunchRequestPath` | main.go:77-79 | The request is a GET. Its URL is the base URL followed by `api`, `mission`, `launched` and the token, in that order. |
| `Sidecar.Launch` | main.go:52-65 | A detection error ends the run with that error and no request. Once detection succeeds, the run sends exactly the notification's requests, and a notification error ends the run with that error. A run launches exactly when detection and notification both succeed. |
| `Sidecar.RunSendsAtMostOneRequest` | main.go:52-93 | A whole run sends at most one request, and none unless detection succeeded. When detection succeeded, the token was read and the URL parsed, it sends exactly the launch request. It launches exactly when detection succeeded, the token was read, the URL parsed and the endpoint answered 200. |
| `Sidecar.RunningMainEndsRun` | main.go:38-56 | Suppose the first query shows `main` not yet terminated. Then the run stops after that one query with "not yet completed" and sends nothing. |
| `Sidecar.Environment.GetPod` | main.go:32 | A pod query returns the next result and increments the query count. |
| `Sidecar.Environment.Do` | main.go:84 | A send appends the request to the log of sent requests and returns the endpoint's answer. |
| `Sidecar.CheckContainerCompletion` | main.go:31-49 | The check issues exactly one pod query and returns `CheckCompletion` of its result. |
| `Sidecar.RetryOnError` | main.go:52 | The loop issues exactly `Retry(...).attempts` queries and returns `Retry` over the outcomes of those successive queries. |
| `Sidecar.FinishLaunch` | main.go:68-94 | The method returns `Notify`'s outcome and appends exactly `Notify`'s requests to the log of sent requests. It sends at most one request. |
| `Sidecar.Run` | main.go:52-65 | The query count grows by the detection's attempts, and the outcome is `Launch` of detection and notification. The log gains only `Launch`'s requests, so at most one, and none unless detection succeeded. |

## Left out

- Cluster client setup and its panics (main.go:17-25) are foreign-library I/O and are not modelled.
- The pod name and namespace (main.go:27-28) are not modelled. Pod query results are indexed only by the query's number (`Environment.pod`).
- The Kubernetes client, `os.ReadFile`, `os.Getenv`, `http.NewRequestWithContext` and the HTTP client are opaque inputs of `Environment`. They are `pod`, `readFile`, `getenv`, `urlParses` and `respond`.
- The internals of client-go's `RetryOnConflict` and `DefaultRetry` are library code. The step count is a parameter and the retry predicate is `IsConflict`. The backoff sleeps between attempts are not modelled.
- Sidecar.RetryOnError: requires at least one step. `DefaultRetry` always has steps, and client-go's behaviour with zero steps is not modelled.
- `filepath.Join`'s path cleaning is not modelled. The URL is kept as its segments in order.
- The conversion of the token's bytes to a string is not modelled. The token read yields a string.
- Console output and error message text are not modelled. Each failure is a distinct error kind. The non-200 branch (main.go:88-89) wraps the nil transport error, so its message carries no status code. `NotifyError.BadStatus` carries none either.
- `context.TODO`, cancellation, timeouts and the missing `Body.Close` on the non-200 path are not modelled. They concern resources, not the outcome.
- `IsConflict` treats an error as a Conflict when its reason is `Conflict`. `ApiError` carries only the reason. So the model does not retry an error that has an unrecognised reason and status code 409, although client-go's `errors.IsConflict` accepts one.
- The plain `http.Client` at main.go:84 follows redirects by itself. One call to `Environment.Do` therefore stands for one client call, which may be several HTTP exchanges on the wire.
