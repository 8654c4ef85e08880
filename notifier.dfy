/**
 * The completion notifier: read the service-account token, build one GET
 * request to the launch endpoint, send it once and accept only status 200.
 * Its effects are inputs here; the imperative version is `Sidecar.FinishLaunch`.
 */
module Notifier {
  import opened Outcomes

  /** Where the service-account token is read from. */
  const TokenPath: string := "/var/run/secrets/kubernetes.io/serviceaccount/token"

  /** The environment variable holding the API's base URL. */
  const ApiUrlVariable: string := "LAUNCHPAD_API_URL"

  /** The only status code counted as success. */
  const StatusOK: int := 200

  /** The result of reading the token file. */
  datatype TokenRead = TokenRead(token: string) | TokenReadFailed

  /** The result of sending a request: a transport error, or a response with its status code. */
  datatype SendResult = TransportError | Response(statusCode: int)

  /** An outbound request: its verb and its URL as the path segments joined in order. */
  datatype Request = Request(verb: string, path: seq<string>)

  /**
   * The four distinct ways notification fails. A non-200 response carries no
   * status code: the source wraps the (nil) transport error there instead.
   */
  datatype NotifyError = TokenUnreadable | RequestInvalid | TransportFailed | BadStatus

  /** The launch request for a base URL and a token: `<base>/api/mission/launched/<token>`. */
  function LaunchRequest(apiUrl: string, token: string): (r: Request)
  {
    Request("GET", [apiUrl, "api", "mission", "launched", token])
  }

  /** What a notification returns and the requests it sent. */
  datatype Notification = Notification(outcome: Outcome<NotifyError>, sent: seq<Request>)

  /**
   * finishLaunch over the results of its effects: the token read, whether the
   * URL parses into a request, and the response the endpoint gives.
   */
  function Notify(token: TokenRead, apiUrl: string, urlParses: seq<string> -> bool,
                  respond: Request -> SendResult): (n: Notification)
    ensures |n.sent| <= 1
    ensures n.sent != [] <==> token.TokenRead? && urlParses(LaunchRequest(apiUrl, token.token).path)
    ensures n.sent != [] ==> n.sent[0] == LaunchRequest(apiUrl, token.token)
    ensures n.outcome.Pass? <==> n.sent != [] && respond(n.sent[0]) == Response(StatusOK)
  {
    match token
    case TokenReadFailed => Notification(Fail(TokenUnreadable), [])
    case TokenRead(t) =>
      var request := LaunchRequest(apiUrl, t);
      if !urlParses(request.path) then
        Notification(Fail(RequestInvalid), [])
      else
        match respond(request)
        case TransportError => Notification(Fail(TransportFailed), [request])
        case Response(code) =>
          Notification(if code == StatusOK then Pass else Fail(BadStatus), [request])
  }

  /**
   * Each failure names the step that failed: an unreadable token sends
   * nothing, an unparsable URL sends nothing, and a transport error or a
   * non-200 status follows exactly one request, which is not retried.
   */
  lemma NotifyFailureKinds(token: TokenRead, apiUrl: string, urlParses: seq<string> -> bool,
                           respond: Request -> SendResult)
    ensures var n := Notify(token, apiUrl, urlParses, respond);
      && (n.outcome == Fail(TokenUnreadable) <==> token.TokenReadFailed?)
      && (n.outcome == Fail(TokenUnreadable) ==> n.sent == [])
      && (n.outcome == Fail(RequestInvalid) <==>
            token.TokenRead? && !urlParses(LaunchRequest(apiUrl, token.token).path))
      && (n.outcome == Fail(RequestInvalid) ==> n.sent == [])
      && (n.outcome == Fail(TransportFailed) <==> |n.sent| == 1 && respond(n.sent[0]).TransportError?)
      && (n.outcome == Fail(BadStatus) <==>
            |n.sent| == 1 && respond(n.sent[0]).Response? && respond(n.sent[0]).statusCode != StatusOK)
  {
  }

  /** The request's URL is the base followed by `api`, `mission`, `launched` and the token, in that order. */
  lemma LaunchRequestPath(apiUrl: string, token: string)
    ensures var r := LaunchRequest(apiUrl, token);
      && r.verb == "GET" && |r.path| == 5
      && r.path[0] == apiUrl && r.path[1] == "api" && r.path[2] == "mission" && r.path[3] == "launched"
      && r.path[4] == token
  {
  }
}
