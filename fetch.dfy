/** The status-code decision of the activity fetcher. The request itself
    and the decoding of the body happen outside the model: they arrive as
    an `Exchange`. */
module Fetch {
  import opened Wrappers
  import opened Text
  import opened Activity

  /** An HTTP status code; the client library only produces 100 through 999. */
  type StatusCode = c: int | 100 <= c <= 999 witness 200

  const OK: StatusCode := 200
  const FORBIDDEN: StatusCode := 403
  const NOT_FOUND: StatusCode := 404

  const API_USERS := "https://api.github.com/users/"
  const EVENTS_PATH := "/events"

  /** The events endpoint of a user; the name is inserted without escaping. */
  function EventsUrl(username: string): (url: string)
    ensures |url| == |API_USERS| + |username| + |EVENTS_PATH|
    ensures url[..|API_USERS|] == API_USERS
    ensures url[|url| - |EVENTS_PATH|..] == EVENTS_PATH
    ensures url[|API_USERS|..|url| - |EVENTS_PATH|] == username
  {
    API_USERS + username + EVENTS_PATH
  }

  /** Different users are asked for at different addresses. */
  lemma EventsUrlInjective(u1: string, u2: string)
    requires EventsUrl(u1) == EventsUrl(u2)
    ensures u1 == u2
  {
  }

  datatype FetchError =
    | Transport(detail: string)
    | MalformedBody(detail: string)
    | UserNotFound(username: string)
    | RateLimited
    | UnexpectedStatus(status: StatusCode, reason: Option<string>)

  /** What the network produced: either the request could not be sent, or a
      status arrived, with the canonical reason phrase the client library
      knows for it (if any) and the outcome of decoding the body as a JSON
      array of events (consulted only for status 200). */
  datatype Exchange =
    | SendFailed(detail: string)
    | Responded(status: StatusCode, reason: Option<string>, body: Result<seq<Event>, string>)

  /** The events of the user, or why there are none: 200 decodes the body,
      404 means no such user, 403 the rate limit, anything else is reported
      with its status. */
  function FetchUserActivity(username: string, exchange: Exchange): (r: Result<seq<Event>, FetchError>)
    ensures r.Success? <==> exchange.Responded? && exchange.status == OK && exchange.body.Success?
    ensures r.Success? ==> r.value == exchange.body.value
    ensures exchange.SendFailed? ==> r == Failure(Transport(exchange.detail))
    ensures exchange.Responded? && exchange.status == OK && exchange.body.Failure? ==>
              r == Failure(MalformedBody(exchange.body.error))
    ensures exchange.Responded? && exchange.status == NOT_FOUND ==> r == Failure(UserNotFound(username))
    ensures exchange.Responded? && exchange.status == FORBIDDEN ==> r == Failure(RateLimited)
    ensures exchange.Responded? && exchange.status != OK && exchange.status != NOT_FOUND && exchange.status != FORBIDDEN ==>
              r == Failure(UnexpectedStatus(exchange.status, exchange.reason))
  {
    match exchange
    case SendFailed(detail) => Failure(Transport(detail))
    case Responded(status, reason, body) =>
      if status == OK then
        match body
        case Success(events) => Success(events)
        case Failure(detail) => Failure(MalformedBody(detail))
      else if status == NOT_FOUND then Failure(UserNotFound(username))
      else if status == FORBIDDEN then Failure(RateLimited)
      else Failure(UnexpectedStatus(status, reason))
  }

  const STATUS_PREFIX := "GitHub API request failed with status: "

  /** What a status code displays after its number when the client library
      knows no reason phrase for it. */
  const UNKNOWN_REASON := "<unknown status code>"

  /** The reason phrase a status displays. */
  function ReasonText(reason: Option<string>): string {
    reason.UnwrapOr(UNKNOWN_REASON)
  }

  /** The text reported for each failure; transport and decoding failures
      carry the client library's own text. A status displays as its
      number, a space and its reason phrase. */
  function ErrorMessage(e: FetchError): string {
    match e
    case Transport(detail) => detail
    case MalformedBody(detail) => detail
    case UserNotFound(username) => "User '" + username + "' not found"
    case RateLimited => "API rate limit exceeded. Please try again later."
    case UnexpectedStatus(status, reason) => STATUS_PREFIX + NatToString(status) + " " + ReasonText(reason)
  }

  /** The not-found message names the user it was asked about. */
  lemma NotFoundNamesUser(username: string)
    ensures IsSubstring(username, ErrorMessage(UserNotFound(username)))
  {
    InfixIsSubstring("User '", username, "' not found");
  }

  /** A status code is written with exactly three digits. */
  lemma StatusDigits(status: StatusCode)
    ensures |NatToString(status)| == 3
  {
    assert NatToString(status) == NatToString(status / 10) + [DigitChar(status % 10)];
    assert NatToString(status / 10) == NatToString(status / 100) + [DigitChar(status / 10 % 10)];
  }

  /** An unexpected-status message is the fixed prefix, three digits whose
      value is the status, a space and the reason phrase: both the status
      and the reason can be read back from it. */
  lemma {:induction false} StatusMessageRoundTrip(status: StatusCode, reason: Option<string>)
    ensures var m := ErrorMessage(UnexpectedStatus(status, reason));
            var k := |STATUS_PREFIX|;
            && k + 4 <= |m| && m[..k] == STATUS_PREFIX
            && AllDigits(m[k..k + 3]) && DigitsValue(m[k..k + 3]) == status
            && m[k + 3] == ' ' && m[k + 4..] == ReasonText(reason)
  {
    var m := ErrorMessage(UnexpectedStatus(status, reason));
    var d := NatToString(status);
    StatusDigits(status);
    assert m == STATUS_PREFIX + d + (" " + ReasonText(reason));
    assert m[|STATUS_PREFIX|..|STATUS_PREFIX| + 3] == d;
    NatToStringRoundTrip(status);
  }

  /** A server error with a known reason phrase, and a status the client
      library has no phrase for. */
  lemma StatusMessageExamples()
    ensures ErrorMessage(UnexpectedStatus(500, Some("Internal Server Error")))
            == STATUS_PREFIX + "500" + " " + "Internal Server Error"
    ensures ErrorMessage(UnexpectedStatus(599, None)) == STATUS_PREFIX + "599" + " " + "<unknown status code>"
  {
    assert NatToString(500) == "500";
    assert NatToString(599) == "599";
  }

  /** Different statuses, or different reason phrases, give different messages. */
  lemma StatusMessageInjective(s1: StatusCode, r1: Option<string>, s2: StatusCode, r2: Option<string>)
    requires ErrorMessage(UnexpectedStatus(s1, r1)) == ErrorMessage(UnexpectedStatus(s2, r2))
    ensures s1 == s2 && ReasonText(r1) == ReasonText(r2)
  {
    StatusMessageRoundTrip(s1, r1);
    StatusMessageRoundTrip(s2, r2);
  }
}
