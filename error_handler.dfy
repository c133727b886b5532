/**
 * The error classifier of the client: every thrown value is mapped to an
 * `ApiError` record by a first-match-wins chain (network, server, generic
 * error, anything else), plus the two projections the UI reads from that
 * record and the structured log line.
 */
module ErrorHandler {
  import opened Wrappers
  import opened JsString

  /** The `type` field of an `ApiError`. */
  datatype ErrorType = Network | Server | Client | Unknown

  /** `{ message, type, status?, details? }` */
  datatype ApiError = ApiError(message: string, kind: ErrorType, status: Option<nat>, details: Option<string>)

  /**
   * A value that reached a `catch` clause, tagged by the `instanceof` test
   * that distinguishes it.
   */
  datatype Thrown =
    | TypeErrorValue(message: string, stack: Option<string>)   // a `TypeError`
    | ResponseValue(status: nat, statusText: string)           // a `Response` object
    | ErrorValue(message: string, stack: Option<string>)       // any other `Error`
    | OtherValue(repr: string)                                 // anything else, with `String(value)`

  const NotRespondingMessage: string := "Server is not responding. Please check if the backend is running."
  const UnexpectedMessage: string := "An unexpected error occurred"
  const InvalidRequestMessage: string := "Invalid request. Please check your input."
  const DefaultLogContext: string := "API Error"

  /** `String(value)` for a plain object such as a thrown `ApiError` record. */
  const PlainObjectString: string := "[object Object]"

  /** `HTTP ${status}: ${statusText}` */
  function StatusLine(status: nat, statusText: string): (r: string)
    ensures StartsWith(r, "HTTP ") && EndsWith(r, statusText)
  {
    "HTTP " + NatToString(status) + ": " + statusText
  }

  /** After the `HTTP ` prefix comes the status's digits, then `: ` and the text. */
  lemma StatusLineTail(status: nat, statusText: string)
    ensures StatusLine(status, statusText)[5..] == NatToString(status) + (": " + statusText)
  {
    var l := StatusLine(status, statusText);
    assert l == "HTTP " + (NatToString(status) + (": " + statusText));
  }

  /** A run of digits followed by `: ` and a text can be split back into the two. */
  lemma DigitsThenText(d: string, t: string)
    requires AllDigits(d)
    ensures var x := d + (": " + t);
            DigitRun(x) == |d| && x[..|d|] == d && x[|d| + 2..] == t
  {
    DigitRunOfDigits(d, ": " + t);
    var x := d + (": " + t);
    assert x[..|d|] == d;
    assert x[|d| + 2..] == t;
  }

  /** The status line determines the status code and text it was built from. */
  lemma StatusLineDeterminesStatus(s1: nat, t1: string, s2: nat, t2: string)
    requires StatusLine(s1, t1) == StatusLine(s2, t2)
    ensures s1 == s2 && t1 == t2
  {
    var d1, d2 := NatToString(s1), NatToString(s2);
    StatusLineTail(s1, t1);
    StatusLineTail(s2, t2);
    DigitsThenText(d1, t1);
    DigitsThenText(d2, t2);
    NatToStringInjective(s1, s2);
  }

  /** The failure is a connectivity failure: a `TypeError` mentioning `fetch`. */
  predicate IsFetchFailure(e: Thrown) {
    e.TypeErrorValue? && Includes(e.message, "fetch")
  }

  /** `handleApiError` */
  function HandleApiError(e: Thrown): (r: ApiError)
    ensures r.kind != Client
    ensures r.kind == Network <==> IsFetchFailure(e)
    ensures r.kind == Server <==> e.ResponseValue?
    ensures r.status.Some? <==> e.ResponseValue?
    ensures r.details.None? ==> !e.OtherValue? && !e.ResponseValue? && !IsFetchFailure(e)
  {
    if IsFetchFailure(e) then
      ApiError(NotRespondingMessage, Network, None, Some(e.message))
    else if e.ResponseValue? then
      ApiError(StatusLine(e.status, e.statusText), Server, Some(e.status), Some(e.statusText))
    else if e.TypeErrorValue? || e.ErrorValue? then
      ApiError(e.message, Unknown, None, e.stack)
    else
      ApiError(UnexpectedMessage, Unknown, None, Some(e.repr))
  }

  /** A connectivity failure: fixed advisory message, the raw text as details. */
  lemma ClassifyFetchFailure(message: string, stack: Option<string>)
    requires Includes(message, "fetch")
    ensures HandleApiError(TypeErrorValue(message, stack))
            == ApiError(NotRespondingMessage, Network, None, Some(message))
  {
  }

  /** A `Response`: its status, the status line as message, the status text as details. */
  lemma ClassifyResponse(status: nat, statusText: string)
    ensures var r := HandleApiError(ResponseValue(status, statusText));
            && r.kind == Server && r.status == Some(status) && r.details == Some(statusText)
            && r.message == StatusLine(status, statusText)
            && StartsWith(r.message, "HTTP " + NatToString(status) + ": ")
            && EndsWith(r.message, statusText)
  {
    var line := StatusLine(status, statusText);
    var p := "HTTP " + NatToString(status) + ": ";
    assert line == p + statusText;
    assert line[..|p|] == p;
  }

  /**
   * First match wins: an `Error` (including a `TypeError` not about `fetch`)
   * keeps its own message and stack, and is never reported as network.
   */
  lemma ClassifyGenericError(e: Thrown)
    requires e.ErrorValue? || (e.TypeErrorValue? && !Includes(e.message, "fetch"))
    ensures HandleApiError(e) == ApiError(e.message, Unknown, None, e.stack)
  {
  }

  /** Anything else: the fixed message, `String(value)` as details. */
  lemma ClassifyOther(repr: string)
    ensures HandleApiError(OtherValue(repr)) == ApiError(UnexpectedMessage, Unknown, None, Some(repr))
  {
  }

  /**
   * `isServerOffline`: a network failure always counts, a client or unknown
   * error never does, and a server error only with status 0.
   */
  predicate IsServerOffline(e: ApiError): (offline: bool)
    ensures e.kind == Network ==> offline
    ensures e.kind == Client || e.kind == Unknown ==> !offline
    ensures e.kind == Server ==> (offline <==> e.status == Some(0))
  {
    e.kind == Network || (e.kind == Server && e.status == Some(0))
  }

  /**
   * A classified failure counts as "offline" exactly when it was a
   * connectivity failure or a response with status 0.
   */
  lemma OfflineIffUnreachable(e: Thrown)
    ensures IsServerOffline(HandleApiError(e)) <==> IsFetchFailure(e) || (e.ResponseValue? && e.status == 0)
  {
  }

  /** `getErrorMessage` */
  function GetErrorMessage(e: ApiError): (m: string)
    ensures e.kind == Network ==> m == NotRespondingMessage
    ensures e.kind == Server ==> m == e.message
    ensures e.kind == Client ==> m == InvalidRequestMessage
    ensures e.kind == Unknown ==> m == if e.message == "" then UnexpectedMessage else e.message
  {
    match e.kind
    case Network => NotRespondingMessage
    case Server => e.message
    case Client => InvalidRequestMessage
    case Unknown => if e.message != "" then e.message else UnexpectedMessage
  }

  /**
   * For every classified failure the text shown to the user is never empty,
   * and it is the classifier's own message whenever that is non-empty.
   */
  lemma DisplayOfClassified(e: Thrown)
    ensures GetErrorMessage(HandleApiError(e)) != ""
    ensures HandleApiError(e).message != "" ==> GetErrorMessage(HandleApiError(e)) == HandleApiError(e).message
  {
  }

  /** The structured record `logError` writes, under its context label. */
  datatype LogEntry = LogEntry(context: string, message: string, kind: ErrorType, status: Option<nat>, details: Option<string>)

  /** `context || 'API Error'` */
  function ContextLabel(context: Option<string>): (tag: string)
    ensures tag != ""
    ensures context.Some? && context.value != "" ==> tag == context.value
    ensures context.None? || context.value == "" ==> tag == DefaultLogContext
  {
    if context.Some? && context.value != "" then context.value else DefaultLogContext
  }

  /**
   * `logError`: the entry carries exactly the four fields of the error, so
   * the error can be read back from it unchanged.
   */
  function LogErrorEntry(e: ApiError, context: Option<string>): (entry: LogEntry)
    ensures ApiError(entry.message, entry.kind, entry.status, entry.details) == e
    ensures entry.context == ContextLabel(context)
  {
    LogEntry(ContextLabel(context), e.message, e.kind, e.status, e.details)
  }
}
