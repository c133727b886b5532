/**
 * The `useApi` hook: `execute` runs one request, tracking `loading` and the
 * stored `error`, logging and reporting failures through the optional
 * `onSuccess` / `onError` callbacks, and settling like the returned promise.
 *
 * The network call is an abstract `FetchOutcome` argument. Every observable
 * effect (a state setter, the `fetch` call, a `console.error` line, a
 * callback) is appended, in order, to the hook's `events` trace.
 */
module UseApi {
  import opened Wrappers
  import opened JsString
  import opened ErrorHandler
  import opened ApiConfig
  import opened Http

  const ContentTypeHeader: string := "Content-Type"
  const JsonContentType: string := "application/json"

  /** The context label `execute` logs its failures under. */
  const RequestContext: string := "API Request"

  /** The parts of `RequestInit` the hook passes through or reads. */
  datatype RequestInit = RequestInit(verb: Option<string>, body: Option<string>, headers: map<string, string>)

  /** What is handed to `fetch`: the resolved URL and the merged options. */
  datatype Request = Request(url: string, verb: Option<string>, body: Option<string>, headers: map<string, string>)

  /** One observable effect of the hook. */
  datatype Event =
    | LoadingSet(loading: bool)            // setLoading(...)
    | ErrorSet(stored: Option<ApiError>)   // setError(...)
    | Fetched(request: Request)            // fetch(...)
    | Logged(entry: LogEntry)              // logError(...)
    | SuccessCalled(data: Json)            // options.onSuccess(...)
    | ErrorCalled(reported: ApiError)      // options.onError(...)

  /** How the promise returned by `execute` settles. */
  datatype Settled = Resolved(data: Json) | Threw(error: ApiError)

  /** A URL starting with `http` is used as is; anything else is built against the base. */
  function ResolveUrl(base: string, url: string): (full: string)
    ensures EndsWith(full, url)
    ensures StartsWith(url, "http") ==> full == url
    ensures !StartsWith(url, "http") ==> StartsWith(full, base) && full[|base|..] == CleanEndpoint(url)
  {
    if StartsWith(url, "http") then url
    else
      BuildApiUrlShape(base, url);
      BuildApiUrl(base, url)
  }

  /** The headers object: the JSON content type, overridden by the caller's headers. */
  function MergeHeaders(given: map<string, string>): (h: map<string, string>)
    ensures h.Keys == given.Keys + {ContentTypeHeader}
    ensures forall k :: k in given ==> h[k] == given[k]
    ensures ContentTypeHeader !in given ==> h[ContentTypeHeader] == JsonContentType
  {
    map[ContentTypeHeader := JsonContentType] + given
  }

  /** The request `execute` issues for `url` and `init`. */
  function RequestFor(base: string, url: string, init: RequestInit): Request {
    Request(ResolveUrl(base, url), init.verb, init.body, MergeHeaders(init.headers))
  }

  /**
   * The error built for a non-2xx response: an undecodable body counts as
   * `{}`; a `null` body makes the `.error` lookup throw instead.
   */
  function ServerError(status: nat, statusText: string, body: Decoded): (r: Result<ApiError, Thrown>)
    ensures r.Failure? <==> body == Parsed(JNull)
    ensures r.Failure? ==> r.error == NullErrorAccess
    ensures r.Success? ==> r.value.kind == Server && r.value.status == Some(status) && r.value.details == Some(statusText)
    ensures r.Success? && body.Parsed? && HasErrorText(body.value) ==> r.value.message == body.value.fields["error"].s
    ensures r.Success? && !(body.Parsed? && HasErrorText(body.value)) ==> r.value.message == StatusLine(status, statusText)
  {
    var errorData := if body.Parsed? then body.value else JObject(map[]);
    match ErrorOr(errorData, StatusLine(status, statusText))
    case Success(message) => Success(ApiError(message, Server, Some(status), Some(statusText)))
    case Failure(thrown) => Failure(thrown)
  }

  /** The failure reported before the `throw apiError` for a non-2xx response, if reached. */
  function EarlyReport(o: FetchOutcome): Option<ApiError> {
    if o.Responded? && !IsOk(o.status) && ServerError(o.status, o.statusText, o.body).Success? then
      Some(ServerError(o.status, o.statusText, o.body).value)
    else None
  }

  /**
   * The value that reaches the `catch` clause, if any. The `ApiError`
   * thrown for a non-2xx response is a plain object, so it arrives there
   * as something that is neither an `Error` nor a `Response`.
   */
  function CaughtValue(o: FetchOutcome): (c: Option<Thrown>)
    ensures c.None? <==> o.Responded? && IsOk(o.status) && o.body.Parsed?
    ensures EarlyReport(o).Some? ==> c == Some(OtherValue(PlainObjectString))
  {
    match o
    case Rejected(reason) => Some(reason)
    case Responded(status, statusText, body) =>
      if !IsOk(status) then
        match ServerError(status, statusText, body)
        case Success(_) => Some(OtherValue(PlainObjectString))
        case Failure(thrown) => Some(thrown)
      else if body.Unparsable? then Some(body.thrown)
      else None
  }

  /** Logging, storing and reporting one failure. */
  function ReportEvents(e: ApiError, hasOnError: bool): seq<Event> {
    [Logged(LogErrorEntry(e, Some(RequestContext)))] + [ErrorSet(Some(e))] + (if hasOnError then [ErrorCalled(e)] else [])
  }

  /**
   * How `execute` settles for outcome `o`: it resolves exactly when a 2xx
   * response's body decodes, and then with that body; a thrown request is
   * thrown on as its classification.
   */
  function Settlement(o: FetchOutcome): (s: Settled)
    ensures s.Resolved? <==> o.Responded? && IsOk(o.status) && o.body.Parsed?
    ensures s.Resolved? ==> s.data == o.body.value
    ensures o.Rejected? ==> s == Threw(HandleApiError(o.reason))
  {
    match CaughtValue(o)
    case Some(t) => Threw(HandleApiError(t))
    case None => Resolved(o.body.value)
  }

  /** The error `execute` leaves stored: the one it threw, or none. */
  function StoredAfter(s: Settled): Option<ApiError> {
    if s.Threw? then Some(s.error) else None
  }

  /** The effects before the request: `setLoading(true)`, `setError(null)`, then `fetch(req)`. */
  function Prologue(req: Request): seq<Event> {
    [LoadingSet(true)] + [ErrorSet(None)] + [Fetched(req)]
  }

  /** The report made inside the `try` for a non-2xx response, if reached. */
  function EarlyEvents(o: FetchOutcome, hasOnError: bool): seq<Event> {
    if EarlyReport(o).Some? then ReportEvents(EarlyReport(o).value, hasOnError) else []
  }

  /** The `catch` clause's report, or the `onSuccess` call. */
  function OutcomeEvents(o: FetchOutcome, hasOnSuccess: bool, hasOnError: bool): seq<Event> {
    match CaughtValue(o)
    case Some(t) => ReportEvents(HandleApiError(t), hasOnError)
    case None => if hasOnSuccess then [SuccessCalled(o.body.value)] else []
  }

  /** The effects, in order, of one `execute` call that issues `req` and whose fetch yields `o`. */
  function ExecuteEvents(req: Request, hasOnSuccess: bool, hasOnError: bool, o: FetchOutcome): (evs: seq<Event>)
    ensures |evs| >= 4 && evs[|evs| - 1] == LoadingSet(false)
    ensures evs[0] == LoadingSet(true) && evs[1] == ErrorSet(None) && evs[2] == Fetched(req)
  {
    Prologue(req) + EarlyEvents(o, hasOnError) + OutcomeEvents(o, hasOnSuccess, hasOnError) + [LoadingSet(false)]
  }

  /** The value of `loading` after the setter calls in `evs`, starting from `false`. */
  function LastLoading(evs: seq<Event>): bool {
    if evs == [] then false
    else if evs[|evs| - 1].LoadingSet? then evs[|evs| - 1].loading
    else LastLoading(evs[..|evs| - 1])
  }

  /** The value of `error` after the setter calls in `evs`, starting from `null`. */
  function LastStored(evs: seq<Event>): Option<ApiError> {
    if evs == [] then None
    else if evs[|evs| - 1].ErrorSet? then evs[|evs| - 1].stored
    else LastStored(evs[..|evs| - 1])
  }

  /** One more effect changes the state only if it is a setter call. */
  lemma LastAfterAppend(evs: seq<Event>, e: Event)
    ensures LastLoading(evs + [e]) == if e.LoadingSet? then e.loading else LastLoading(evs)
    ensures LastStored(evs + [e]) == if e.ErrorSet? then e.stored else LastStored(evs)
  {
    assert (evs + [e])[..|evs|] == evs;
  }

  /** The kinds of effect, for counting. */
  datatype Kind = LoadingKind | ErrorSetKind | FetchKind | LogKind | SuccessKind | OnErrorKind

  predicate IsKind(e: Event, k: Kind) {
    match k
    case LoadingKind => e.LoadingSet?
    case ErrorSetKind => e.ErrorSet?
    case FetchKind => e.Fetched?
    case LogKind => e.Logged?
    case SuccessKind => e.SuccessCalled?
    case OnErrorKind => e.ErrorCalled?
  }

  /** How many effects of kind `k` the trace holds. */
  function Count(evs: seq<Event>, k: Kind): nat {
    if evs == [] then 0 else Count(evs[..|evs| - 1], k) + (if IsKind(evs[|evs| - 1], k) then 1 else 0)
  }

  lemma CountOne(e: Event, k: Kind)
    ensures Count([e], k) == if IsKind(e, k) then 1 else 0
  {
    assert [e][..0] == [];
  }

  /** Counting distributes over concatenation of traces. */
  lemma {:induction false} CountAppend(a: seq<Event>, b: seq<Event>, k: Kind)
    ensures Count(a + b, k) == Count(a, k) + Count(b, k)
    decreases |b|
  {
    if b == [] {
      assert a + b == a;
    } else {
      assert (a + b)[..|a + b| - 1] == a + b[..|b| - 1];
      assert (a + b)[|a + b| - 1] == b[|b| - 1];
      CountAppend(a, b[..|b| - 1], k);
    }
  }

  /** How many effects of kind `k` one report makes. */
  function ReportCount(k: Kind, hasOnError: bool): nat {
    if k == LogKind || k == ErrorSetKind then 1
    else if k == OnErrorKind && hasOnError then 1
    else 0
  }

  /** How many effects of kind `k` the fixed part of an `execute` call makes. */
  function FrameCount(k: Kind): nat {
    if k == LoadingKind then 2 else if k == FetchKind || k == ErrorSetKind then 1 else 0
  }

  /** One report logs once, stores once and calls `onError` once if it is given. */
  lemma CountReport(e: ApiError, hasOnError: bool, k: Kind)
    ensures Count(ReportEvents(e, hasOnError), k) == ReportCount(k, hasOnError)
  {
    var l, st := Logged(LogErrorEntry(e, Some(RequestContext))), ErrorSet(Some(e));
    var tail: seq<Event> := if hasOnError then [ErrorCalled(e)] else [];
    CountAppend([l], [st], k);
    CountAppend([l] + [st], tail, k);
    CountOne(l, k);
    CountOne(st, k);
    if hasOnError { CountOne(ErrorCalled(e), k); }
  }

  /** The prologue sets `loading` once, stores once and fetches once. */
  lemma CountPrologue(req: Request, k: Kind)
    ensures Count(Prologue(req), k) == if k == LoadingKind || k == ErrorSetKind || k == FetchKind then 1 else 0
  {
    CountAppend([LoadingSet(true)], [ErrorSet(None)], k);
    CountAppend([LoadingSet(true)] + [ErrorSet(None)], [Fetched(req)], k);
    CountOne(LoadingSet(true), k);
    CountOne(ErrorSet(None), k);
    CountOne(Fetched(req), k);
  }

  /** The call's trace, counted part by part. */
  lemma CountExecute(req: Request, hasOnSuccess: bool, hasOnError: bool, o: FetchOutcome, k: Kind)
    ensures Count(ExecuteEvents(req, hasOnSuccess, hasOnError, o), k)
            == FrameCount(k) + Count(EarlyEvents(o, hasOnError), k) + Count(OutcomeEvents(o, hasOnSuccess, hasOnError), k)
  {
    var p := Prologue(req);
    var early := EarlyEvents(o, hasOnError);
    var rest := OutcomeEvents(o, hasOnSuccess, hasOnError);
    CountPrologue(req, k);
    CountOne(LoadingSet(false), k);
    CountAppend(p, early, k);
    CountAppend(p + early, rest, k);
    CountAppend(p + early + rest, [LoadingSet(false)], k);
  }

  /**
   * Before the request goes out, `loading` is set and the stored error is
   * cleared; exactly one request is made, and the call ends by clearing
   * `loading` again, the only other `loading` update.
   */
  lemma ExecuteBracketsTheRequest(req: Request, hasOnSuccess: bool, hasOnError: bool, o: FetchOutcome)
    ensures var evs := ExecuteEvents(req, hasOnSuccess, hasOnError, o);
            && evs[0] == LoadingSet(true) && evs[1] == ErrorSet(None) && evs[2] == Fetched(req)
            && evs[|evs| - 1] == LoadingSet(false)
            && Count(evs, FetchKind) == 1 && Count(evs, LoadingKind) == 2
  {
    CountFetchAndLoading(req, hasOnSuccess, hasOnError, o);
  }

  /** One request and two `loading` updates per call. */
  lemma CountFetchAndLoading(req: Request, hasOnSuccess: bool, hasOnError: bool, o: FetchOutcome)
    ensures var evs := ExecuteEvents(req, hasOnSuccess, hasOnError, o);
            Count(evs, FetchKind) == 1 && Count(evs, LoadingKind) == 2
  {
    CountExecute(req, hasOnSuccess, hasOnError, o, FetchKind);
    CountExecute(req, hasOnSuccess, hasOnError, o, LoadingKind);
    NoFetchOrLoadingAfterRequest(o, hasOnSuccess, hasOnError, FetchKind);
    NoFetchOrLoadingAfterRequest(o, hasOnSuccess, hasOnError, LoadingKind);
  }

  /** Reports and `onSuccess` neither fetch nor touch `loading`. */
  lemma NoFetchOrLoadingAfterRequest(o: FetchOutcome, hasOnSuccess: bool, hasOnError: bool, k: Kind)
    requires k == FetchKind || k == LoadingKind
    ensures Count(EarlyEvents(o, hasOnError), k) == 0
    ensures Count(OutcomeEvents(o, hasOnSuccess, hasOnError), k) == 0
  {
    if EarlyReport(o).Some? {
      CountReport(EarlyReport(o).value, hasOnError, k);
    }
    match CaughtValue(o)
    case Some(t) =>
      CountReport(HandleApiError(t), hasOnError, k);
    case None =>
      if hasOnSuccess {
        CountOne(SuccessCalled(o.body.value), k);
      }
  }

  /** The record the second classification produces from the re-thrown plain object. */
  const ReclassifiedError: ApiError := ApiError(UnexpectedMessage, Unknown, None, Some(PlainObjectString))

  /**
   * A non-2xx response whose body is not `null` is reported twice: first
   * as the server error, then, re-caught, as an unknown error; that second
   * record is what is stored and thrown.
   */
  lemma NonOkReportsTwice(req: Request, hasOnSuccess: bool, hasOnError: bool, status: nat, statusText: string, body: Decoded)
    requires !IsOk(status) && body != Parsed(JNull)
    ensures var o := Responded(status, statusText, body);
            var evs := ExecuteEvents(req, hasOnSuccess, hasOnError, o);
            && Count(evs, LogKind) == 2
            && Count(evs, OnErrorKind) == (if hasOnError then 2 else 0)
            && Count(evs, SuccessKind) == 0
            && Settlement(o) == Threw(ReclassifiedError)
  {
    CountNonOk(req, hasOnSuccess, hasOnError, status, statusText, body, LogKind);
    CountNonOk(req, hasOnSuccess, hasOnError, status, statusText, body, OnErrorKind);
    CountNonOk(req, hasOnSuccess, hasOnError, status, statusText, body, SuccessKind);
  }

  /** A non-2xx response with a non-`null` body makes two reports besides the fixed effects. */
  lemma CountNonOk(req: Request, hasOnSuccess: bool, hasOnError: bool, status: nat, statusText: string, body: Decoded, k: Kind)
    requires !IsOk(status) && body != Parsed(JNull)
    ensures Count(ExecuteEvents(req, hasOnSuccess, hasOnError, Responded(status, statusText, body)), k)
            == FrameCount(k) + 2 * ReportCount(k, hasOnError)
  {
    var o := Responded(status, statusText, body);
    var e1 := ServerError(status, statusText, body).value;
    var e2 := HandleApiError(OtherValue(PlainObjectString));
    assert EarlyEvents(o, hasOnError) == ReportEvents(e1, hasOnError);
    assert OutcomeEvents(o, hasOnSuccess, hasOnError) == ReportEvents(e2, hasOnError);
    CountExecute(req, hasOnSuccess, hasOnError, o, k);
    CountReport(e1, hasOnError, k);
    CountReport(e2, hasOnError, k);
  }

  /** The first of those two reports, right after the request, logs the server error. */
  lemma NonOkLogsServerErrorFirst(req: Request, hasOnSuccess: bool, hasOnError: bool, status: nat, statusText: string, body: Decoded)
    requires !IsOk(status) && body != Parsed(JNull)
    ensures var evs := ExecuteEvents(req, hasOnSuccess, hasOnError, Responded(status, statusText, body));
            evs[3] == Logged(LogErrorEntry(ServerError(status, statusText, body).value, Some(RequestContext)))
  {
    var o := Responded(status, statusText, body);
    var e1 := ServerError(status, statusText, body).value;
    var evs := ExecuteEvents(req, hasOnSuccess, hasOnError, o);
    var p := Prologue(req);
    var r := ReportEvents(e1, hasOnError);
    assert EarlyEvents(o, hasOnError) == r;
    assert evs == p + r + OutcomeEvents(o, hasOnSuccess, hasOnError) + [LoadingSet(false)];
    assert (p + r)[3] == r[0];
  }

  /** Something is thrown before any report is made. */
  predicate CaughtBeforeReport(o: FetchOutcome) {
    EarlyReport(o).None? && CaughtValue(o).Some?
  }

  /**
   * Whenever something is thrown before any report is made, the `catch`
   * classifies it once, reports it once, and the call throws it.
   */
  lemma CaughtOnceReportsOnce(req: Request, hasOnSuccess: bool, hasOnError: bool, o: FetchOutcome)
    requires CaughtBeforeReport(o)
    ensures var evs := ExecuteEvents(req, hasOnSuccess, hasOnError, o);
            && Count(evs, LogKind) == 1
            && Count(evs, OnErrorKind) == (if hasOnError then 1 else 0)
            && Count(evs, SuccessKind) == 0
            && Settlement(o) == Threw(HandleApiError(CaughtValue(o).value))
  {
    CountsCaughtOnce(req, hasOnSuccess, hasOnError, o);
    CaughtSettles(o);
  }

  /** The log, `onError` and `onSuccess` counts of a call caught before any report. */
  lemma CountsCaughtOnce(req: Request, hasOnSuccess: bool, hasOnError: bool, o: FetchOutcome)
    requires CaughtBeforeReport(o)
    ensures var evs := ExecuteEvents(req, hasOnSuccess, hasOnError, o);
            && Count(evs, LogKind) == 1
            && Count(evs, OnErrorKind) == (if hasOnError then 1 else 0)
            && Count(evs, SuccessKind) == 0
  {
    CountCaughtOnce(req, hasOnSuccess, hasOnError, o, LogKind);
    CountCaughtOnce(req, hasOnSuccess, hasOnError, o, OnErrorKind);
    CountCaughtOnce(req, hasOnSuccess, hasOnError, o, SuccessKind);
  }

  /** Caught before any report, the call throws the classification of what was caught. */
  lemma CaughtSettles(o: FetchOutcome)
    requires CaughtBeforeReport(o)
    ensures Settlement(o) == Threw(HandleApiError(CaughtValue(o).value))
  {
  }

  /** Caught before any report, a call makes one report besides the fixed effects. */
  lemma CountCaughtOnce(req: Request, hasOnSuccess: bool, hasOnError: bool, o: FetchOutcome, k: Kind)
    requires CaughtBeforeReport(o)
    ensures Count(ExecuteEvents(req, hasOnSuccess, hasOnError, o), k) == FrameCount(k) + ReportCount(k, hasOnError)
  {
    var e := HandleApiError(CaughtValue(o).value);
    assert EarlyEvents(o, hasOnError) == [];
    assert OutcomeEvents(o, hasOnSuccess, hasOnError) == ReportEvents(e, hasOnError);
    CountExecute(req, hasOnSuccess, hasOnError, o, k);
    CountReport(e, hasOnError, k);
  }

  /**
   * The three ways to be caught before any report: a thrown request, a
   * non-2xx response whose body is `null` (the `.error` lookup throws), and
   * a 2xx response whose body does not decode. Each is what reaches `catch`.
   */
  lemma CaughtBeforeAnyReport(status: nat, statusText: string, reason: Thrown)
    ensures var o := Rejected(reason);
            CaughtBeforeReport(o) && CaughtValue(o) == Some(reason)
    ensures !IsOk(status) ==>
              var o := Responded(status, statusText, Parsed(JNull));
              CaughtBeforeReport(o) && CaughtValue(o) == Some(NullErrorAccess)
    ensures IsOk(status) ==>
              var o := Responded(status, statusText, Unparsable(reason));
              CaughtBeforeReport(o) && CaughtValue(o) == Some(reason)
  {
  }

  /** A thrown transport failure is classified once, reported once, and thrown. */
  lemma RejectedReportsOnce(req: Request, hasOnSuccess: bool, hasOnError: bool, reason: Thrown)
    ensures var o := Rejected(reason);
            var evs := ExecuteEvents(req, hasOnSuccess, hasOnError, o);
            && Count(evs, LogKind) == 1
            && Count(evs, OnErrorKind) == (if hasOnError then 1 else 0)
            && Count(evs, SuccessKind) == 0
            && Settlement(o) == Threw(HandleApiError(reason))
  {
    CaughtBeforeAnyReport(0, "", reason);
    CaughtOnceReportsOnce(req, hasOnSuccess, hasOnError, Rejected(reason));
  }

  /**
   * A non-2xx response with a `null` body is reported once, not twice: the
   * failed `.error` lookup is thrown before the server error is built.
   */
  lemma NullBodyReportsOnce(req: Request, hasOnSuccess: bool, hasOnError: bool, status: nat, statusText: string)
    requires !IsOk(status)
    ensures var o := Responded(status, statusText, Parsed(JNull));
            var evs := ExecuteEvents(req, hasOnSuccess, hasOnError, o);
            && Count(evs, LogKind) == 1
            && Count(evs, OnErrorKind) == (if hasOnError then 1 else 0)
            && Settlement(o) == Threw(HandleApiError(NullErrorAccess))
  {
    CaughtBeforeAnyReport(status, statusText, NullErrorAccess);
    CaughtOnceReportsOnce(req, hasOnSuccess, hasOnError, Responded(status, statusText, Parsed(JNull)));
  }

  /**
   * A 2xx response with a decodable body resolves with that body, hands it
   * to `onSuccess` once, and reports nothing.
   */
  lemma SuccessReportsNothing(req: Request, hasOnSuccess: bool, hasOnError: bool, status: nat, statusText: string, data: Json)
    requires IsOk(status)
    ensures var o := Responded(status, statusText, Parsed(data));
            var evs := ExecuteEvents(req, hasOnSuccess, hasOnError, o);
            && Count(evs, SuccessKind) == (if hasOnSuccess then 1 else 0)
            && Count(evs, LogKind) == 0 && Count(evs, OnErrorKind) == 0
            && (hasOnSuccess ==> evs[3] == SuccessCalled(data))
            && Settlement(o) == Resolved(data)
            && StoredAfter(Settlement(o)) == None
  {
    var o := Responded(status, statusText, Parsed(data));
    CountExecute(req, hasOnSuccess, hasOnError, o, SuccessKind);
    CountExecute(req, hasOnSuccess, hasOnError, o, LogKind);
    CountExecute(req, hasOnSuccess, hasOnError, o, OnErrorKind);
    if hasOnSuccess {
      CountOne(SuccessCalled(data), SuccessKind);
      CountOne(SuccessCalled(data), LogKind);
      CountOne(SuccessCalled(data), OnErrorKind);
    }
  }

  /**
   * The settlement the code evidently intends: the server error it builds
   * for a non-2xx response, complete with the body's message, is meant for
   * the caller, so it is thrown as it is instead of being caught again and
   * classified a second time. Whether the call throws is unchanged.
   */
  function IntendedSettlement(o: FetchOutcome): (s: Settled)
    ensures s.Threw? <==> Settlement(o).Threw?
    ensures EarlyReport(o).None? ==> s == Settlement(o)
  {
    match EarlyReport(o)
    case Some(e) => Threw(e)
    case None => Settlement(o)
  }

  /** The intended effects after the request: one report of the server error, or as written otherwise. */
  function IntendedOutcomeEvents(o: FetchOutcome, hasOnSuccess: bool, hasOnError: bool): seq<Event> {
    match EarlyReport(o)
    case Some(e) => ReportEvents(e, hasOnError)
    case None => OutcomeEvents(o, hasOnSuccess, hasOnError)
  }

  /** The intended effects of one `execute` call. */
  function IntendedExecuteEvents(req: Request, hasOnSuccess: bool, hasOnError: bool, o: FetchOutcome): seq<Event> {
    Prologue(req) + IntendedOutcomeEvents(o, hasOnSuccess, hasOnError) + [LoadingSet(false)]
  }

  /**
   * Under the intended behaviour a non-2xx response with a non-`null` body
   * is logged once, reported to `onError` once, and stored as the server error.
   */
  lemma IntendedNonOkReportsOnce(req: Request, hasOnSuccess: bool, hasOnError: bool, status: nat, statusText: string, body: Decoded)
    requires !IsOk(status) && body != Parsed(JNull)
    ensures var o := Responded(status, statusText, body);
            var evs := IntendedExecuteEvents(req, hasOnSuccess, hasOnError, o);
            && Count(evs, LogKind) == 1
            && Count(evs, OnErrorKind) == (if hasOnError then 1 else 0)
            && Count(evs, SuccessKind) == 0
            && StoredAfter(IntendedSettlement(o)) == EarlyReport(o)
  {
    var o := Responded(status, statusText, body);
    var e := ServerError(status, statusText, body).value;
    assert IntendedOutcomeEvents(o, hasOnSuccess, hasOnError) == ReportEvents(e, hasOnError);
    CountIntended(req, ReportEvents(e, hasOnError), LogKind);
    CountIntended(req, ReportEvents(e, hasOnError), OnErrorKind);
    CountIntended(req, ReportEvents(e, hasOnError), SuccessKind);
    CountReport(e, hasOnError, LogKind);
    CountReport(e, hasOnError, OnErrorKind);
    CountReport(e, hasOnError, SuccessKind);
  }

  /** A call's trace counted as its fixed part plus the effects after the request. */
  lemma CountIntended(req: Request, rest: seq<Event>, k: Kind)
    ensures Count(Prologue(req) + rest + [LoadingSet(false)], k) == FrameCount(k) + Count(rest, k)
  {
    CountPrologue(req, k);
    CountOne(LoadingSet(false), k);
    CountAppend(Prologue(req), rest, k);
    CountAppend(Prologue(req) + rest, [LoadingSet(false)], k);
  }

  /** Under the intended behaviour a non-2xx response settles with its server error. */
  lemma IntendedNonOkIsServerError(status: nat, statusText: string, body: Decoded)
    requires !IsOk(status) && body != Parsed(JNull)
    ensures var s := IntendedSettlement(Responded(status, statusText, body));
            && s.Threw? && s.error.kind == Server
            && s.error.status == Some(status) && s.error.details == Some(statusText)
            && s.error.message == if body.Parsed? && HasErrorText(body.value) then body.value.fields["error"].s
                                  else StatusLine(status, statusText)
  {
  }

  /**
   * The code as written and the intended behaviour part ways exactly on the
   * responses whose server error is built and then re-thrown.
   */
  lemma AsWrittenDiffersOnlyOnNonOk(o: FetchOutcome)
    ensures Settlement(o) != IntendedSettlement(o) <==> EarlyReport(o).Some?
  {
    if EarlyReport(o).Some? {
      assert Settlement(o).error.kind == Unknown;
    }
  }

  /**
   * A `409` response with `{"error": "Duplicate match"}`: as written, the
   * stored and thrown error is the generic unknown one; intended is the
   * server error with status 409 and the body's message.
   */
  lemma DuplicateMatchIsReclassified()
    ensures var o := Responded(409, "Conflict", Parsed(JObject(map["error" := JString("Duplicate match")])));
            && Settlement(o) == Threw(ReclassifiedError)
            && IntendedSettlement(o) == Threw(ApiError("Duplicate match", Server, Some(409), Some("Conflict")))
  {
    var o := Responded(409, "Conflict", Parsed(JObject(map["error" := JString("Duplicate match")])));
    assert HasErrorText(o.body.value);
  }

  lemma AppendAssoc(a: seq<Event>, b: seq<Event>, c: seq<Event>)
    ensures a + (b + c) == a + b + c
  {
  }

  /** `ExecuteEvents` appended to a trace, regrouped the way `Execute` builds it. */
  lemma ExecuteTraceShape(before: seq<Event>, req: Request, hasOnSuccess: bool, hasOnError: bool, o: FetchOutcome)
    ensures before + ExecuteEvents(req, hasOnSuccess, hasOnError, o)
            == before + [LoadingSet(true)] + [ErrorSet(None)] + [Fetched(req)]
               + EarlyEvents(o, hasOnError) + OutcomeEvents(o, hasOnSuccess, hasOnError) + [LoadingSet(false)]
  {
    var early := EarlyEvents(o, hasOnError);
    var rest := OutcomeEvents(o, hasOnSuccess, hasOnError);
    var p := Prologue(req);
    AppendAssoc(before, p + early + rest, [LoadingSet(false)]);
    AppendAssoc(before, p + early, rest);
    AppendAssoc(before, p, early);
    AppendAssoc(before, [LoadingSet(true)] + [ErrorSet(None)], [Fetched(req)]);
    AppendAssoc(before, [LoadingSet(true)], [ErrorSet(None)]);
  }

  /** One instance of the hook, with its options fixed at creation. */
  class ApiHook {
    const baseUrl: string
    const hasOnSuccess: bool
    const hasOnError: bool
    var loading: bool
    var error: Option<ApiError>
    var events: seq<Event>

    /** The state fields hold the values of the latest setter calls. */
    ghost predicate Valid()
      reads this
    {
      loading == LastLoading(events) && error == LastStored(events)
    }

    constructor(baseUrl: string, hasOnSuccess: bool, hasOnError: bool)
      ensures Valid()
      ensures this.baseUrl == baseUrl && this.hasOnSuccess == hasOnSuccess && this.hasOnError == hasOnError
      ensures !loading && error == None && events == []
    {
      this.baseUrl := baseUrl;
      this.hasOnSuccess := hasOnSuccess;
      this.hasOnError := hasOnError;
      loading := false;
      error := None;
      events := [];
    }

    method SetLoading(value: bool)
      requires Valid()
      modifies this
      ensures Valid()
      ensures loading == value && error == old(error) && events == old(events) + [LoadingSet(value)]
    {
      LastAfterAppend(events, LoadingSet(value));
      loading := value;
      events := events + [LoadingSet(value)];
    }

    method SetError(value: Option<ApiError>)
      requires Valid()
      modifies this
      ensures Valid()
      ensures error == value && loading == old(loading) && events == old(events) + [ErrorSet(value)]
    {
      LastAfterAppend(events, ErrorSet(value));
      error := value;
      events := events + [ErrorSet(value)];
    }

    /** Appends an effect that is not a setter call. */
    method Emit(e: Event)
      requires Valid()
      requires !e.LoadingSet? && !e.ErrorSet?
      modifies this
      ensures Valid()
      ensures error == old(error) && loading == old(loading) && events == old(events) + [e]
    {
      LastAfterAppend(events, e);
      events := events + [e];
    }

    /** `logError(e, 'API Request'); setError(e); options.onError?.(e)` */
    method Report(e: ApiError)
      requires Valid()
      modifies this
      ensures Valid()
      ensures error == Some(e) && loading == old(loading)
      ensures events == old(events) + ReportEvents(e, hasOnError)
    {
      Emit(Logged(LogErrorEntry(e, Some(RequestContext))));
      SetError(Some(e));
      if hasOnError {
        Emit(ErrorCalled(e));
      }
    }

    /**
     * The body of the `try` block: resolves the URL, issues the request and
     * handles the response, up to the value (if any) that is thrown.
     */
    method TryBlock(url: string, init: RequestInit, outcome: FetchOutcome) returns (caught: Option<Thrown>, data: Json)
      requires Valid()
      modifies this
      ensures Valid() && loading == old(loading)
      ensures caught == CaughtValue(outcome)
      ensures caught.None? ==> data == outcome.body.value
      ensures events == old(events) + [Fetched(RequestFor(baseUrl, url, init))]
                        + EarlyEvents(outcome, hasOnError)
                        + (if caught.None? && hasOnSuccess then [SuccessCalled(data)] else [])
      ensures EarlyReport(outcome).Some? ==> error == EarlyReport(outcome)
      ensures EarlyReport(outcome).None? ==> error == old(error)
    {
      var fullUrl := if StartsWith(url, "http") then url else BuildApiUrl(baseUrl, url);
      var headers := MergeHeaders(init.headers);
      Emit(Fetched(Request(fullUrl, init.verb, init.body, headers)));
      caught, data := HandleResponse(outcome);
    }

    /** The part of the `try` block after `fetch` settles with `outcome`. */
    method HandleResponse(outcome: FetchOutcome) returns (caught: Option<Thrown>, data: Json)
      requires Valid()
      modifies this
      ensures Valid() && loading == old(loading)
      ensures caught == CaughtValue(outcome)
      ensures caught.None? ==> data == outcome.body.value
      ensures events == old(events) + EarlyEvents(outcome, hasOnError)
                        + (if caught.None? && hasOnSuccess then [SuccessCalled(data)] else [])
      ensures EarlyReport(outcome).Some? ==> error == EarlyReport(outcome)
      ensures EarlyReport(outcome).None? ==> error == old(error)
    {
      caught, data := None, JNull;
      match outcome {
        case Rejected(reason) =>
          caught := Some(reason);
        case Responded(status, statusText, body) =>
          if !IsOk(status) {
            var errorData := if body.Parsed? then body.value else JObject(map[]);
            var message := ErrorOr(errorData, StatusLine(status, statusText));
            if message.Failure? {
              caught := Some(message.error);
            } else {
              var apiError := ApiError(message.value, Server, Some(status), Some(statusText));
              Report(apiError);
              // `throw apiError`: a plain object, caught by the enclosing `catch`
              caught := Some(OtherValue(PlainObjectString));
            }
          } else if body.Unparsable? {
            caught := Some(body.thrown);
          } else {
            data := body.value;
            if hasOnSuccess {
              Emit(SuccessCalled(data));
            }
          }
      }
    }

    /** `execute(url, init)`, where awaiting `fetch` yields `outcome`. */
    method Execute(url: string, init: RequestInit, outcome: FetchOutcome) returns (settled: Settled)
      requires Valid()
      modifies this
      ensures Valid()
      ensures events == old(events) + ExecuteEvents(RequestFor(baseUrl, url, init), hasOnSuccess, hasOnError, outcome)
      ensures settled == Settlement(outcome)
      ensures error == StoredAfter(settled)
      ensures !loading
    {
      ghost var before := events;
      SetLoading(true);
      SetError(None);
      var caught, data := TryBlock(url, init, outcome);
      ghost var upToEarly := before + [LoadingSet(true)] + [ErrorSet(None)] + [Fetched(RequestFor(baseUrl, url, init))]
                             + EarlyEvents(outcome, hasOnError);
      if caught.Some? {
        assert events == upToEarly + [];
        assert upToEarly + [] == upToEarly;
        var apiError := HandleApiError(caught.value);
        Report(apiError);
        settled := Threw(apiError);
      } else {
        settled := Resolved(data);
      }
      assert events == upToEarly + OutcomeEvents(outcome, hasOnSuccess, hasOnError);
      SetLoading(false);
      ExecuteTraceShape(before, RequestFor(baseUrl, url, init), hasOnSuccess, hasOnError, outcome);
    }

    /** `clearError()` */
    method ClearError()
      requires Valid()
      modifies this
      ensures Valid()
      ensures error == None && loading == old(loading)
      ensures events == old(events) + [ErrorSet(None)]
    {
      SetError(None);
    }
  }
}
