# Football match tracker client: error handling and request core

This project models, in Dafny, the request and error-handling core of the
match tracker's Next.js client:

- `ErrorHandler` covers the error classifier. It maps any thrown value to an
  `ApiError` record `{message, type, status?, details?}` with a
  first-match-wins chain: network failure, HTTP response, `Error`, anything
  else. It also models the offline test, the user-facing message and the
  structured log line.
- `ApiConfig` covers how the API base address is resolved and how endpoint
  URLs are built against it.
- `UseApi` covers the `useApi` hook. The class `ApiHook` keeps the hook's
  `loading` and `error` state and a trace of every observable effect:
  - state setter calls;
  - the `fetch` call;
  - `console.error` log entries;
  - the `onSuccess` and `onError` callbacks.

  `ApiHook.Execute` is proved equal to the pure trace function
  `ExecuteEvents`, and the promised behaviours are lemmas about that
  function.
- `ServerStatus` covers the health indicator: a tri-state `isOnline`, the
  check that updates it and the three renderings of it.
- `TeamNameEditor` covers the team-name dialog. It checks that both names
  are non-empty after trimming, sends a `PATCH` with the trimmed names, and
  shows an error or calls `onSave`/`onClose`. `handleCancel` reverts the
  names.
- `JsString` holds the JavaScript string operations the client relies on:
  - `startsWith`, `endsWith` and `includes`;
  - `trim`, with the ECMAScript whitespace set;
  - the decimal rendering of a status code.
- `Http` holds the abstract outcome of a `fetch` call and the
  `data.error || fallback` lookup.

Outside inputs are parameters of the model:
- the network result of `fetch` (`FetchOutcome`: a thrown value, or a
  status, a status text and a body that does or does not decode);
- the configured `NEXT_PUBLIC_API_URL` (an `Option<string>`);
- the clock (an `int`).

In these places the code behaves otherwise than a reader might expect, and the
model follows the code:

- **Errors are classified twice, not once.** For a non-2xx response the
  code builds the server error, logs it, stores it and reports it, and
  then throws it inside its own `try`. The `catch` classifies it again as
  an unknown error (see Findings). The model reproduces both reports.
- **Only one trailing slash is stripped.** The base address does not
  always avoid double slashes: `replace(/\/$/, '')` removes one trailing
  `/` only (`ApiConfig.DoubleSlashKeepsOne`).
- **"Absolute URL" means the prefix `http`.** The test for an absolute URL
  is that literal prefix, not a scheme check.
- **The health check calls `fetch` directly.** It does not go through the
  request hook, and its 5-second abort is its own.

## Model

| member | source | states |
|---|---|---|
| `JsString.IncludesIffOccurs` | src/utils/errorHandler.ts:10 | `includes` holds exactly when the substring occurs at some index |
| `JsString.Trim` | src/components/TeamNameEditor.tsx:24 | the trimmed name is empty exactly when every character is whitespace, and otherwise it starts and ends with non-whitespace |
| `JsString.TrimIsInfix` | src/components/TeamNameEditor.tsx:39-40 | the trimmed name is an infix of the name with only whitespace cut from either side |
| `JsString.TrimIdempotent` | src/components/TeamNameEditor.tsx:39-40 | trimming an already trimmed name changes nothing |
| `JsString.NatToString` | src/utils/errorHandler.ts:21 | a status renders as a non-empty digit string with no leading zero except for 0 |
| `JsString.DecimalRoundTrip` | src/utils/errorHandler.ts:21 | reading the rendered digits back gives the status again |
| `JsString.NatToStringInjective` | src/utils/errorHandler.ts:21 | distinct statuses render differently |
| `ErrorHandler.StatusLine` | src/utils/errorHandler.ts:21 | the status line starts with `HTTP ` and ends with the status text |
| `ErrorHandler.StatusLineDeterminesStatus` | src/utils/errorHandler.ts:21 | the status line determines both the status code and the status text |
| `ErrorHandler.HandleApiError` | src/utils/errorHandler.ts:8-43 | never `client`; `network` iff a `TypeError` mentioning `fetch`; `server` iff a `Response`; a status iff a `Response`; no details only for an `Error` without a stack |
| `ErrorHandler.ClassifyFetchFailure` | src/utils/errorHandler.ts:10-16 | a fetch `TypeError` gives the fixed advisory message and keeps its own message as details |
| `ErrorHandler.ClassifyResponse` | src/utils/errorHandler.ts:19-26 | a `Response` gives kind server, its status, its status text as details and exactly the status line `HTTP <status>: <text>` as message |
| `ErrorHandler.ClassifyGenericError` | src/utils/errorHandler.ts:29-35 | an `Error`, or a `TypeError` not about `fetch`, keeps its message and stack as an unknown error |
| `ErrorHandler.ClassifyOther` | src/utils/errorHandler.ts:38-42 | any other value gives the fixed unexpected-error message with `String(value)` as details |
| `ErrorHandler.IsServerOffline` | src/utils/errorHandler.ts:45-47 | a network error always counts as offline, a client or unknown error never, and a server error exactly when its status is 0 |
| `ErrorHandler.OfflineIffUnreachable` | src/utils/errorHandler.ts:45-47 | a classified failure counts as offline exactly for a fetch failure or a response with status 0 |
| `ErrorHandler.GetErrorMessage` | src/utils/errorHandler.ts:49-60 | the display text for each of the four kinds, with the fallback when an unknown error has an empty message |
| `ErrorHandler.DisplayOfClassified` | src/utils/errorHandler.ts:49-60 | every classified failure shows a non-empty text, its own message whenever that is non-empty |
| `ErrorHandler.ContextLabel` | src/utils/errorHandler.ts:63 | the log label is the given context when non-empty, `API Error` otherwise, and never empty |
| `ErrorHandler.LogErrorEntry` | src/utils/errorHandler.ts:62-68 | the log entry holds the four fields of the error unchanged under the context label |
| `ApiConfig.ConfiguredBase` | src/utils/apiConfig.ts:4 | a configured non-empty value wins; an absent or empty one gives the fixed default |
| `ApiConfig.StripTrailingSlash` | src/utils/apiConfig.ts:7 | one trailing `/` is removed if present; otherwise the value is unchanged |
| `ApiConfig.GetApiUrl` | src/utils/apiConfig.ts:2-8 | the base is the configured value (or the default) with one trailing `/` removed if present; so it is a prefix of that value and at most one character shorter |
| `ApiConfig.DefaultBaseUnchanged` | src/utils/apiConfig.ts:4-7 | with nothing configured the base is the default address exactly |
| `ApiConfig.DoubleSlashKeepsOne` | src/utils/apiConfig.ts:7 | a value ending in `//` keeps one trailing `/` |
| `ApiConfig.CleanEndpoint` | src/utils/apiConfig.ts:14 | the cleaned endpoint starts with `/` and ends with the endpoint as given |
| `ApiConfig.CleanEndpointKeepsSlash` | src/utils/apiConfig.ts:14 | an endpoint already starting with `/` is used as it is, with no second `/` |
| `ApiConfig.CleanEndpointIdempotent` | src/utils/apiConfig.ts:14 | cleaning twice is cleaning once |
| `ApiConfig.BuildApiUrl` | src/utils/apiConfig.ts:13-16 | the URL is the base followed by the cleaned endpoint |
| `ApiConfig.BuildApiUrlShape` | src/utils/apiConfig.ts:13-16 | the URL ends with the endpoint, and the character right after the base is `/` |
| `ApiConfig.LeadingSlashOptional` | src/utils/apiConfig.ts:14 | `x` and `/x` build the same URL exactly when `x` does not itself start with `/` |
| `ApiConfig.BuildIgnoresCleaning` | src/utils/apiConfig.ts:13-16 | building from a cleaned endpoint gives the same URL |
| `ApiConfig.BuildOnConfiguredBase` | src/utils/apiConfig.ts:10-16 | against the configured base, a relative endpoint gets exactly one separating `/` |
| `Http.ErrorOr` | src/hooks/useApi.ts:38-40 | `data.error \|\| fallback` throws exactly on a `null` body, gives the non-empty `error` string when present, and the fallback otherwise |
| `UseApi.ResolveUrl` | src/hooks/useApi.ts:28 | a URL starting with `http` is used as is; any other is the base followed by the cleaned endpoint; either way the result ends with the URL |
| `UseApi.MergeHeaders` | src/hooks/useApi.ts:29-35 | the headers are the caller's, plus `Content-Type: application/json` unless the caller gave one |
| `UseApi.ServerError` | src/hooks/useApi.ts:37-44 | a non-2xx response gives a server error with its status and status text, whose message is the body's `error` text or the status line; a `null` body throws instead |
| `UseApi.CaughtValue` | src/hooks/useApi.ts:37-61 | the `catch` clause is reached unless a 2xx response's body decodes; a thrown server error arrives there as a plain object |
| `UseApi.ExecuteEvents` | src/hooks/useApi.ts:22-65 | the trace of one call opens with `setLoading(true)`, `setError(null)` and the `fetch`, and closes with `setLoading(false)` |
| `UseApi.Settlement` | src/hooks/useApi.ts:22-65 | `execute` resolves exactly when a 2xx response's body decodes, and then with that body; a thrown request is thrown on as its classification |
| `UseApi.LastAfterAppend` | src/hooks/useApi.ts:19-20 | only setter calls change `loading` and `error` |
| `UseApi.CountReport` | src/hooks/useApi.ts:56-61 | one report logs once, stores once and calls `onError` once when it is given |
| `UseApi.ExecuteBracketsTheRequest` | src/hooks/useApi.ts:22-65 | `loading` is set and the error cleared before the one request; the call ends by clearing `loading`, and `loading` is set twice in total |
| `UseApi.NonOkReportsTwice` | src/hooks/useApi.ts:37-61 | a non-2xx response with a non-`null` body is logged twice, reported to `onError` twice, and settles with the reclassified unknown error |
| `UseApi.NonOkLogsServerErrorFirst` | src/hooks/useApi.ts:46 | the first log entry after the request is the server error |
| `UseApi.CaughtOnceReportsOnce` | src/hooks/useApi.ts:56-61 | whatever is thrown before any report is classified once, logged once, reported to `onError` once when given, and thrown; `onSuccess` is not called |
| `UseApi.CaughtBeforeAnyReport` | src/hooks/useApi.ts:26-56 | a thrown request, a non-2xx response with a `null` body and a 2xx response whose body does not decode all reach `catch` with no report made before |
| `UseApi.NullBodyReportsOnce` | src/hooks/useApi.ts:37-61 | a non-2xx response with a `null` body is reported once, not twice, and throws the classified `TypeError` of the `.error` lookup |
| `UseApi.RejectedReportsOnce` | src/hooks/useApi.ts:56-61 | a thrown transport failure is logged once, reported once and thrown as its classification |
| `UseApi.SuccessReportsNothing` | src/hooks/useApi.ts:52-54 | a 2xx decodable response resolves with its body, calls `onSuccess` once with it, reports nothing and leaves no error stored |
| `UseApi.IntendedSettlement` | src/hooks/useApi.ts:37-49 | the corrected settlement throws in exactly the cases the code as written throws, and differs only where a server error was built |
| `UseApi.IntendedNonOkIsServerError` | src/hooks/useApi.ts:37-49 | under the intended settlement a non-2xx response throws its server error with status, status text and message |
| `UseApi.IntendedNonOkReportsOnce` | src/hooks/useApi.ts:37-49 | under the corrected behaviour a non-2xx response is logged once, reported to `onError` once, and its server error is stored |
| `UseApi.AsWrittenDiffersOnlyOnNonOk` | src/hooks/useApi.ts:37-61 | the code as written and the intended behaviour differ exactly on the non-2xx responses whose server error is built |
| `UseApi.DuplicateMatchIsReclassified` | src/hooks/useApi.ts:49-57 | a 409 with `{"error":"Duplicate match"}` settles as the generic unknown error, where the server error was intended |
| `UseApi.ApiHook.constructor` | src/hooks/useApi.ts:19-20 | the hook starts with `loading` false, no error and no effects |
| `UseApi.ApiHook.Report` | src/hooks/useApi.ts:58-60 | log, store and call `onError`, in that order |
| `UseApi.ApiHook.TryBlock` | src/hooks/useApi.ts:26-54 | issues the resolved request and gives the value that reaches `catch` |
| `UseApi.ApiHook.HandleResponse` | src/hooks/useApi.ts:37-54 | gives the caught value and the early report for the response, and keeps `loading` |
| `UseApi.ApiHook.Execute` | src/hooks/useApi.ts:22-65 | the effects are exactly `ExecuteEvents` of the request, settlement is `Settlement(outcome)`, the stored error is the thrown one or none, and `loading` ends false; the state keeps matching the trace |
| `UseApi.ApiHook.ClearError` | src/hooks/useApi.ts:67-69 | clears the stored error and nothing else |
| `ServerStatus.CheckResult` | src/components/ServerStatus.tsx:27-36 | a check reports online exactly for a 2xx response |
| `ServerStatus.StatusColor` | src/components/ServerStatus.tsx:53-56 | grey exactly while the state is unknown, green exactly when online, red exactly when offline |
| `ServerStatus.StatusText` | src/components/ServerStatus.tsx:58-61 | `Checking...`, `Online` and `Offline` each belong to exactly one state |
| `ServerStatus.StatusDescription` | src/components/ServerStatus.tsx:63-67 | the waiting text exactly while the state is unknown; the online and offline texts end differently |
| `ServerStatus.StatusColorSplits` | src/components/ServerStatus.tsx:53-56 | the colour tells the three states apart |
| `ServerStatus.StatusTextSplits` | src/components/ServerStatus.tsx:58-61 | the text tells the three states apart |
| `ServerStatus.StatusDescriptionSplits` | src/components/ServerStatus.tsx:63-67 | the description tells the three states apart |
| `ServerStatus.StatusAfterCheck` | src/components/ServerStatus.tsx:27-36 | after a check the text is `Online` for a 2xx response and `Offline` otherwise, and never `Checking...` |
| `ServerStatus.ServerStatus.constructor` | src/components/ServerStatus.tsx:11-13 | the state starts unknown and unchecked |
| `ServerStatus.ServerStatus.CheckServerStatus` | src/components/ServerStatus.tsx:15-41 | one health request, the state and the one `onStatusChange` call both carry the result, then the busy flag clears and the time is recorded; the shown state stays the last reported one |
| `TeamNameEditor.NamesFilledIff` | src/components/TeamNameEditor.tsx:24-27 | a save passes the check exactly when both names hold a non-whitespace character |
| `TeamNameEditor.TrimmedName` | src/components/TeamNameEditor.tsx:39-40 | a name that passes is sent as a non-empty infix with no whitespace at either end and only whitespace outside it |
| `TeamNameEditor.TrimmedFromIsTrim` | src/components/TeamNameEditor.tsx:39-40 | conversely, the only such infix is the trim of the name |
| `TeamNameEditor.TeamsRequestFor` | src/components/TeamNameEditor.tsx:33-41 | the request carries the trimmed names to the edited match's address: the base followed by `/api/match/<id>/teams` |
| `TeamNameEditor.TeamsUrlShape` | src/components/TeamNameEditor.tsx:33 | the save URL starts with the base and ends with the match's own path `/api/match/<id>/teams` |
| `TeamNameEditor.RequestCarriesTrimmedNames` | src/components/TeamNameEditor.tsx:33-41 | each name sent is the edited name with exactly its surrounding whitespace cut, non-empty once the check has passed, to a URL built on the base |
| `TeamNameEditor.SaveError` | src/components/TeamNameEditor.tsx:44-52 | the error after the request is empty exactly on a 2xx; a thrown request or an undecodable or `null` body shows the network message; otherwise the body's `error` text or the update-failed message |
| `TeamNameEditor.SubmitTraceShape` | src/components/TeamNameEditor.tsx:29-55 | where each effect of a submitted save sits in the trace |
| `TeamNameEditor.SaveRejectsBlankNames` | src/components/TeamNameEditor.tsx:24-27 | a failed check shows the required message and sends nothing |
| `TeamNameEditor.SaveBracketsRequest` | src/components/TeamNameEditor.tsx:29-55 | a passing save sets the busy flag and clears the error before the request, and ends by clearing the busy flag |
| `TeamNameEditor.SaveOutcome` | src/components/TeamNameEditor.tsx:44-52 | a 2xx calls `onSave` then `onClose`; anything else shows a non-empty error and calls neither |
| `TeamNameEditor.TeamNameEditor.constructor` | src/components/TeamNameEditor.tsx:17-21 | the dialog starts with the match's names, not saving and with no error |
| `TeamNameEditor.TeamNameEditor.EditHomeTeam` | src/components/TeamNameEditor.tsx:81 | typing replaces the home name and nothing else |
| `TeamNameEditor.TeamNameEditor.EditAwayTeam` | src/components/TeamNameEditor.tsx:95 | typing replaces the away name and nothing else |
| `TeamNameEditor.TeamNameEditor.HandleSave` | src/components/TeamNameEditor.tsx:23-56 | the effects are exactly `SaveTrace`; the names are unchanged; the error is the required message after a failed check, otherwise `SaveError(outcome)` with the busy flag cleared |
| `TeamNameEditor.TeamNameEditor.Submit` | src/components/TeamNameEditor.tsx:29-55 | the effects are exactly `SubmitTrace` of the request; the error is `SaveError(outcome)` and the busy flag ends cleared |
| `TeamNameEditor.TeamNameEditor.HandleResponse` | src/components/TeamNameEditor.tsx:44-52 | the effects after the request and the error they leave |
| `TeamNameEditor.TeamNameEditor.HandleCancel` | src/components/TeamNameEditor.tsx:58-63 | restores the match's names, clears the error and calls `onClose` |

## Left out

- Rendering (JSX, class names other than the results of `getStatusColor`, the `disabled` state of the buttons) is not modelled. So the model does not stop `handleSave` from being called while a save is in flight.
- The 30-second polling interval, its clean-up, the 5-second `AbortController` timeout and `clearTimeout` of `ServerStatus` are not modelled. A timed-out check is one more thrown outcome.
- `fetch` is not modelled as I/O. Its result is the `FetchOutcome` argument; a `Response` body is a decoded value or the value `response.json()` throws.
- `process.env.NEXT_PUBLIC_API_URL` is a parameter of `GetApiUrl`. The classes `ApiHook`, `ServerStatus` and `TeamNameEditor` take their base address as a constructor argument and hold for any base; in the running client that base is `API_BASE_URL`, the value of `GetApiUrl` once at load time.
- The clock behind `new Date()` is the `now` parameter.
- `console.error` is recorded as a `Logged` event holding the entry. The console's formatting of the object is not modelled.
- JSON numbers are integers only. Floating point is not modelled.
- `Http.ErrorOr`: a truthy non-string `error` field (a number, an object) counts as absent, so the fallback is used. JavaScript would use the value itself.
- The `TypeError` thrown by reading `.error` of a `null` body has its stack modelled as absent.
- `String(value)` for a thrown value other than an `Error` or a `Response` is its `repr` field.
- Strings are sequences of code points. UTF-16 surrogate pairs are not modelled.
- `RequestInit` carries only method, body and headers. The other fields of `requestOptions` are passed through unread, and they are not modelled.
- React state batching, re-renders, stale closures and the `useCallback` dependency lists are not modelled. Each setter call takes effect at once, in program order.
- Concurrent or overlapping `execute` calls and overlapping health checks are not modelled. Each call runs to completion.
- The `showErrorNotification` option of `useApi` is declared but never read by the hook, so it is not modelled.
- `TeamNameEditor.TeamNameEditor.Submit` takes the already built request as a parameter. `HandleSave` passes `TeamsRequestFor(...)`, so the request it sends is the one `RequestCarriesTrimmedNames` describes.
- `UseApi.SuccessReportsNothing` assumes `onSuccess` returns normally. If it throws, the `catch` classifies, logs, stores and reports that error, and the call throws it even though the response was a 2xx. The model does not cover a throwing callback.
- `UseApi.NonOkReportsTwice` assumes `onError` returns normally. If it throws inside the `try`, that error is the one the `catch` classifies. The model does not cover this.
- `ServerStatus.ServerStatus.CheckServerStatus` assumes `onStatusChange` returns normally. If `onStatusChange(true)` throws, the `catch` sets the state offline and calls `onStatusChange(false)` a second time. The model does not cover this.
- `TeamNameEditor.TeamNameEditor.HandleSave` assumes `onSave` and `onClose` return normally. If one throws, the `catch` shows the network error message. The model does not cover this.
- `UseApi.MergeHeaders` assumes the caller's headers are a plain object. A `Headers` instance spreads to no keys, and the array-of-pairs form spreads as index keys. Neither case is modelled.
- The other files of the client (`ErrorNotification`, `MatchList`, `MatchSearch`, `LiveTracking`, the page) are not part of this model.

## Findings

| source | as written | input that shows it | evidently intended | confidence | as-written member | corrected member |
|---|---|---|---|---|---|---|
| src/hooks/useApi.ts:49-61 | the server `ApiError` is thrown inside the `try`, so the `catch` reclassifies the plain object as `{unknown, "An unexpected error occurred", details "[object Object]"}`; it is logged, stored, reported and thrown a second time | a `409 Conflict` response with body `{"error": "Duplicate match"}` | the server error (kind server, status 409, message `Duplicate match`) is stored and thrown, and reported once | not executed; high, because the plain object fails every `instanceof` test of the classifier | `UseApi.DuplicateMatchIsReclassified` | `UseApi.IntendedNonOkIsServerError` |

The intent is read from the code itself. Lines 39-44 build a server error
that carries the body's message and the status, and line 49 throws it, so
that error is evidently meant to reach the caller. The generic record the
`catch` substitutes discards both.

`UseApi.ApiHook.Execute` models the code as written, since that is the
behaviour callers observe. The corrected behaviour has two parts:
- `UseApi.IntendedSettlement` is the corrected settlement, and
  `UseApi.IntendedNonOkIsServerError` proves what it throws.
- `UseApi.IntendedExecuteEvents` is the corrected trace, and
  `UseApi.IntendedNonOkReportsOnce` proves it has a single report.

`UseApi.AsWrittenDiffersOnlyOnNonOk` proves that the code as written and the
corrected settlement differ exactly on the affected responses.
