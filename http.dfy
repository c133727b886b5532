/**
 * What a `fetch` call can come back with, as an abstract value: either the
 * call throws, or a response arrives whose body may or may not decode as
 * JSON. Also the `body.error || fallback` lookup both request paths share.
 */
module Http {
  import opened Wrappers
  import opened ErrorHandler

  /** A decoded JSON value (numbers restricted to integers). */
  datatype Json =
    | JNull
    | JBool(b: bool)
    | JNumber(n: int)
    | JString(s: string)
    | JArray(items: seq<Json>)
    | JObject(fields: map<string, Json>)

  /** The outcome of `response.json()`. */
  datatype Decoded = Parsed(value: Json) | Unparsable(thrown: Thrown)

  /** The outcome of awaiting `fetch(...)`. */
  datatype FetchOutcome =
    | Rejected(reason: Thrown)
    | Responded(status: nat, statusText: string, body: Decoded)

  /** `response.ok` */
  predicate IsOk(status: nat) {
    200 <= status <= 299
  }

  /** The `TypeError` JavaScript throws for `errorData.error` when `errorData` is `null`. */
  const NullErrorAccess: Thrown := TypeErrorValue("Cannot read properties of null (reading 'error')", None)

  /** The response carried a usable `error` string: present and non-empty. */
  predicate HasErrorText(data: Json) {
    data.JObject? && "error" in data.fields && data.fields["error"].JString? && data.fields["error"].s != ""
  }

  /**
   * `data.error || fallback`: throws on a `null` body, gives the body's
   * `error` string when it is present and non-empty, and `fallback` otherwise.
   */
  function ErrorOr(data: Json, fallback: string): (r: Result<string, Thrown>)
    ensures r.Failure? <==> data.JNull?
    ensures r.Failure? ==> r.error == NullErrorAccess
    ensures r.Success? ==> (r.value == if HasErrorText(data) then data.fields["error"].s else fallback)
  {
    if data.JNull? then Failure(NullErrorAccess)
    else if HasErrorText(data) then Success(data.fields["error"].s)
    else Success(fallback)
  }
}
