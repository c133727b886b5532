/**
 * API base address and endpoint construction. The configured value
 * (`NEXT_PUBLIC_API_URL`) is a parameter instead of a process-wide read.
 */
module ApiConfig {
  import opened Wrappers
  import opened JsString

  /** The fallback when no base address is configured. */
  const DefaultApiUrl: string := "http://13.51.238.232:3000"

  /** `env || default`: an absent or empty configured value falls back. */
  function ConfiguredBase(env: Option<string>): (url: string)
    ensures env.Some? && env.value != "" ==> url == env.value
    ensures env.None? || env.value == "" ==> url == DefaultApiUrl
  {
    if env.Some? && env.value != "" then env.value else DefaultApiUrl
  }

  /** `url.replace(/\/$/, '')`: removes one `/` at the very end, if any. */
  function StripTrailingSlash(url: string): (r: string)
    ensures EndsWith(url, "/") ==> r + "/" == url
    ensures !EndsWith(url, "/") ==> r == url
  {
    if EndsWith(url, "/") then url[..|url| - 1] else url
  }

  /** `getApiUrl()`, with the configured value passed in. */
  function GetApiUrl(env: Option<string>): (base: string)
    ensures base == StripTrailingSlash(ConfiguredBase(env))
    ensures StartsWith(ConfiguredBase(env), base)
    ensures |ConfiguredBase(env)| - 1 <= |base|
  {
    var url := ConfiguredBase(env);
    var r := StripTrailingSlash(url);
    assert url[..|r|] == r;
    r
  }

  /** The fallback address has no trailing slash, so it is used as is. */
  lemma DefaultBaseUnchanged()
    ensures GetApiUrl(None) == DefaultApiUrl
    ensures GetApiUrl(Some("")) == DefaultApiUrl
  {
  }

  /**
   * Only one slash is removed: a configured value ending in `//` keeps one
   * trailing `/`.
   */
  lemma DoubleSlashKeepsOne(env: string)
    requires EndsWith(env, "//")
    ensures GetApiUrl(Some(env)) == env[..|env| - 1]
    ensures EndsWith(GetApiUrl(Some(env)), "/")
  {
    assert env[|env| - 2..][0] == '/' && env[|env| - 2..][1] == '/';
    assert EndsWith(env, "/") by {
      assert env[|env| - 1..] == [env[|env| - 1]];
    }
    var r := env[..|env| - 1];
    assert StripTrailingSlash(env) == r;
    assert r[|r| - 1..] == [env[|env| - 2]];
  }

  /** `cleanEndpoint`: the endpoint with a single leading `/` ensured. */
  function CleanEndpoint(endpoint: string): (e: string)
    ensures StartsWith(e, "/")
    ensures EndsWith(e, endpoint)
  {
    if StartsWith(endpoint, "/") then endpoint else "/" + endpoint
  }

  /** An endpoint that already starts with `/` is used as it is, with no second `/`. */
  lemma CleanEndpointKeepsSlash(endpoint: string)
    requires StartsWith(endpoint, "/")
    ensures CleanEndpoint(endpoint) == endpoint
  {
  }

  /** Cleaning an already clean endpoint changes nothing. */
  lemma CleanEndpointIdempotent(endpoint: string)
    ensures CleanEndpoint(CleanEndpoint(endpoint)) == CleanEndpoint(endpoint)
  {
  }

  /**
   * `buildApiUrl(endpoint)` against the base address `base`: the base,
   * then the cleaned endpoint.
   */
  function BuildApiUrl(base: string, endpoint: string): (url: string)
    ensures StartsWith(url, base)
    ensures url[|base|..] == CleanEndpoint(endpoint)
  {
    var url := base + CleanEndpoint(endpoint);
    assert url[..|base|] == base;
    url
  }

  /**
   * The built address ends with the endpoint as given, and the character
   * right after the base is always the separating `/`.
   */
  lemma BuildApiUrlShape(base: string, endpoint: string)
    ensures EndsWith(BuildApiUrl(base, endpoint), endpoint)
    ensures |BuildApiUrl(base, endpoint)| > |base| && BuildApiUrl(base, endpoint)[|base|] == '/'
  {
    var url := BuildApiUrl(base, endpoint);
    var e := CleanEndpoint(endpoint);
    assert url == base + e;
    assert e[..1][0] == '/';
    assert url[|base|] == e[0];
    assert url[|url| - |endpoint|..] == e[|e| - |endpoint|..];
  }

  /**
   * The leading `/` is optional: `buildApiUrl("x")` and `buildApiUrl("/x")`
   * coincide exactly when `x` does not itself start with `/`.
   */
  lemma LeadingSlashOptional(base: string, x: string)
    ensures BuildApiUrl(base, "/" + x) == BuildApiUrl(base, x) <==> !StartsWith(x, "/")
  {
    if StartsWith(x, "/") {
      assert |BuildApiUrl(base, "/" + x)| == |BuildApiUrl(base, x)| + 1;
    } else {
      assert StartsWith("/" + x, "/");
    }
  }

  /** Building is determined by the cleaned endpoint: cleaning first changes nothing. */
  lemma BuildIgnoresCleaning(base: string, endpoint: string)
    ensures BuildApiUrl(base, CleanEndpoint(endpoint)) == BuildApiUrl(base, endpoint)
  {
  }

  /**
   * Against the configured base: a relative endpoint without a leading `/`
   * gets exactly one separating `/` between the (stripped) base and it.
   */
  lemma BuildOnConfiguredBase(env: Option<string>, endpoint: string)
    requires !StartsWith(endpoint, "/")
    ensures BuildApiUrl(GetApiUrl(env), endpoint) == GetApiUrl(env) + "/" + endpoint
  {
    var b := GetApiUrl(env);
    assert CleanEndpoint(endpoint) == "/" + endpoint;
    assert BuildApiUrl(b, endpoint) == b + ("/" + endpoint);
    assert b + ("/" + endpoint) == b + "/" + endpoint;
  }
}
