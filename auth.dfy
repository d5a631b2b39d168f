/**
 * The API-key gate in backend/middleware/auth.py. Only the decision it
 * takes is modelled: let the request through, answer 401, or answer 403.
 * Logging and the asynchronous hand-over to the next handler are not.
 */
module Auth {
  import opened Wrappers

  /** What the middleware does with one request. */
  datatype Decision = Forward | Unauthorized401 | Forbidden403

  /** Only paths under this prefix are guarded. */
  const ApiPrefix: string := "/api/"

  /** Python's `str.startswith`. */
  function StartsWith(s: string, prefix: string): (r: bool)
    ensures r <==> |prefix| <= |s| && forall i :: 0 <= i < |prefix| ==> s[i] == prefix[i]
  {
    prefix <= s
  }

  /**
   * `verify_api_key`: exact comparison with the configured key. No trimming,
   * no case folding: equal length and the same character at every position.
   */
  function VerifyApiKey(apiKey: string, configuredKey: string): (r: bool)
    ensures r <==> |apiKey| == |configuredKey| && forall i :: 0 <= i < |apiKey| ==> apiKey[i] == configuredKey[i]
  {
    apiKey == configuredKey
  }

  /** Python truthiness of the header value: `not api_key` holds for a missing or empty header. */
  predicate MissingKey(apiKeyHeader: Option<string>)
    ensures MissingKey(apiKeyHeader) <==> apiKeyHeader.None? || |apiKeyHeader.value| == 0
  {
    apiKeyHeader.None? || apiKeyHeader.value == ""
  }

  /**
   * `api_key_middleware`: the early returns of the source, in their order.
   * The postconditions give each outcome in closed form; in particular a
   * request under /api/ is forwarded only when it carries the configured
   * key and that key is not empty.
   */
  function ApiKeyMiddleware(path: string, apiKeyHeader: Option<string>, configuredKey: string): (d: Decision)
    ensures d == Forward <==>
      !StartsWith(path, ApiPrefix) || (apiKeyHeader == Some(configuredKey) && configuredKey != "")
    ensures d == Unauthorized401 <==>
      StartsWith(path, ApiPrefix) && (apiKeyHeader.None? || |apiKeyHeader.value| == 0)
    ensures d == Forbidden403 <==>
      StartsWith(path, ApiPrefix) && apiKeyHeader.Some? && apiKeyHeader.value != ""
      && apiKeyHeader.value != configuredKey
  {
    if !StartsWith(path, ApiPrefix) then Forward
    else if MissingKey(apiKeyHeader) then Unauthorized401
    else if !VerifyApiKey(apiKeyHeader.value, configuredKey) then Forbidden403
    else Forward
  }

  /** Outside /api/ the header is never consulted: any two headers give the same decision. */
  lemma NonApiPathIgnoresHeader(path: string, h1: Option<string>, h2: Option<string>, configuredKey: string)
    requires !StartsWith(path, ApiPrefix)
    ensures ApiKeyMiddleware(path, h1, configuredKey) == ApiKeyMiddleware(path, h2, configuredKey) == Forward
  {
  }

  /**
   * The missing-key test comes first: an empty header is answered 401
   * whatever the configured key is, even when the configured key is itself
   * empty and would compare equal.
   */
  lemma EmptyKeyIsUnauthorizedNeverForbidden(path: string, configuredKey: string)
    requires StartsWith(path, ApiPrefix)
    ensures ApiKeyMiddleware(path, Some(""), configuredKey) == Unauthorized401
    ensures ApiKeyMiddleware(path, None, configuredKey) == Unauthorized401
  {
  }

  /** With an empty configured key no request under /api/ gets through. */
  lemma EmptyConfiguredKeyLocksApi(path: string, apiKeyHeader: Option<string>)
    requires StartsWith(path, ApiPrefix)
    ensures ApiKeyMiddleware(path, apiKeyHeader, "") != Forward
  {
  }

  /** A forwarded /api/ request carried exactly the configured key. */
  lemma ForwardedApiRequestHadConfiguredKey(path: string, apiKeyHeader: Option<string>, configuredKey: string)
    requires StartsWith(path, ApiPrefix)
    requires ApiKeyMiddleware(path, apiKeyHeader, configuredKey) == Forward
    ensures apiKeyHeader.Some? && VerifyApiKey(apiKeyHeader.value, configuredKey)
  {
  }
}
