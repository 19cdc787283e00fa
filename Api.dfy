/** The HTTP client set-up (services/api.ts): the base URL taken from the environment and the
    request interceptor that adds the bearer token held by the authentication store. */
module Api {
  import opened Wrappers
  import AuthStore

  const DefaultApiUrl: string := "http://localhost:5000"
  const ApiSuffix: string := "/api"
  const AuthorizationHeader: string := "Authorization"
  const BearerPrefix: string := "Bearer "

  /** `.replace(/\/$/, "")`: the pattern has no global flag, so at most one final "/" goes. */
  function StripTrailingSlash(s: string): (r: string)
    ensures s == r || s == r + "/"
    ensures s != [] && s[|s| - 1] == '/' <==> s == r + "/"
  {
    if s != [] && s[|s| - 1] == '/' then s[..|s| - 1] else s
  }

  /** `API_URL`: the environment value when it is set and non-empty, else the default. */
  function ApiUrl(env: Option<string>): (r: string)
    ensures Truthy(env) ==> r == StripTrailingSlash(env.value)
    ensures !Truthy(env) ==> r == DefaultApiUrl
  {
    StripTrailingSlash(MessageOr(env, DefaultApiUrl))
  }

  /** The client's `baseURL`. */
  function BaseUrl(env: Option<string>): (r: string)
  {
    ApiUrl(env) + ApiSuffix
  }

  /** The headers every request starts with. */
  const DefaultHeaders: map<string, string> := map["Content-Type" := "application/json"]

  /** What a rejected request promise carries. */
  datatype Settled<T> = Resolved(value: T) | Rejected(error: string)

  /** The interceptor's error handler re-rejects with the very same error. */
  function OnRequestError<T>(error: string): (r: Settled<T>)
    ensures r.Rejected? && r.error == error
  {
    Rejected(error)
  }

  /** Exactly one trailing slash is removed, whatever precedes it. */
  lemma StripRemovesOneSlash(s: string)
    ensures StripTrailingSlash(s + "/") == s
    ensures StripTrailingSlash(s + "//") == s + "/"
  {
    assert (s + "//")[..|s| + 1] == s + "/";
  }

  /** With the variable unset or empty the client talks to the local default. */
  lemma DefaultBaseUrl()
    ensures BaseUrl(None) == "http://localhost:5000/api"
    ensures BaseUrl(Some("")) == "http://localhost:5000/api"
    ensures BaseUrl(Some("https://shop.example/")) == "https://shop.example/api"
  {
    assert DefaultApiUrl[|DefaultApiUrl| - 1] != '/';
    StripRemovesOneSlash("https://shop.example");
  }

  /** The request configuration the interceptor receives and mutates in place. */
  class RequestConfig {
    var headers: Option<map<string, string>>

    constructor (headers: Option<map<string, string>>)
      ensures this.headers == headers
    {
      this.headers := headers;
    }
  }

  /** The headers after interception: with a truthy token and headers present, Authorization is
      set (overwriting any earlier value); otherwise the headers are unchanged. */
  function WithBearer(headers: Option<map<string, string>>, token: Option<string>):
    (r: Option<map<string, string>>)
    ensures r.Some? <==> headers.Some?
    ensures Truthy(token) && headers.Some? ==>
              r.value.Keys == headers.value.Keys + {AuthorizationHeader} &&
              r.value[AuthorizationHeader] == BearerPrefix + token.value &&
              forall k :: k in headers.value && k != AuthorizationHeader ==> r.value[k] == headers.value[k]
    ensures !(Truthy(token) && headers.Some?) ==> r == headers
  {
    if Truthy(token) && headers.Some? then
      Some(headers.value[AuthorizationHeader := BearerPrefix + token.value])
    else headers
  }

  /** The request interceptor: reads the store's token, mutates the config and hands back the
      same object. */
  method Intercept(config: RequestConfig, auth: AuthStore.AuthStore) returns (r: RequestConfig)
    modifies config
    ensures r == config
    ensures config.headers == WithBearer(old(config.headers), auth.token)
  {
    if Truthy(auth.token) && config.headers.Some? {
      config.headers := Some(config.headers.value[AuthorizationHeader := BearerPrefix + auth.token.value]);
    }
    return config;
  }

  /** A signed-out store (no token) leaves the default headers untouched; a signed-in one adds
      the bearer header next to them. */
  lemma InterceptExamples(token: string)
    requires token != ""
    ensures WithBearer(Some(DefaultHeaders), None) == Some(DefaultHeaders)
    ensures WithBearer(Some(DefaultHeaders), Some("")) == Some(DefaultHeaders)
    ensures WithBearer(Some(DefaultHeaders), Some(token)) ==
            Some(map["Content-Type" := "application/json", "Authorization" := "Bearer " + token])
    ensures WithBearer(None, Some(token)) == None
  {
  }
}
