/**
 * The request descriptors the dashboards hand to `fetch`: method, URL and headers.
 * Sending the request and reading its response are not modelled; the outcome of a
 * request enters the model as a parameter of the step that handles it.
 */
module Http {
  import opened Common

  datatype HttpMethod = GET | POST | PUT | DELETE

  datatype Header = Header(name: string, value: string)

  /** A request: method, full URL, headers in the order written, and an optional JSON body. */
  datatype Request<B> = Request(verb: HttpMethod, url: string, headers: seq<Header>, body: Option<B>)

  /** The outcome of a request whose handler reads the body only on success. */
  datatype Reply<T> =
    | Ok(data: T)   // response.ok, with the decoded JSON body
    | NotOk         // a non-2xx status
    | Threw         // fetch or response.json() threw

  const DefaultApiBase: string := "https://vendorbakend.onrender.com"

  /** `import.meta.env.VITE_API_BASE_URL || default`: an unset or empty setting falls back to the default. */
  function ApiBase(configured: Option<string>): (base: string)
    ensures configured.Some? && configured.value != "" ==> base == configured.value
    ensures configured.None? || configured.value == "" ==> base == DefaultApiBase
  {
    if configured.Some? && configured.value != "" then configured.value else DefaultApiBase
  }

  const BearerPrefix: string := "Bearer "

  /**
   * The Authorization value `Bearer ${token}` where token is what localStorage.getItem('token')
   * returned; a missing token is interpolated as the text "null".
   */
  function Bearer(storedToken: Option<string>): (value: string)
    ensures |value| >= |BearerPrefix| && value[..|BearerPrefix|] == BearerPrefix
    ensures storedToken.Some? ==> value[|BearerPrefix|..] == storedToken.value
    ensures storedToken.None? ==> value[|BearerPrefix|..] == "null"
  {
    BearerPrefix + (if storedToken.Some? then storedToken.value else "null")
  }

  function AuthHeader(storedToken: Option<string>): Header
  {
    Header("Authorization", Bearer(storedToken))
  }

  /** Distinct stored tokens give distinct Authorization values. */
  lemma BearerInjective(t1: string, t2: string)
    requires Bearer(Some(t1)) == Bearer(Some(t2))
    ensures t1 == t2
  {
  }

  /** A missing token and a stored token that is the text "null" send the same header. */
  lemma BearerMissingLooksLikeNull()
    ensures Bearer(None) == Bearer(Some("null"))
  {
  }
}
