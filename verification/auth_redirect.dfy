/** The interceptors of the shared HTTP client: requests and successful
    responses pass through, and a failed response is always re-rejected,
    after sending the browser to the login page on an unauthenticated call.
    The page change is an emitted effect. */
module AuthRedirect {
  import opened Wrappers
  import opened Text

  /** What the error interceptor reads from a failed request:
      `error.response?.status` and `error.config?.url`. */
  datatype HttpError = HttpError(status: Option<int>, url: Option<string>)

  /** Where the interceptor runs: on the server there is no `window`. */
  datatype Host = Server | Browser(path: string)

  const LoginPath := "/login"
  const RegisterPath := "/register"

  /** `error.config?.url?.endsWith('/me')`; a missing URL is not a "/me"
      request. */
  predicate IsMeRequest(e: HttpError) {
    e.url.Some? && EndsWith(e.url.value, "/me")
  }

  /** The nested tests of the error interceptor, in the order they are made. */
  predicate ShouldRedirect(e: HttpError, host: Host) {
    if e.status == Some(401) && !IsMeRequest(e) then
      if host.Browser? then host.path != LoginPath && host.path != RegisterPath
      else false
    else false
  }

  /** A settled request or response, before the interceptor sees it. */
  datatype Settled<T> = Fulfilled(value: T) | Failed(error: HttpError)

  /** What the caller receives, and where the browser was sent, if anywhere. */
  datatype Intercepted<T> =
    | Passed(value: T)
    | Rejected(error: HttpError, navigateTo: Option<string>)

  /** The response interceptor. */
  function OnResponse<T>(s: Settled<T>, host: Host): (r: Intercepted<T>)
    ensures s.Fulfilled? ==> r == Passed(s.value)
    ensures s.Failed? ==> r.Rejected? && r.error == s.error
    ensures r.Rejected? && r.navigateTo.Some? ==> r.navigateTo.value == LoginPath
    ensures r.Rejected? ==>
      (r.navigateTo.Some? <==>
        && s.error.status == Some(401)
        && (s.error.url.None? || !EndsWith(s.error.url.value, "/me"))
        && host.Browser?
        && host.path !in {LoginPath, RegisterPath})
  {
    match s
    case Fulfilled(v) => Passed(v)
    case Failed(e) => Rejected(e, if ShouldRedirect(e, host) then Some(LoginPath) else None)
  }

  /** The request interceptor: configs pass through, errors are rejected
      without any page change. */
  function OnRequest<T>(s: Settled<T>): (r: Intercepted<T>)
    ensures s.Fulfilled? ==> r == Passed(s.value)
    ensures s.Failed? ==> r == Rejected(s.error, None)
  {
    match s
    case Fulfilled(v) => Passed(v)
    case Failed(e) => Rejected(e, None)
  }

  /** The cases that never redirect: any status but 401, a "/me" probe, the
      server, and the login and register pages themselves; an unauthenticated
      call with no URL does redirect from any other page. */
  lemma NoRedirectCases(e: HttpError, path: string)
    ensures e.status != Some(401) ==> !ShouldRedirect(e, Browser(path))
    ensures IsMeRequest(e) ==> !ShouldRedirect(e, Browser(path))
    ensures !ShouldRedirect(e, Server)
    ensures !ShouldRedirect(e, Browser(LoginPath)) && !ShouldRedirect(e, Browser(RegisterPath))
    ensures path != LoginPath && path != RegisterPath ==> ShouldRedirect(HttpError(Some(401), None), Browser(path))
    ensures !ShouldRedirect(HttpError(Some(401), Some("/auth/me")), Browser(path))
  {
  }
}
