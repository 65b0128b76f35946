/**
 * The OAuth callback page, in its two versions: the live one under `pages/`
 * and an older copy at the root with different token rules. Both read the
 * parameters of the URL fragment, may hand the tokens to the authentication
 * client, show an error or a status line, and send the browser home.
 *
 * The fragment's parameters are given already parsed (a missing parameter
 * is `None`); what setting the session did is an outcome passed in; a
 * scheduled redirect is recorded with its delay in `redirects`.
 */
module Callback {
  import opened Wrappers
  import opened Text

  const Home := "/"
  const NotConfiguredError := "Authentication service not configured"
  const AuthFailedError := "Authentication failed"
  const SessionFailedError := "Failed to establish session"
  const UnexpectedError := "An unexpected error occurred"
  const InitialStatus := "Processing authentication..."
  const SettingUpStatus := "Setting up your session..."
  const SuccessStatus := "Success! Redirecting..."
  const RedirectingStatus := "Redirecting..."

  /** The parameters of the fragment: `access_token`, `refresh_token`, `error`, `error_description`. */
  datatype HashParams = HashParams(
    accessToken: Option<string>,
    refreshToken: Option<string>,
    error: Option<string>,
    errorDescription: Option<string>)

  /** The tokens handed to the client's `setSession`. */
  datatype SessionRequest = SessionRequest(accessToken: string, refreshToken: string)

  /** What `setSession` did: succeeded, reported an error, or threw. */
  datatype SessionOutcome = SessionOk | SessionError | SessionThrew

  datatype Redirect = Redirect(target: string, delayMs: nat)

  /** The live page sets a session only with a client, no error, and both tokens present. */
  function LiveSessionRequest(hasClient: bool, p: HashParams): (r: Option<SessionRequest>)
    ensures r.Some? <==> hasClient && !Truthy(p.error) && Truthy(p.accessToken) && Truthy(p.refreshToken)
    ensures r.Some? ==> r == Some(SessionRequest(p.accessToken.value, p.refreshToken.value))
  {
    if hasClient && !Truthy(p.error) && Truthy(p.accessToken) && Truthy(p.refreshToken) then
      Some(SessionRequest(p.accessToken.value, p.refreshToken.value))
    else None
  }

  /**
   * The root page sets a session with no error and an access token alone,
   * the refresh token defaulting to empty; it does not test for a client,
   * and without one no call is made because reaching the client throws.
   */
  function RootSessionRequest(hasClient: bool, p: HashParams): (r: Option<SessionRequest>)
    ensures r.Some? <==> hasClient && !Truthy(p.error) && Truthy(p.accessToken)
    ensures r.Some? ==> r == Some(SessionRequest(p.accessToken.value, Or(p.refreshToken, "")))
  {
    if hasClient && !Truthy(p.error) && Truthy(p.accessToken) then
      Some(SessionRequest(p.accessToken.value, Or(p.refreshToken, "")))
    else None
  }

  /**
   * The two token rules: whenever the live page sets a session the root
   * page sets the same one, and the root page alone accepts an access token
   * without a refresh token.
   */
  lemma TokenRulesCompared(hasClient: bool, p: HashParams)
    ensures LiveSessionRequest(hasClient, p).Some? ==> RootSessionRequest(hasClient, p) == LiveSessionRequest(hasClient, p)
    ensures hasClient && !Truthy(p.error) && Truthy(p.accessToken) && !Truthy(p.refreshToken) ==>
      LiveSessionRequest(hasClient, p).None? && RootSessionRequest(hasClient, p) == Some(SessionRequest(p.accessToken.value, ""))
  {
  }

  /** `pages/AuthCallback`: the live page. */
  class CallbackPage {
    var error: Option<string>
    var status: string
    var redirects: seq<Redirect>

    constructor ()
      ensures error == None && status == InitialStatus && redirects == []
    {
      error := None;
      status := InitialStatus;
      redirects := [];
    }

    /**
     * `handleCallback`: no client, then an error parameter, then the two
     * tokens decide, in that order. Every path schedules exactly one
     * redirect home.
     */
    method HandleCallback(hasClient: bool, p: HashParams, outcome: SessionOutcome) returns (request: Option<SessionRequest>)
      modifies this
      ensures request == LiveSessionRequest(hasClient, p)
      ensures |redirects| == |old(redirects)| + 1 && redirects[..|old(redirects)|] == old(redirects)
      ensures redirects[|redirects| - 1].target == Home
      ensures !hasClient ==> error == Some(NotConfiguredError) && redirects[|redirects| - 1].delayMs == 2000
      ensures hasClient && Truthy(p.error) ==>
        error == Some(Or(p.errorDescription, AuthFailedError)) && redirects[|redirects| - 1].delayMs == 3000
      ensures request.Some? && outcome == SessionOk ==>
        error == old(error) && status == SuccessStatus && redirects[|redirects| - 1].delayMs == 1000
      ensures request.Some? && outcome == SessionError ==>
        error == Some(SessionFailedError) && status == SettingUpStatus && redirects[|redirects| - 1].delayMs == 3000
      ensures request.Some? && outcome == SessionThrew ==>
        error == Some(UnexpectedError) && status == SettingUpStatus && redirects[|redirects| - 1].delayMs == 3000
      ensures hasClient && !Truthy(p.error) && request.None? ==>
        error == old(error) && status == RedirectingStatus && redirects[|redirects| - 1].delayMs == 1000
    {
      if !hasClient {
        error := Some(NotConfiguredError);
        redirects := redirects + [Redirect(Home, 2000)];
        return None;
      }
      if Truthy(p.error) {
        error := Some(Or(p.errorDescription, AuthFailedError));
        redirects := redirects + [Redirect(Home, 3000)];
        return None;
      }
      if Truthy(p.accessToken) && Truthy(p.refreshToken) {
        status := SettingUpStatus;
        request := Some(SessionRequest(p.accessToken.value, p.refreshToken.value));
        match outcome
        case SessionThrew =>
          error := Some(UnexpectedError);
          redirects := redirects + [Redirect(Home, 3000)];
        case SessionError =>
          error := Some(SessionFailedError);
          redirects := redirects + [Redirect(Home, 3000)];
        case SessionOk =>
          status := SuccessStatus;
          redirects := redirects + [Redirect(Home, 1000)];
      } else {
        request := None;
        status := RedirectingStatus;
        redirects := redirects + [Redirect(Home, 1000)];
      }
    }
  }

  /** `AuthCallback` at the root: the older page, with a fallback redirect after ten seconds. */
  class RootCallbackPage {
    var error: Option<string>
    var redirects: seq<Redirect>
    /** Whether the ten-second fallback redirect is still pending. */
    var fallbackPending: bool

    constructor ()
      ensures error == None && redirects == [] && !fallbackPending
    {
      error := None;
      redirects := [];
      fallbackPending := false;
    }

    /**
     * The mount effect: `handleCallback`, then the fallback scheduled. An
     * error parameter decides first; an access token alone is enough; a
     * success redirects at once. A missing client is not tested: reaching
     * it throws, and the failure is reported as an unexpected error.
     */
    method Mount(hasClient: bool, p: HashParams, outcome: SessionOutcome) returns (request: Option<SessionRequest>)
      modifies this
      ensures request == RootSessionRequest(hasClient, p)
      ensures fallbackPending
      ensures |redirects| == |old(redirects)| + 1 && redirects[..|old(redirects)|] == old(redirects)
      ensures redirects[|redirects| - 1].target == Home
      ensures Truthy(p.error) ==>
        error == Some(Or(p.errorDescription, AuthFailedError)) && redirects[|redirects| - 1].delayMs == 3000
      ensures !Truthy(p.error) && Truthy(p.accessToken) && !hasClient ==>
        error == Some(UnexpectedError) && redirects[|redirects| - 1].delayMs == 3000
      ensures request.Some? && outcome == SessionOk ==> error == old(error) && redirects[|redirects| - 1].delayMs == 0
      ensures request.Some? && outcome == SessionError ==>
        error == Some(SessionFailedError) && redirects[|redirects| - 1].delayMs == 3000
      ensures request.Some? && outcome == SessionThrew ==>
        error == Some(UnexpectedError) && redirects[|redirects| - 1].delayMs == 3000
      ensures !Truthy(p.error) && !Truthy(p.accessToken) ==> error == old(error) && redirects[|redirects| - 1].delayMs == 2000
    {
      request := None;
      if Truthy(p.error) {
        error := Some(Or(p.errorDescription, AuthFailedError));
        redirects := redirects + [Redirect(Home, 3000)];
      } else if Truthy(p.accessToken) {
        if !hasClient {
          error := Some(UnexpectedError);
          redirects := redirects + [Redirect(Home, 3000)];
        } else {
          request := Some(SessionRequest(p.accessToken.value, Or(p.refreshToken, "")));
          match outcome
          case SessionThrew =>
            error := Some(UnexpectedError);
            redirects := redirects + [Redirect(Home, 3000)];
          case SessionError =>
            error := Some(SessionFailedError);
            redirects := redirects + [Redirect(Home, 3000)];
          case SessionOk =>
            redirects := redirects + [Redirect(Home, 0)];
        }
      } else {
        redirects := redirects + [Redirect(Home, 2000)];
      }
      fallbackPending := true;
    }

    /** Leaving the page cancels the fallback redirect. */
    method Unmount()
      modifies this
      ensures !fallbackPending && error == old(error) && redirects == old(redirects)
    {
      fallbackPending := false;
    }

    /** The fallback firing: a redirect home, scheduled at ten seconds. */
    method FallbackFires()
      requires fallbackPending
      modifies this
      ensures !fallbackPending && error == old(error) && redirects == old(redirects) + [Redirect(Home, 10000)]
    {
      fallbackPending := false;
      redirects := redirects + [Redirect(Home, 10000)];
    }
  }
}
