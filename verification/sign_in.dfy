/** The sign-in page's `handleSubmit`: log in, load the profile with the
    new token, store both in the auth context, then go back to the page
    remembered in `redirectAfterLogin` (or "/"), forgetting it.

    The page takes `setUser` from `useAuth()`, but the context value holds
    only `accessToken`, `setAccessToken` and `user`. As written, the call
    `setUser(...)` therefore throws once the token is set, and the catch
    shows "Login Failed". `HandleSubmit` models that; `HandleSubmitWithSetUser`
    models the handler with a context that does provide `setUser`.
 */
module SignIn {
  import opened Wrappers
  import opened Entities
  import opened AuthContext

  /** `localStorage.getItem('redirectAfterLogin') || '/'`. */
  function RedirectTarget(stored: Option<string>): (r: string)
    ensures stored.Some? && stored.value != "" ==> r == stored.value
    ensures stored.None? || stored.value == "" ==> r == "/"
    ensures r != ""
  {
    if stored.Some? && stored.value != "" then stored.value else "/"
  }

  datatype Alert = LoginSuccessful | LoginFailed

  /** The context after one press of "Sign in", and the alert shown. */
  datatype Attempt = Attempt(session: Session, alert: Alert)

  /** `handleSubmit` as written. `login` answers with the access token,
      `profile` with the user. Only the token is ever stored: the throw at
      `setUser` skips the success alert, the removal of the stored path and
      the navigation. */
  function HandleSubmit(s: Session, login: Net<string>, profile: Net<User>): (r: Attempt)
    ensures r.alert == LoginFailed
    ensures r.session.user == s.user
    ensures r.session.redirectAfterLogin == s.redirectAfterLogin && r.session.pushed == s.pushed
    ensures login.Ok? && profile.Ok? ==> r.session.accessToken == Some(login.value)
    ensures login.Failed? || profile.Failed? ==> r.session == s
  {
    if login.Ok? && profile.Ok? then Attempt(s.(accessToken := Some(login.value)), LoginFailed)
    else Attempt(s, LoginFailed)
  }

  /** `handleSubmit` with a context that provides `setUser`: a successful
      login stores token and user, removes the stored path and navigates to
      it (or to "/"). */
  function HandleSubmitWithSetUser(s: Session, login: Net<string>, profile: Net<User>): (r: Attempt)
    ensures r.alert == LoginSuccessful <==> login.Ok? && profile.Ok?
    ensures login.Failed? || profile.Failed? ==> r.session == s
    ensures login.Ok? && profile.Ok? ==>
      r.session.accessToken == Some(login.value) && r.session.user == Some(profile.value) &&
      r.session.redirectAfterLogin.None? &&
      r.session.pushed == s.pushed + [RedirectTarget(s.redirectAfterLogin)]
  {
    if login.Ok? && profile.Ok? then
      Attempt(Session(Some(login.value), Some(profile.value), None, s.pushed + [RedirectTarget(s.redirectAfterLogin)]),
              LoginSuccessful)
    else Attempt(s, LoginFailed)
  }

  /** The two handlers store the same token; as written nothing else
      changes. */
  lemma AsWrittenKeepsOnlyToken(s: Session, login: Net<string>, profile: Net<User>)
    ensures HandleSubmit(s, login, profile).session
         == s.(accessToken := HandleSubmitWithSetUser(s, login, profile).session.accessToken)
  {
  }

  /** The discrepancy: a successful login with a stored path leaves the
      path stored, navigates nowhere and reports failure, where the
      handler meant to go to that path and forget it. */
  lemma StoredPathSurvivesLogin(s: Session, token: string, user: User)
    requires s.redirectAfterLogin.Some? && s.redirectAfterLogin.value != ""
    ensures HandleSubmit(s, Ok(token), Ok(user)) == Attempt(s.(accessToken := Some(token)), LoginFailed)
    ensures HandleSubmitWithSetUser(s, Ok(token), Ok(user)).session.pushed
         == s.pushed + [s.redirectAfterLogin.value]
    ensures HandleSubmitWithSetUser(s, Ok(token), Ok(user)).session.redirectAfterLogin.None?
  {
  }

  /** With `setUser` provided, the stored target is used once: a second
      successful login goes to "/". */
  lemma SecondLoginGoesHome(s: Session, t1: string, u1: User, t2: string, u2: User)
    ensures var s2 := HandleSubmitWithSetUser(HandleSubmitWithSetUser(s, Ok(t1), Ok(u1)).session, Ok(t2), Ok(u2)).session;
      s2.pushed[|s2.pushed| - 1] == "/"
  {
  }

  /** As written, every later login still finds the stored target: no
      number of successful logins removes it. */
  lemma StoredPathNeverRemoved(s: Session, t1: string, u1: User, t2: string, u2: User)
    ensures var s2 := HandleSubmit(HandleSubmit(s, Ok(t1), Ok(u1)).session, Ok(t2), Ok(u2)).session;
      s2.redirectAfterLogin == s.redirectAfterLogin && s2.pushed == s.pushed
  {
  }

  /** With `setUser` provided, the hand-off works: when a refresh fails
      while the user is at `location`, the next successful sign-in takes
      them back there. */
  lemma ReturnsToInterruptedPage(s: Session, req: Request, location: string, interceptorToken: Option<string>,
                                 rest: seq<Reply>, token: string, user: User)
    requires !req.retry && location != ""
    ensures var s1 := Send(s, req, [Error(Some(401))] + rest, Failed, location, interceptorToken).0;
      HandleSubmitWithSetUser(s1, Ok(token), Ok(user)).session.pushed == s.pushed + [SignInPath, location]
  {
    FailedRefreshLogsOut(s, req, Failed, location, interceptorToken, rest);
  }

  /** As written, the hand-off stops at the sign-in page: after the failed
      refresh and a successful sign-in the user is still there, the
      interrupted location still stored. */
  lemma InterruptedPageNotRestored(s: Session, req: Request, location: string, interceptorToken: Option<string>,
                                   rest: seq<Reply>, token: string, user: User)
    requires !req.retry
    ensures var s1 := Send(s, req, [Error(Some(401))] + rest, Failed, location, interceptorToken).0;
      var r := HandleSubmit(s1, Ok(token), Ok(user)).session;
      r.pushed == s.pushed + [SignInPath] && r.redirectAfterLogin == Some(location) && r.user.None?
  {
    FailedRefreshLogsOut(s, req, Failed, location, interceptorToken, rest);
  }
}
