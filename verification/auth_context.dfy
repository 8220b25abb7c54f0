/** `AuthProvider`: the session it holds, the load on first render, and the
    two axios interceptors it installs on the shared API client.

    Browser state the provider touches (localStorage's `redirectAfterLogin`
    entry, the router's navigation history) is kept in the session record.
    Every request's outcome is a parameter.
 */
module AuthContext {
  import opened Wrappers
  import opened Entities

  datatype Session = Session(
    accessToken: Option<string>,
    user: Option<User>,
    redirectAfterLogin: Option<string>,
    pushed: seq<string>)

  const SignInPath: string := "/auth/sign-in"

  /** `refreshAndLoadUser()`: refresh the access token, then load the
      profile with it. Any failure leaves both token and user null. */
  function RefreshAndLoadUser(s: Session, refresh: Net<string>, profile: Net<User>): (r: Session)
    ensures refresh.Ok? && profile.Ok? ==> r.accessToken == Some(refresh.value) && r.user == Some(profile.value)
    ensures refresh.Failed? || profile.Failed? ==> r.accessToken.None? && r.user.None?
    ensures r.user.Some? ==> r.accessToken.Some?
    ensures r.redirectAfterLogin == s.redirectAfterLogin && r.pushed == s.pushed
  {
    if refresh.Ok? && profile.Ok? then s.(accessToken := Some(refresh.value), user := Some(profile.value))
    else s.(accessToken := None, user := None)
  }

  /** A request as the interceptors see it: its `_retry` flag and its
      Authorization header. */
  datatype Request = Request(retry: bool, authorization: Option<string>)

  /** The request interceptor, holding the token it was installed with:
      a truthy token replaces the Authorization header; otherwise the
      header is left as it was. */
  function AttachToken(req: Request, token: Option<string>): (r: Request)
    ensures token.Some? && token.value != "" ==> r.authorization == Some("Bearer " + token.value)
    ensures token.None? || token.value == "" ==> r.authorization == req.authorization
    ensures r.retry == req.retry
  {
    if token.Some? && token.value != "" then req.(authorization := Some("Bearer " + token.value)) else req
  }

  /** What the response interceptor does with an error: retry the request,
      or reject with the original error. */
  datatype Reaction = Retry(request: Request) | Reject

  /** The response interceptor's error handler for `req`, whose error
      carried HTTP `status` (`None` when there was no response). `refresh`
      is the refresh-token request's outcome; `location` is the current
      `pathname + search`. */
  function OnResponseError(s: Session, req: Request, status: Option<int>, refresh: Net<string>, location: string): (r: (Session, Reaction))
    ensures !(status == Some(401) && !req.retry) ==> r == (s, Reject)
    ensures r.1.Retry? <==> status == Some(401) && !req.retry && refresh.Ok?
    ensures r.1.Retry? ==> r.1.request == Request(true, Some("Bearer " + refresh.value))
    ensures r.1.Retry? ==> r.0 == s.(accessToken := Some(refresh.value))
    ensures status == Some(401) && !req.retry && refresh.Failed? ==>
      r.0 == Session(None, None, Some(location), s.pushed + [SignInPath])
  {
    if status == Some(401) && !req.retry then
      var marked := req.(retry := true);
      match refresh
      case Ok(newToken) =>
        (s.(accessToken := Some(newToken)), Retry(marked.(authorization := Some("Bearer " + newToken))))
      case Failed =>
        (Session(None, None, Some(location), s.pushed + [SignInPath]), Reject)
    else (s, Reject)
  }

  datatype Reply = Success | Error(status: Option<int>)

  datatype Settled = Pending | Resolved | Rejected

  /** A request sent through the API client: the session afterwards, the
      requests that went out, and how the call settled (`Pending` when the
      replies ran out). Each request sent consumes one reply; every reply
      but the last one consumed was a 401 that led to a retry. `replies` are the
      server's answers in turn; `interceptorToken` is the token the request
      interceptor holds (the token at the time it was installed). */
  function Send(s: Session, req: Request, replies: seq<Reply>, refresh: Net<string>,
                location: string, interceptorToken: Option<string>): (r: (Session, seq<Request>, Settled))
    ensures |r.1| <= |replies|
    ensures replies != [] ==> |r.1| >= 1 && r.1[0] == AttachToken(req, interceptorToken)
    ensures r.2 == Pending ==> |r.1| == |replies| && (replies == [] || replies[|replies| - 1] == Error(Some(401)))
    ensures r.2 == Resolved ==> |r.1| >= 1 && replies[|r.1| - 1] == Success
    ensures r.2 == Rejected ==> |r.1| >= 1 && replies[|r.1| - 1].Error?
    ensures forall i :: 0 <= i < |r.1| - 1 ==> replies[i] == Error(Some(401))
    decreases |replies|
  {
    if replies == [] then (s, [], Pending)
    else
      var sent := AttachToken(req, interceptorToken);
      match replies[0]
      case Success => (s, [sent], Resolved)
      case Error(status) =>
        var (s1, reaction) := OnResponseError(s, sent, status, refresh, location);
        match reaction
        case Reject => (s1, [sent], Rejected)
        case Retry(again) =>
          var (s2, more, settled) := Send(s1, again, replies[1..], refresh, location, interceptorToken);
          (s2, [sent] + more, settled)
  }

  /** Each call goes out at most twice; a call already marked `_retry` goes
      out at most once; a second sending carries the `_retry` mark. */
  lemma {:induction false} RetryAtMostOnce(s: Session, req: Request, replies: seq<Reply>, refresh: Net<string>,
                                           location: string, interceptorToken: Option<string>)
    ensures var sent := Send(s, req, replies, refresh, location, interceptorToken).1;
      |sent| <= 2 &&
      (req.retry ==> |sent| <= 1) &&
      (|sent| == 2 ==> sent[1].retry)
    decreases |replies|
  {
    if replies != [] && replies[0].Error? {
      var sent := AttachToken(req, interceptorToken);
      var (s1, reaction) := OnResponseError(s, sent, replies[0].status, refresh, location);
      if reaction.Retry? {
        RetryAtMostOnce(s1, reaction.request, replies[1..], refresh, location, interceptorToken);
        SecondSendingFinal(s1, reaction.request, replies[1..], refresh, location, interceptorToken);
      }
    }
  }

  /** A request already marked `_retry` is sent at most once more. */
  lemma SecondSendingFinal(s: Session, req: Request, replies: seq<Reply>, refresh: Net<string>,
                           location: string, interceptorToken: Option<string>)
    requires req.retry
    ensures var r := Send(s, req, replies, refresh, location, interceptorToken);
      |r.1| <= 1 && (|r.1| == 1 ==> r.1[0].retry)
  {
  }

  /** After a refresh, the retry carries the new token when the request
      interceptor holds no token or the new one; an interceptor installed
      with an older non-empty token writes that one over it. */
  lemma RetryCarriesToken(s: Session, req: Request, refresh: Net<string>, location: string,
                          interceptorToken: Option<string>, second: Reply)
    requires !req.retry && refresh.Ok?
    ensures var sent := Send(s, req, [Error(Some(401)), second], refresh, location, interceptorToken).1;
      |sent| == 2 &&
      ((interceptorToken.None? || interceptorToken.value == "" || interceptorToken == Some(refresh.value)) ==>
         sent[1].authorization == Some("Bearer " + refresh.value)) &&
      ((interceptorToken.Some? && interceptorToken.value != "") ==>
         sent[1].authorization == Some("Bearer " + interceptorToken.value))
  {
    var sent := AttachToken(req, interceptorToken);
    assert OnResponseError(s, sent, Some(401), refresh, location).1.Retry?;
  }

  /** A failed refresh logs out, remembers where the user was, sends them
      to sign in, and rejects the call. */
  lemma FailedRefreshLogsOut(s: Session, req: Request, refresh: Net<string>, location: string,
                             interceptorToken: Option<string>, rest: seq<Reply>)
    requires !req.retry && refresh.Failed?
    ensures var r := Send(s, req, [Error(Some(401))] + rest, refresh, location, interceptorToken);
      r.0 == Session(None, None, Some(location), s.pushed + [SignInPath]) &&
      |r.1| == 1 && r.2 == Rejected
  {
    assert ([Error(Some(401))] + rest)[0] == Error(Some(401));
  }
}
