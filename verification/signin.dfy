/** The sign-in screen (`screens/SigninScreen.jsx`): one POST with the
    credentials in the query string, no checks on the fields beforehand. */
module SigninScreen {
  import opened Wrappers
  import opened Http
  import opened Ui
  import opened Client
  import AsyncApi

  datatype State = State(email: string, password: string, error: string, passwordVisible: bool)

  const Initial := State("", "", "", false)

  /** What a successful sign-in answers with. */
  datatype SigninBody = SigninBody(token: string, id: string)

  function TogglePasswordVisibility(st: State): (r: State)
    ensures r.passwordVisible == !st.passwordVisible
    ensures r.(passwordVisible := st.passwordVisible) == st
  {
    st.(passwordVisible := !st.passwordVisible)
  }

  /** The request `handleSignin` sends: a bare POST, no headers, no body. */
  function SigninRequest<D>(st: State): (q: Request<D>)
    ensures q.url == SignIn(st.email, st.password)
    ensures q.verb == Some(Post) && q.headers == map[] && q.body.None?
  {
    Request(SignIn(st.email, st.password), Some(Post), map[], None)
  }

  /** The outcome of pressing "Sign In". */
  datatype Outcome = Outcome(state: State, store: AsyncApi.Store, session: SessionUpdate)

  /** `handleSignin`: a 2xx answer stores the token and the id (a storage
      fault is logged and swallowed) and authenticates; any other answer shows
      'Invalid credentials'; a failed fetch shows 'Network error'. A previous
      error message is not cleared by a later success. */
  function HandleSignin(st: State, store: AsyncApi.Store, storeFault: bool, reply: Reply<SigninBody>): (o: Outcome)
    ensures o.session == SetAuthenticated(true) <==> reply.Replied? && reply.response.Ok()
    ensures o.session == NoUpdate || o.session == SetAuthenticated(true)
    ensures o.session == SetAuthenticated(true) ==> o.state == st
    ensures o.session == SetAuthenticated(true) && !storeFault ==>
      AsyncApi.GetAuthData(o.store, false) == AuthData(Some(reply.response.body.token), Some(reply.response.body.id))
    ensures o.session == NoUpdate || storeFault ==> o.store == store
    ensures reply.NetworkFailure? ==> o.state == st.(error := "Network error")
    ensures reply.Replied? && !reply.response.Ok() ==> o.state == st.(error := "Invalid credentials")
  {
    match reply
    case NetworkFailure => Outcome(st.(error := "Network error"), store, NoUpdate)
    case Replied(resp) =>
      if resp.Ok() then
        Outcome(st, AsyncApi.SaveCredentials(store, storeFault, resp.body.token, resp.body.id), SetAuthenticated(true))
      else Outcome(st.(error := "Invalid credentials"), store, NoUpdate)
  }

  /** A storage fault during sign-in still authenticates, yet leaves no token
      behind: the next authenticated request is refused for want of one. */
  lemma FaultySaveStillAuthenticates<D>(st: State, body: SigninBody, url: Endpoint, options: Options<D>)
    ensures var o := HandleSignin(st, map[], true, Replied(Response(200, body)));
      && o.session == SetAuthenticated(true)
      && AsyncApi.MakeAuthenticatedRequest(o.store, false, url, options) == Err(MissingToken)
  {
  }

  /** The success branch of `handleSignin` does not clear `error`: a failed
      attempt's message is still in the state after a later success. (The
      navigator then unmounts the screen, which is what discards it.) */
  lemma SuccessKeepsError(st: State, store: AsyncApi.Store, status: nat, body: SigninBody)
    requires !(200 <= status <= 299)
    ensures var o1 := HandleSignin(st, store, false, Replied(Response(status, body)));
      var o2 := HandleSignin(o1.state, o1.store, false, Replied(Response(200, body)));
      o2.session == SetAuthenticated(true) && o2.state.error == "Invalid credentials"
  {
  }

  /** The screen's own, unused `makeAuthenticatedRequest`: no refusal
      without a token ("Bearer null" is sent instead) and its token replaces
      any `Authorization` the caller passed; nothing else is added. */
  function LocalAuthorizedRequest<D>(token: Option<string>, url: Endpoint, options: Options<D>): (q: Request<D>)
    ensures q.url == url && q.verb == options.verb && q.body == options.body
    ensures q.headers.Keys == options.headers.Keys + {"Authorization"}
    ensures forall k | k in options.headers && k != "Authorization" :: q.headers[k] == options.headers[k]
    ensures token.None? ==> q.headers["Authorization"] == "Bearer null"
    ensures token.Some? ==> q.headers["Authorization"] == "Bearer " + token.value
  {
    Request(url, options.verb, options.headers["Authorization" := Bearer(token)], options.body)
  }

  /** Where the two helpers part ways: with a caller-supplied Authorization
      the shared client keeps the caller's value and this one overwrites it;
      without a token the shared client refuses and this one sends anyway. */
  lemma LocalHelperDiffers<D>(t: string, url: Endpoint, options: Options<D>)
    requires t != "" && "Authorization" in options.headers && options.headers["Authorization"] != "Bearer " + t
    ensures AuthorizedRequest(Some(t), url, options).Ok?
    ensures AuthorizedRequest(Some(t), url, options).value.headers["Authorization"]
         != LocalAuthorizedRequest(Some(t), url, options).headers["Authorization"]
    ensures AuthorizedRequest(None, url, options) == Err(MissingToken)
    ensures LocalAuthorizedRequest(None, url, options).headers["Authorization"] == "Bearer null"
  {
  }
}
