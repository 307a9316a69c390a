/** The profile tab (`screens/ProfileScreen.jsx`): loads the signed-in
    employee, refreshes it after an edit, and logs out. It is the only
    screen that ends a session. */
module ProfileScreen {
  import opened Wrappers
  import opened Http
  import opened Ui
  import opened Client
  import opened Forms
  import AsyncApi

  datatype State = State(employee: Option<Employee>, loading: bool, profileModalVisible: bool, passwordModalVisible: bool)

  /** The tab as it mounts: no employee yet, the spinner showing. */
  const Initial := State(None, true, false, false)

  /** What a load or a refresh leaves behind. */
  datatype Outcome = Outcome(state: State, alert: Option<Alert>, session: SessionUpdate, sent: Option<Request<()>>)

  const ExpiredAlert := Alert("Error", "Authentication expired. Please log in again.")
  const SessionExpiredAlert := Alert("Session Expired", "Please log in again")
  const FetchFailedAlert := Alert("Error", "Failed to fetch employee details")
  const NetworkAlert := Alert("Error", "Network error occurred")
  const NoUserAlert := Alert("Error", "User ID not found. Please log in again.")
  const RefreshFailedAlert := Alert("Error", "Failed to fetch updated profile details")

  /** `fetchEmployeeDetails`, run once on mount. The stored id and token are
      read (`readFault` makes that read throw, which yields two nulls); when
      either is missing or empty the session ends without a request. The
      record is then fetched through the shared client, which reads the
      token again (`requestFault` for that read). A 2xx answer shows the
      employee; a 401 ends the session; anything else only alerts. */
  function FetchEmployeeDetails(st: State, store: AsyncApi.Store, readFault: bool, requestFault: bool, reply: Reply<Employee>): (o: Outcome)
    ensures !o.state.loading
    ensures o.session == SetAuthenticated(false) <==>
      || !Truthy(AsyncApi.GetAuthData(store, readFault).userId)
      || !Truthy(AsyncApi.GetAuthData(store, readFault).token)
      || (o.sent.Some? && reply.Replied? && reply.response.status == 401)
    ensures o.session != SetAuthenticated(true)
    ensures o.sent.Some? <==>
      && Truthy(AsyncApi.GetAuthData(store, readFault).userId)
      && Truthy(AsyncApi.GetAuthData(store, readFault).token)
      && !requestFault
    ensures o.sent.Some? ==>
      && o.sent.value.url == EmployeeRecord(store[AsyncApi.UserIdKey])
      && o.sent.value.verb.None?
      && o.sent.value.headers == DefaultHeaders(store[AsyncApi.TokenKey])
    ensures o.sent.Some? && reply.Replied? && reply.response.Ok() ==> o.state.employee == Some(reply.response.body) && o.alert.None?
    ensures o.sent.None? && o.session == NoUpdate ==> o.alert == Some(NetworkAlert)
    ensures o.session == SetAuthenticated(false) && o.sent.None? ==> o.alert == Some(ExpiredAlert)
    ensures o.session == SetAuthenticated(false) && o.sent.Some? ==> o.alert == Some(SessionExpiredAlert)
    ensures o.sent.Some? && reply.Replied? && !reply.response.Ok() && reply.response.status != 401 ==> o.alert == Some(FetchFailedAlert)
    ensures o.sent.Some? && reply.NetworkFailure? ==> o.alert == Some(NetworkAlert) && o.session == NoUpdate
    ensures !(o.sent.Some? && reply.Replied? && reply.response.Ok()) ==> o.state.employee == st.employee
  {
    var auth := AsyncApi.GetAuthData(store, readFault);
    var done := st.(loading := false);
    if !Truthy(auth.userId) || !Truthy(auth.token) then
      Outcome(done, Some(ExpiredAlert), SetAuthenticated(false), None)
    else
      match AsyncApi.MakeAuthenticatedRequest(store, requestFault, EmployeeRecord(auth.userId.value), NoOptions<()>())
      case Err(_) => Outcome(done, Some(NetworkAlert), NoUpdate, None)
      case Ok(q) =>
        assert q.headers == DefaultHeaders(store[AsyncApi.TokenKey]);
        match reply
        case NetworkFailure => Outcome(done, Some(NetworkAlert), NoUpdate, Some(q))
        case Replied(resp) =>
          if resp.Ok() then Outcome(done.(employee := Some(resp.body)), None, NoUpdate, Some(q))
          else if resp.status == 401 then Outcome(done, Some(SessionExpiredAlert), SetAuthenticated(false), Some(q))
          else Outcome(done, Some(FetchFailedAlert), NoUpdate, Some(q))
  }

  /** `refreshProfile`, the editor's `onUpdate`: only the stored id is
      needed, and the record is fetched with a plain GET that carries no
      token. No answer from the server ends the session. */
  function RefreshProfile(st: State, store: AsyncApi.Store, fault: bool, reply: Reply<Employee>): (o: Outcome)
    ensures !o.state.loading
    ensures o.session == SetAuthenticated(false) <==> !Truthy(AsyncApi.GetAuthData(store, fault).userId)
    ensures o.session != SetAuthenticated(true)
    ensures o.sent.Some? <==> Truthy(AsyncApi.GetAuthData(store, fault).userId)
    ensures o.sent.Some? ==> o.sent.value == Request(EmployeeRecord(store[AsyncApi.UserIdKey]), None, map[], None)
    ensures o.session == SetAuthenticated(false) ==> o.alert == Some(NoUserAlert)
    ensures o.sent.Some? && reply.Replied? && reply.response.Ok() ==> o.state.employee == Some(reply.response.body) && o.alert.None?
    ensures o.sent.Some? && reply.Replied? && !reply.response.Ok() ==> o.alert == Some(RefreshFailedAlert)
    ensures o.sent.Some? && reply.NetworkFailure? ==> o.alert == Some(NetworkAlert)
    ensures !(o.sent.Some? && reply.Replied? && reply.response.Ok()) ==> o.state.employee == st.employee
  {
    var auth := AsyncApi.GetAuthData(store, fault);
    var done := st.(loading := false);
    if !Truthy(auth.userId) then Outcome(done, Some(NoUserAlert), SetAuthenticated(false), None)
    else
      var q := Request(EmployeeRecord(auth.userId.value), None, map[], None);
      match reply
      case NetworkFailure => Outcome(done, Some(NetworkAlert), NoUpdate, Some(q))
      case Replied(resp) =>
        if resp.Ok() then Outcome(done.(employee := Some(resp.body)), None, NoUpdate, Some(q))
        else Outcome(done, Some(RefreshFailedAlert), NoUpdate, Some(q))
  }

  /** The same 401 ends the session on load but only alerts on refresh:
      the refresh sends no token to be refused. */
  lemma UnauthorizedOnlyEndsSessionOnLoad(st: State, store: AsyncApi.Store, e: Employee)
    requires AsyncApi.UserIdKey in store && store[AsyncApi.UserIdKey] != ""
    requires AsyncApi.TokenKey in store && store[AsyncApi.TokenKey] != ""
    ensures FetchEmployeeDetails(st, store, false, false, Replied(Response(401, e))).session == SetAuthenticated(false)
    ensures RefreshProfile(st, store, false, Replied(Response(401, e))).session == NoUpdate
    ensures "Authorization" !in RefreshProfile(st, store, false, Replied(Response(401, e))).sent.value.headers
  {
  }

  /** `handleLogout`: the stored id is removed; if that throws nothing else
      happens. Otherwise the session ends and both keys are cleared (a
      failure of that last step is swallowed and leaves the token). */
  function HandleLogout(store: AsyncApi.Store, removeFault: bool, clearFault: bool): (r: (AsyncApi.Store, SessionUpdate))
    ensures removeFault ==> r == (store, NoUpdate)
    ensures !removeFault ==> r.1 == SetAuthenticated(false)
    ensures !removeFault ==> AsyncApi.UserIdKey !in r.0
    ensures !removeFault && !clearFault ==> AsyncApi.GetAuthData(r.0, false) == AuthData(None, None)
    ensures !removeFault && clearFault ==> r.0 == store - {AsyncApi.UserIdKey}
    ensures forall k | k != AsyncApi.TokenKey && k != AsyncApi.UserIdKey :: (k in r.0 <==> k in store) && (k in store ==> r.0[k] == store[k])
  {
    match AsyncApi.RemoveItem(store, removeFault, AsyncApi.UserIdKey)
    case Err(_) => (store, NoUpdate)
    case Ok(s1) => (AsyncApi.ClearAuthData(s1, clearFault).0, SetAuthenticated(false))
  }

  /** A logout whose final clear fails still leaves no way back in without
      signing in: the next load finds no id and ends the session again. */
  lemma LogoutIsFinal(st: State, store: AsyncApi.Store, clearFault: bool, readFault: bool, requestFault: bool, reply: Reply<Employee>)
    ensures var s := HandleLogout(store, false, clearFault).0;
      && FetchEmployeeDetails(st, s, readFault, requestFault, reply).session == SetAuthenticated(false)
      && FetchEmployeeDetails(st, s, readFault, requestFault, reply).sent.None?
  {
  }
}
