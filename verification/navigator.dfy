/** The authentication navigator (`navigation/AuthNavigator.jsx`) and the
    session flag it owns. While the flag is down only the welcome, sign-up
    and sign-in screens are registered; while it is up only the main tabs
    are. The screens change the flag through the setter they are handed;
    this module runs their handlers against one shared store. A flip of
    the flag swaps the registered screens, so the screens that leave are
    unmounted and those that enter mount with their initial state. */
module Navigator {
  import opened Wrappers
  import opened Http
  import opened Ui
  import opened Client
  import AsyncApi
  import SigninScreen
  import SignupScreen
  import ProfileScreen
  import TodoScreen
  import Forms

  datatype Screen = Welcome | Signup | Signin | MainApp

  /** The screens the stack navigator registers for a value of the flag. */
  function Registered(authenticated: bool): (r: set<Screen>)
    ensures MainApp in r <==> authenticated
    ensures Signin in r <==> !authenticated
    ensures Signup in r <==> !authenticated
    ensures Welcome in r <==> !authenticated
  {
    if authenticated then {MainApp} else {Welcome, Signup, Signin}
  }

  /** The flag after a setter call. */
  function Apply(authenticated: bool, u: SessionUpdate): (r: bool)
    ensures u.NoUpdate? ==> r == authenticated
    ensures u.SetAuthenticated? ==> r == u.value
  {
    match u
    case NoUpdate => authenticated
    case SetAuthenticated(v) => v
  }

  /** `today` and `yesterday` are the clock readings the screens preset
      their dates from when they mount. */
  datatype App = App(
    authenticated: bool,
    today: string,
    yesterday: string,
    store: AsyncApi.Store,
    signin: SigninScreen.State,
    signup: SignupScreen.State,
    profile: ProfileScreen.State,
    todo: TodoScreen.State)

  /** The app as it starts: signed out, whatever the store holds. */
  function Initial(store: AsyncApi.Store, today: string, yesterday: string): (app: App)
    ensures !app.authenticated && app.store == store
    ensures Registered(app.authenticated) == {Welcome, Signup, Signin}
    ensures app.signin == SigninScreen.Initial && app.signup == SignupScreen.Initial(yesterday)
    ensures app.profile == ProfileScreen.Initial && app.todo == TodoScreen.Initial(today)
    ensures app.today == today && app.yesterday == yesterday
  {
    App(false, today, yesterday, store, SigninScreen.Initial, SignupScreen.Initial(yesterday),
        ProfileScreen.Initial, TodoScreen.Initial(today))
  }

  /** Every screen in its freshly mounted state; the flag and the store are
      kept. */
  function Remount(app: App): (r: App)
    ensures r.authenticated == app.authenticated && r.store == app.store
    ensures r.today == app.today && r.yesterday == app.yesterday
    ensures r.signin == SigninScreen.Initial && r.signup == SignupScreen.Initial(app.yesterday)
    ensures r.profile == ProfileScreen.Initial && r.todo == TodoScreen.Initial(app.today)
  {
    app.(signin := SigninScreen.Initial, signup := SignupScreen.Initial(app.yesterday),
         profile := ProfileScreen.Initial, todo := TodoScreen.Initial(app.today))
  }

  /** What the user does, with everything the outside world answers. */
  datatype Event =
    | SigninPressed(storeFault: bool, reply: Reply<SigninScreen.SigninBody>)
    | SignupPressed(storeFault: bool, registerReply: Reply<SignupScreen.RegisterError>, signinReply: Reply<SigninScreen.SigninBody>)
    | ProfileLoaded(readFault: bool, requestFault: bool, employeeReply: Reply<Forms.Employee>)
    | ProfileRefreshed(fault: bool, employeeReply: Reply<Forms.Employee>)
    | LogoutPressed(removeFault: bool, clearFault: bool)
    | TodosLoaded(readFault: bool, fetchFault: bool, todosReply: Reply<seq<TodoScreen.Todo>>)
    | TodoDeleted(todoId: string, fault: bool, deleteReply: Reply<()>)
    | TodoSaved(today: string, fault: bool, saveReply: Reply<()>, refetchFault: bool, todosReply: Reply<seq<TodoScreen.Todo>>)

  /** The screen an event belongs to. */
  function ScreenOf(e: Event): Screen {
    match e
    case SigninPressed(_, _) => Signin
    case SignupPressed(_, _, _) => Signup
    case _ => MainApp
  }

  /** One event. An event for a screen that is not registered is ignored.
      When the handler flips the flag, every screen restarts from its
      initial state: those leaving are unmounted, those entering mount. */
  function Step(app: App, e: Event): (r: App)
    ensures ScreenOf(e) !in Registered(app.authenticated) ==> r == app
    ensures r.authenticated && !app.authenticated ==> e.SigninPressed? || e.SignupPressed?
    ensures !r.authenticated && app.authenticated ==> e.ProfileLoaded? || e.ProfileRefreshed? || e.LogoutPressed?
    ensures r.today == app.today && r.yesterday == app.yesterday
    ensures r.authenticated != app.authenticated ==>
      && r.signin == SigninScreen.Initial && r.signup == SignupScreen.Initial(app.yesterday)
      && r.profile == ProfileScreen.Initial && r.todo == TodoScreen.Initial(app.today)
    ensures r.authenticated == app.authenticated && ScreenOf(e) != MainApp ==> r.todo == app.todo && r.profile == app.profile
  {
    if ScreenOf(e) !in Registered(app.authenticated) then app
    else
      var next := Handle(app, e);
      if next.authenticated != app.authenticated then Remount(next) else next
  }

  /** The handler of the screen an event belongs to, run in place. */
  function Handle(app: App, e: Event): (r: App)
    ensures r.today == app.today && r.yesterday == app.yesterday
    ensures ScreenOf(e) != MainApp ==> r.todo == app.todo && r.profile == app.profile
    ensures ScreenOf(e) == MainApp ==> r.signin == app.signin && r.signup == app.signup
  {
    match e
    case SigninPressed(fault, reply) =>
      var o := SigninScreen.HandleSignin(app.signin, app.store, fault, reply);
      app.(authenticated := Apply(app.authenticated, o.session), store := o.store, signin := o.state)
    case SignupPressed(fault, registerReply, signinReply) =>
      var o := SignupScreen.HandleSignup(app.signup, app.store, fault, registerReply, signinReply);
      app.(authenticated := Apply(app.authenticated, o.session), store := o.store, signup := o.state)
    case ProfileLoaded(readFault, requestFault, reply) =>
      var o := ProfileScreen.FetchEmployeeDetails(app.profile, app.store, readFault, requestFault, reply);
      app.(authenticated := Apply(app.authenticated, o.session), profile := o.state)
    case ProfileRefreshed(fault, reply) =>
      var o := ProfileScreen.RefreshProfile(app.profile, app.store, fault, reply);
      app.(authenticated := Apply(app.authenticated, o.session), profile := o.state)
    case LogoutPressed(removeFault, clearFault) =>
      var (s, u) := ProfileScreen.HandleLogout(app.store, removeFault, clearFault);
      app.(authenticated := Apply(app.authenticated, u), store := s)
    case TodosLoaded(readFault, fetchFault, reply) =>
      app.(todo := TodoScreen.LoadUserId(app.todo, app.store, readFault, fetchFault, reply).state)
    case TodoDeleted(todoId, fault, reply) =>
      app.(todo := TodoScreen.DeleteTodo(app.todo, todoId, app.store, fault, reply).state)
    case TodoSaved(today, fault, reply, refetchFault, todosReply) =>
      app.(todo := TodoScreen.AddOrUpdateTodo(app.todo, today, app.store, fault, reply, refetchFault, todosReply).state)
  }

  /** A sign-in raises the flag exactly when the server accepts it. */
  lemma SigninAuthenticatesIffAccepted(app: App, fault: bool, reply: Reply<SigninScreen.SigninBody>)
    requires !app.authenticated
    ensures Step(app, SigninPressed(fault, reply)).authenticated <==> reply.Replied? && reply.response.Ok()
  {
  }

  /** A sign-up raises the flag exactly when the form is valid and both the
      registration and the automatic sign-in are accepted. */
  lemma SignupAuthenticatesIffBothAccepted(app: App, fault: bool, registerReply: Reply<SignupScreen.RegisterError>,
                                           signinReply: Reply<SigninScreen.SigninBody>)
    requires !app.authenticated
    ensures Step(app, SignupPressed(fault, registerReply, signinReply)).authenticated <==>
      && Forms.SignupFormErrors(app.signup.form) == map[]
      && registerReply.Replied? && registerReply.response.Ok()
      && signinReply.Replied? && signinReply.response.Ok()
  {
  }

  /** Nothing on the to-do tab moves the flag or the store. */
  lemma TodoEventsKeepSession(app: App, e: Event)
    requires e.TodosLoaded? || e.TodoDeleted? || e.TodoSaved?
    ensures Step(app, e).authenticated == app.authenticated
    ensures Step(app, e).store == app.store
  {
  }

  /** Once signed out, the main tabs' events change nothing at all. */
  lemma SignedOutIgnoresMainApp(app: App, e: Event)
    requires !app.authenticated && ScreenOf(e) == MainApp
    ensures Step(app, e) == app
  {
  }

  /** A logout whose removal succeeds lowers the flag; with the clear
      succeeding too, nothing of the credentials is left. */
  lemma LogoutSignsOut(app: App, clearFault: bool)
    requires app.authenticated
    ensures !Step(app, LogoutPressed(false, clearFault)).authenticated
    ensures !clearFault ==> AsyncApi.GetAuthData(Step(app, LogoutPressed(false, clearFault)).store, false) == AuthData(None, None)
  {
  }

  /** A second 401 on the profile tab is harmless: the flag is already down
      and the event no longer reaches the screen. */
  lemma UnauthorizedIsIdempotent(app: App, readFault: bool, requestFault: bool, e: Forms.Employee)
    ensures var once := Step(app, ProfileLoaded(readFault, requestFault, Replied(Response(401, e))));
      !once.authenticated ==> Step(once, ProfileLoaded(readFault, requestFault, Replied(Response(401, e)))) == once
  {
  }

  /** End to end: signing in and then opening the profile shows the
      employee the server returns, and the session stays up. */
  lemma SigninThenProfile(store: AsyncApi.Store, today: string, yesterday: string, token: string, id: string, e: Forms.Employee)
    requires token != "" && id != ""
    ensures var a1 := Step(Initial(store, today, yesterday), SigninPressed(false, Replied(Response(200, SigninScreen.SigninBody(token, id)))));
      var a2 := Step(a1, ProfileLoaded(false, false, Replied(Response(200, e))));
      a1.authenticated && a2.authenticated && a2.profile.employee == Some(e)
  {
  }

  /** End to end: when storing the credentials fails during sign-in, the
      flag goes up but the profile tab finds no credentials and brings it
      straight back down. */
  lemma FaultySigninBouncesBack(today: string, yesterday: string, body: SigninScreen.SigninBody, reply: Reply<Forms.Employee>)
    ensures var a1 := Step(Initial(map[], today, yesterday), SigninPressed(true, Replied(Response(200, body))));
      var a2 := Step(a1, ProfileLoaded(false, false, reply));
      a1.authenticated && !a2.authenticated && a2.store == map[]
  {
  }

  /** After any flip of the flag the to-do tab is freshly mounted: no task
      list, input, edit or id survives from before. */
  lemma FlagChangeRemountsTodoTab(app: App, e: Event)
    ensures Step(app, e).authenticated != app.authenticated ==> Step(app, e).todo == TodoScreen.Initial(app.today)
  {
  }

  /** A successful sign-in discards the sign-in screen with whatever error
      it showed. */
  lemma SigninDiscardsScreen(app: App, fault: bool, body: SigninScreen.SigninBody)
    requires !app.authenticated
    ensures Step(app, SigninPressed(fault, Replied(Response(200, body)))).signin == SigninScreen.Initial
    ensures Step(app, SigninPressed(fault, Replied(Response(200, body)))).signin.error == ""
  {
  }

  /** One user logs out and another signs in: the to-do tab starts empty and
      loads the new user's id, not the previous one's. */
  lemma NoCarryOverBetweenUsers(app: App, token: string, id: string, reply: Reply<seq<TodoScreen.Todo>>)
    requires app.authenticated && token != "" && id != ""
    ensures var a1 := Step(app, LogoutPressed(false, false));
      var a2 := Step(a1, SigninPressed(false, Replied(Response(200, SigninScreen.SigninBody(token, id)))));
      var a3 := Step(a2, TodosLoaded(false, false, reply));
      && a2.authenticated
      && a2.todo == TodoScreen.Initial(app.today)
      && a3.todo.userId == Some(id)
  {
  }
}
