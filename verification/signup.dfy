/** The sign-up screen (`screens/SignupScreen.jsx`): field checks as the user
    types, a whole-form check on submit, registration, then an automatic
    sign-in. */
module SignupScreen {
  import opened Wrappers
  import opened Http
  import opened Ui
  import opened Client
  import opened Forms
  import opened Selection
  import opened PasswordRules
  import AsyncApi
  import SigninScreen

  datatype State = State(
    form: ProfileForm,
    selectedOptions: seq<string>,
    confirmPassword: string,
    errors: Errors,
    passwordVisible: bool,
    confirmPasswordVisible: bool)

  /** The screen as it opens; `yesterday` is the date of birth preset from
      the clock. */
  function Initial(yesterday: string): (st: State)
    ensures st.form.department == "IT" && st.form.isMale
    ensures st.form.employeeName == "" && st.form.password == "" && st.form.checkBoxOptions == []
    ensures st.form.email == "" && st.form.phoneNumber == "" && st.form.address == ""
    ensures st.form.dateOfBirth == yesterday && st.form.photoUrl == Some("") && st.form.resumeUrl == Some("")
    ensures st.confirmPassword == "" && !st.passwordVisible && !st.confirmPasswordVisible
    ensures st.selectedOptions == [] && st.errors == map[]
  {
    State(ProfileForm("", "", "", "", "", "IT", true, yesterday, Some(""), Some(""), []), [], "", map[], false, false)
  }

  /** Typing a password stores it and shows the policy's verdict on it: the
      message of the first rule it breaks, or an empty message. */
  function TypePassword(st: State, text: string): (r: State)
    ensures r.form == st.form.(password := text)
    ensures Password in r.errors && ReportsFirstFailure(text, r.errors[Password])
    ensures r.errors[Password] == "" <==> Strong(text)
    ensures forall k | k != Password :: (k in r.errors <==> k in st.errors) && (k in st.errors ==> r.errors[k] == st.errors[k])
    ensures r.(form := st.form, errors := st.errors) == st
  {
    ChainReportsFirstFailure(text);
    st.(form := st.form.(password := text), errors := st.errors[Password := ChainMessage(text)])
  }

  /** Typing the confirmation compares it with the password as it is now. */
  function TypeConfirmPassword(st: State, text: string): (r: State)
    ensures r.confirmPassword == text
    ensures ConfirmPassword in r.errors
    ensures r.errors[ConfirmPassword] == "" <==> text == st.form.password
    ensures r.errors[ConfirmPassword] != "" ==> r.errors[ConfirmPassword] == "Passwords do not match"
    ensures forall k | k != ConfirmPassword :: (k in r.errors <==> k in st.errors) && (k in st.errors ==> r.errors[k] == st.errors[k])
    ensures r.form == st.form && r.selectedOptions == st.selectedOptions
  {
    var msg := if text != st.form.password then "Passwords do not match" else "";
    st.(confirmPassword := text, errors := st.errors[ConfirmPassword := msg])
  }

  /** Changing the password afterwards does not re-check the confirmation:
      the mismatch goes unreported. */
  lemma ConfirmationGoesStale(st: State, first: string, second: string)
    requires first != second
    ensures var r := TypePassword(TypeConfirmPassword(TypePassword(st, first), first), second);
      r.form.password != r.confirmPassword && r.errors[ConfirmPassword] == ""
  {
  }

  /** A press on a preference check box. */
  function ToggleOption(st: State, option: string): (r: State)
    ensures option in r.selectedOptions <==> option !in st.selectedOptions
    ensures forall o | o != option :: o in r.selectedOptions <==> o in st.selectedOptions
    ensures option in st.selectedOptions ==>
      Subsequence(r.selectedOptions, st.selectedOptions) &&
      forall o :: multiset(r.selectedOptions)[o] == (if o == option then 0 else multiset(st.selectedOptions)[o])
    ensures option !in st.selectedOptions ==> r.selectedOptions == st.selectedOptions + [option]
    ensures r.(selectedOptions := st.selectedOptions) == st
  {
    st.(selectedOptions := Toggle(st.selectedOptions, option))
  }

  /** `validateForm`: the error map is replaced by the form's verdict, so
      the password-policy and confirmation messages disappear. */
  function ValidateForm(st: State): (r: (State, bool))
    ensures r.1 <==> r.0.errors == map[]
    ensures r.1 <==>
      && st.form.employeeName != "" && EmailShape(st.form.email) && PhoneShape(st.form.phoneNumber)
      && st.form.password != "" && st.form.address != ""
    ensures ConfirmPassword !in r.0.errors && Submit !in r.0.errors
    ensures r.0.(errors := st.errors) == st
  {
    var errs := SignupFormErrors(st.form);
    (st.(errors := errs), errs == map[])
  }

  /** The record sent for registration: the form with the ticked options. */
  function RegistrationPayload(st: State): (p: ProfileForm)
    ensures p.checkBoxOptions == st.selectedOptions
    ensures p.(checkBoxOptions := st.form.checkBoxOptions) == st.form
  {
    st.form.(checkBoxOptions := st.selectedOptions)
  }

  function JsonHeaders(): Headers {
    map["Content-Type" := "application/json"]
  }

  /** What the registration endpoint answers when it refuses. */
  datatype RegisterError = RegisterError(message: Option<string>)

  const NetworkMessage := "Network error occurred. Please try again."
  const RegistrationFailed := "Registration failed. Email already registered or invalid date."

  /** The outcome of pressing "Sign Up", with the requests sent in order. */
  datatype Outcome = Outcome(
    state: State,
    store: AsyncApi.Store,
    session: SessionUpdate,
    sent: seq<Request<ProfileForm>>)

  /** `handleSignup`. An invalid form sends nothing. Otherwise the payload is
      registered; on a 2xx answer the same credentials are signed in with,
      and a 2xx answer to that stores the token and id and authenticates.
      A refused registration shows the server's message, or a fixed one when
      it gives none; a refused sign-in and a failed fetch both show the
      network message. */
  function HandleSignup(st: State, store: AsyncApi.Store, storeFault: bool,
                        registerReply: Reply<RegisterError>, signinReply: Reply<SigninScreen.SigninBody>): (o: Outcome)
    ensures o.session == SetAuthenticated(true) <==>
      && SignupFormErrors(st.form) == map[]
      && registerReply.Replied? && registerReply.response.Ok()
      && signinReply.Replied? && signinReply.response.Ok()
    ensures o.session != SetAuthenticated(false)
    ensures o.sent == [] <==> SignupFormErrors(st.form) != map[]
    ensures o.sent == [] ==> o.state == st.(errors := SignupFormErrors(st.form)) && o.store == store
    ensures |o.sent| >= 1 ==> o.sent[0] == Request(Register, Some(Post), JsonHeaders(), Some(Json(RegistrationPayload(st))))
    ensures |o.sent| == 2 <==> |o.sent| >= 1 && registerReply.Replied? && registerReply.response.Ok()
    ensures |o.sent| == 2 ==> o.sent[1] == Request(SignIn(st.form.email, st.form.password), Some(Post), JsonHeaders(), None)
    ensures |o.sent| <= 2
    ensures o.session == SetAuthenticated(true) ==> o.state == st.(errors := map[])
    ensures o.session == SetAuthenticated(true) && !storeFault ==>
      AsyncApi.GetAuthData(o.store, false)
        == AuthData(Some(signinReply.response.body.token), Some(signinReply.response.body.id))
    ensures o.session == NoUpdate && |o.sent| >= 1 ==> o.store == store && o.state.errors.Keys == {Submit}
    ensures |o.sent| == 1 && registerReply.Replied? ==>
      o.state.errors[Submit] == (if Truthy(registerReply.response.body.message)
                                 then registerReply.response.body.message.value else RegistrationFailed)
    ensures |o.sent| >= 1 && registerReply.NetworkFailure? ==> o.state.errors[Submit] == NetworkMessage
    ensures |o.sent| == 2 && o.session == NoUpdate ==> o.state.errors[Submit] == NetworkMessage
  {
    var (checked, valid) := ValidateForm(st);
    if !valid then Outcome(checked, store, NoUpdate, [])
    else
      var register := Request(Register, Some(Post), JsonHeaders(), Some(Json(RegistrationPayload(st))));
      var failed := (msg: string) => checked.(errors := checked.errors[Submit := msg]);
      match registerReply
      case NetworkFailure => Outcome(failed(NetworkMessage), store, NoUpdate, [register])
      case Replied(resp) =>
        if !resp.Ok() then
          var msg := if Truthy(resp.body.message) then resp.body.message.value else RegistrationFailed;
          Outcome(failed(msg), store, NoUpdate, [register])
        else
          var signin := Request(SignIn(st.form.email, st.form.password), Some(Post), JsonHeaders(), None);
          match signinReply
          case Replied(r2) =>
            if r2.Ok() then
              Outcome(checked, AsyncApi.SaveCredentials(store, storeFault, r2.body.token, r2.body.id),
                      SetAuthenticated(true), [register, signin])
            else Outcome(failed(NetworkMessage), store, NoUpdate, [register, signin])
          case NetworkFailure => Outcome(failed(NetworkMessage), store, NoUpdate, [register, signin])
  }

  /** Submitting does not apply the password policy: a one-character
      password the policy rejects is registered. */
  lemma WeakPasswordIsRegistered(st: State, registerReply: Reply<RegisterError>, signinReply: Reply<SigninScreen.SigninBody>)
    requires st.form == ProfileForm("Ann", "a@b.c", "0123456789", "Main St", "x", "IT", true, "", None, None, [])
    ensures !Strong(st.form.password)
    ensures |HandleSignup(st, map[], false, registerReply, signinReply).sent| >= 1
  {
    WeakPasswordPassesSignup();
    ChainReportsFirstFailure("x");
  }

  /** An account the server created, followed by a refused sign-in, is
      reported as a network error: the user is not told the account exists. */
  lemma CreatedAccountReportedAsNetworkError(st: State, store: AsyncApi.Store, body: RegisterError,
                                             status: nat, sbody: SigninScreen.SigninBody)
    requires SignupFormErrors(st.form) == map[]
    requires !(200 <= status <= 299)
    ensures var o := HandleSignup(st, store, false, Replied(Response(201, body)), Replied(Response(status, sbody)));
      && |o.sent| == 2 && o.session == NoUpdate
      && o.state.errors == map[Submit := NetworkMessage]
  {
  }

  /** The sign-in that follows registration is the sign-in screen's own
      request, with a Content-Type header added. */
  lemma AutoSigninMatchesSigninScreen(st: State, store: AsyncApi.Store, body: RegisterError,
                                      signinReply: Reply<SigninScreen.SigninBody>)
    requires SignupFormErrors(st.form) == map[]
    ensures var o := HandleSignup(st, store, false, Replied(Response(200, body)), signinReply);
      var plain: Request<ProfileForm> := SigninScreen.SigninRequest(SigninScreen.State(st.form.email, st.form.password, "", false));
      o.sent[1] == plain.(headers := JsonHeaders())
  {
  }
}
