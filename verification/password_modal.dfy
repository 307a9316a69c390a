/** The password-change dialog (`screens/UpdatePasswordModal.jsx`). Unlike the
    other screens it checks the policy by walking a list of rules, and it
    builds its request by hand rather than through the shared client. */
module PasswordModal {
  import opened Wrappers
  import opened Text
  import opened Http
  import opened Ui
  import opened Client
  import opened PasswordRules
  import AsyncApi

  datatype FieldErrors = FieldErrors(oldPassword: string, newPassword: string, confirmPassword: string)

  /** Which of the three password fields shows its text. */
  datatype Visibility = Visibility(showOld: bool, showNew: bool, showConfirm: bool)

  datatype Eye = OldEye | NewEye | ConfirmEye

  datatype State = State(
    oldPassword: string,
    newPassword: string,
    confirmPassword: string,
    loading: bool,
    errors: FieldErrors,
    visibility: Visibility)

  const NoErrors := FieldErrors("", "", "")
  const Hidden := Visibility(false, false, false)
  const Initial := State("", "", "", false, NoErrors, Hidden)

  /** `handleTogglePasswordVisibility(field)`: flips one eye. */
  function ToggleVisibility(v: Visibility, eye: Eye): (r: Visibility)
    ensures eye == OldEye ==> r == v.(showOld := !v.showOld)
    ensures eye == NewEye ==> r == v.(showNew := !v.showNew)
    ensures eye == ConfirmEye ==> r == v.(showConfirm := !v.showConfirm)
  {
    match eye
    case OldEye => v.(showOld := !v.showOld)
    case NewEye => v.(showNew := !v.showNew)
    case ConfirmEye => v.(showConfirm := !v.showConfirm)
  }

  /** Flipping an eye twice restores it. */
  lemma ToggleVisibilityTwice(v: Visibility, eye: Eye)
    ensures ToggleVisibility(ToggleVisibility(v, eye), eye) == v
  {
  }

  /** `validatePassword`: tries the rules in order and stops at the first
      one that fails. Its verdict is the policy's, and its message is the
      one the if/else chain of the other screens produces. */
  method ValidatePassword(p: string) returns (valid: bool, message: string)
    ensures valid <==> Strong(p)
    ensures valid <==> message == ""
    ensures ReportsFirstFailure(p, message)
    ensures message == ChainMessage(p)
  {
    var i := 0;
    while i < |RuleOrder|
      invariant 0 <= i <= |RuleOrder|
      invariant forall j | 0 <= j < i :: Holds(RuleOrder[j], p)
    {
      var rule := RuleOrder[i];
      if !Holds(rule, p) {
        assert FirstFailing(p, i);
        AllRulesIffStrong(p);
        MessagesNonEmpty(rule);
        ChainAgreesWithRuleList(p, Message(rule));
        return false, Message(rule);
      }
      i := i + 1;
    }
    AllRulesIffStrong(p);
    ChainReportsFirstFailure(p);
    return true, "";
  }

  /** Typing a new password stores it and shows the verdict on it. */
  method TypeNewPassword(st: State, text: string) returns (r: State)
    ensures r.newPassword == text
    ensures r.errors.newPassword == "" <==> Strong(text)
    ensures ReportsFirstFailure(text, r.errors.newPassword)
    ensures r.errors.(newPassword := st.errors.newPassword) == st.errors
    ensures r.(newPassword := st.newPassword, errors := st.errors) == st
  {
    var _, message := ValidatePassword(text);
    r := st.(newPassword := text, errors := st.errors.(newPassword := message));
  }

  /** `validateConfirmPassword`: the confirmation must equal the new
      password as it is now. */
  function ValidateConfirmPassword(st: State, confirm: string): (r: (State, bool))
    ensures r.1 <==> confirm == st.newPassword
    ensures r.0.errors.confirmPassword == (if r.1 then "" else "Passwords do not match.")
    ensures r.0 == st.(errors := r.0.errors) && r.0.errors.(confirmPassword := st.errors.confirmPassword) == st.errors
  {
    var ok := confirm == st.newPassword;
    (st.(errors := st.errors.(confirmPassword := if ok then "" else "Passwords do not match.")), ok)
  }

  /** Typing the confirmation stores it and checks it. */
  function TypeConfirmPassword(st: State, text: string): (r: State)
    ensures r.confirmPassword == text
    ensures r.errors.confirmPassword == "" <==> text == st.newPassword
    ensures r.errors.(confirmPassword := st.errors.confirmPassword) == st.errors
    ensures r == st.(confirmPassword := text, errors := r.errors)
  {
    ValidateConfirmPassword(st, text).0.(confirmPassword := text)
  }

  /** `notSameAsCurrentPassword` (nothing calls it): despite its name it
      answers true when the candidate EQUALS the current password, and then
      flags the new-password field. */
  function NotSameAsCurrentPassword(st: State, candidate: string): (r: (State, bool))
    ensures r.1 <==> candidate == st.oldPassword
    ensures r.0.errors.newPassword == (if r.1 then "Passwords Should not match with old Password." else "")
    ensures r.0 == st.(errors := r.0.errors) && r.0.errors.(newPassword := st.errors.newPassword) == st.errors
  {
    var same := candidate == st.oldPassword;
    (st.(errors := st.errors.(newPassword := if same then "Passwords Should not match with old Password." else "")), same)
  }

  /** `handleClose`: every field, message and eye back to its start. */
  function HandleClose(st: State): (r: State)
    ensures r.oldPassword == "" && r.newPassword == "" && r.confirmPassword == ""
    ensures r.errors == NoErrors && r.visibility == Hidden
    ensures r.loading == st.loading
  {
    Initial.(loading := st.loading)
  }

  const WrongPassword := "Current password is incorrect"

  /** The request `handleUpdatePassword` sends: the id and token read from
      storage go in as they are, "null" when missing. */
  function PasswordRequest(st: State, auth: AuthData): (q: Request<string>)
    ensures q.url == PasswordChange(Interpolate(auth.userId), st.oldPassword, st.newPassword)
    ensures q.verb == Some(Put) && q.body.None?
    ensures q.headers.Keys == {"Content-Type", "Authorization"}
    ensures q.headers["Authorization"] == "Bearer " + Interpolate(auth.token)
  {
    Request(PasswordChange(Interpolate(auth.userId), st.oldPassword, st.newPassword), Some(Put),
            map["Content-Type" := "application/json", "Authorization" := Bearer(auth.token)], None)
  }

  /** What the dialog ends up showing once the server has answered. */
  datatype Answer = Answer(state: State, alert: Option<Alert>, closed: bool)

  /** The answer handling of `handleUpdatePassword`: a 2xx answer closes the
      dialog; a refusal whose text mentions the wrong current password flags
      that field; any other refusal shows its text, or a fixed message when
      the text is empty; a failed fetch shows the network alert. The loading
      flag ends down in every case. */
  function HandleReply(st: State, reply: Reply<string>): (a: Answer)
    ensures !a.state.loading
    ensures a.closed <==> reply.Replied? && reply.response.Ok()
    ensures a.closed ==> a.state == HandleClose(st).(loading := false) && a.alert == Some(Alert("Success", "Password updated successfully"))
    ensures reply.NetworkFailure? ==> a.state == st.(loading := false) && a.alert == Some(Alert("Error", "Network error occurred"))
    ensures reply.Replied? && !reply.response.Ok() && Includes(reply.response.body, WrongPassword) ==>
      a.alert.None? && a.state == st.(loading := false, errors := st.errors.(oldPassword := WrongPassword))
    ensures reply.Replied? && !reply.response.Ok() && !Includes(reply.response.body, WrongPassword) ==>
      a.state == st.(loading := false) &&
      a.alert == Some(Alert("Error", if reply.response.body == "" then "Failed to update password" else reply.response.body))
  {
    match reply
    case NetworkFailure => Answer(st.(loading := false), Some(Alert("Error", "Network error occurred")), false)
    case Replied(resp) =>
      if resp.Ok() then
        Answer(HandleClose(st).(loading := false), Some(Alert("Success", "Password updated successfully")), true)
      else if Includes(resp.body, WrongPassword) then
        Answer(st.(loading := false, errors := st.errors.(oldPassword := WrongPassword)), None, false)
      else
        Answer(st.(loading := false), Some(Alert("Error", if resp.body == "" then "Failed to update password" else resp.body)), false)
  }

  /** `handleUpdatePassword`, given the stored credentials and the server's
      reply (the body is its text). Checks run in order and the first
      failure stops: the current password must be given, the new one must
      meet the policy, the confirmation must match. Nothing compares the
      new password with the current one, and nothing checks that a token
      exists before the request goes out. */
  method HandleUpdatePassword(st: State, store: AsyncApi.Store, storeFault: bool, reply: Reply<string>)
    returns (r: State, alert: Option<Alert>, closed: bool, sent: Option<Request<string>>)
    ensures sent.Some? <==> st.oldPassword != "" && Strong(st.newPassword) && st.confirmPassword == st.newPassword
    ensures sent.Some? ==> sent.value == PasswordRequest(st, AsyncApi.GetAuthData(store, storeFault))
    ensures st.oldPassword == "" ==>
      r == st.(errors := st.errors.(oldPassword := "Current password is required")) && alert.None? && !closed
    ensures st.oldPassword != "" && !Strong(st.newPassword) ==>
      r.errors.newPassword == ChainMessage(st.newPassword) && r.errors.newPassword != ""
    ensures st.oldPassword != "" && !Strong(st.newPassword) ==>
      r == st.(errors := st.errors.(newPassword := ChainMessage(st.newPassword)))
    ensures st.oldPassword != "" && Strong(st.newPassword) && st.confirmPassword != st.newPassword ==>
      r == st.(errors := st.errors.(newPassword := "", confirmPassword := "Passwords do not match."))
    ensures sent.None? ==> r.loading == st.loading && alert.None? && !closed
    ensures sent.Some? ==> !r.loading && r.errors.newPassword == "" && r.errors.confirmPassword == ""
    ensures closed <==> sent.Some? && reply.Replied? && reply.response.Ok()
    ensures sent.Some? ==>
      var a := HandleReply(st.(loading := true, errors := st.errors.(newPassword := "", confirmPassword := "")), reply);
      r == a.state && alert == a.alert && closed == a.closed
  {
    closed := false;
    alert := None;
    sent := None;
    if st.oldPassword == "" {
      r := st.(errors := st.errors.(oldPassword := "Current password is required"));
      return;
    }
    var valid, message := ValidatePassword(st.newPassword);
    r := st.(errors := st.errors.(newPassword := message));
    if !valid {
      return;
    }
    var checked := ValidateConfirmPassword(r, r.confirmPassword);
    if !checked.1 {
      r := checked.0;
      return;
    }
    sent := Some(PasswordRequest(st, AsyncApi.GetAuthData(store, storeFault)));
    var a := HandleReply(checked.0.(loading := true), reply);
    r, alert, closed := a.state, a.alert, a.closed;
  }

  /** The helper nothing calls flags exactly the passwords that the submit
      handler lets through unchanged. */
  lemma SameAsOldIsOnlyFlaggedByUnusedHelper(st: State)
    requires st.oldPassword != "" && st.newPassword == st.oldPassword
    ensures NotSameAsCurrentPassword(st, st.newPassword).1
    ensures NotSameAsCurrentPassword(st, st.newPassword).0.errors.newPassword != ""
  {
  }

  /** Without stored credentials the request still goes out, addressed to
      the employee "null" with the token "null". */
  lemma MissingCredentialsStillSent(st: State)
    ensures PasswordRequest(st, AsyncApi.GetAuthData(map[], false)).url
         == PasswordChange("null", st.oldPassword, st.newPassword)
    ensures PasswordRequest(st, AsyncApi.GetAuthData(map[], false)).headers["Authorization"] == "Bearer null"
  {
  }
}
