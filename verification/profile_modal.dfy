/** The profile editor (`screens/UpdateProfileModal.jsx`): a copy of the
    employee record, edited and sent back with the shared PUT helper. */
module ProfileModal {
  import opened Wrappers
  import opened Text
  import opened Http
  import opened Ui
  import opened Client
  import opened Forms
  import opened Selection
  import opened PasswordRules
  import AsyncApi

  datatype State = State(form: ProfileForm, errors: Errors, passwordVisible: bool, isLoading: bool)

  /** The editor as it opens, before the record is copied in; `today` is the
      preset date of birth. */
  function Initial(today: string): (st: State)
    ensures st.form.photoUrl.None? && st.form.resumeUrl.None? && st.form.checkBoxOptions == []
    ensures st.errors == map[] && !st.isLoading
  {
    State(ProfileForm("", "", "", "", "", "IT", true, today, None, None, []), map[], false, false)
  }

  /** The effect run when the `employee` prop changes: a record replaces the
      whole form; no record leaves it as it was. */
  function Populate(st: State, employee: Option<Employee>): (r: State)
    ensures employee.None? ==> r == st
    ensures employee.Some? ==> r.form == FormOf(employee.value) && r.(form := st.form) == st
  {
    match employee
    case None => st
    case Some(e) => st.(form := FormOf(e))
  }

  /** `validatePassword` of this editor (no field calls it): the policy's
      verdict under the password key, everything else kept. */
  function ValidatePassword(st: State, password: string): (r: State)
    ensures Password in r.errors && ReportsFirstFailure(password, r.errors[Password])
    ensures r.errors[Password] == "" <==> Strong(password)
    ensures forall k | k != Password :: (k in r.errors <==> k in st.errors) && (k in st.errors ==> r.errors[k] == st.errors[k])
    ensures r.(errors := st.errors) == st
  {
    ChainReportsFirstFailure(password);
    st.(errors := st.errors[Password := ChainMessage(password)])
  }

  /** `handleCheckboxToggle`: only the ticked options change. */
  function ToggleCheckbox(st: State, option: string): (r: State)
    ensures option in r.form.checkBoxOptions <==> option !in st.form.checkBoxOptions
    ensures forall o | o != option :: o in r.form.checkBoxOptions <==> o in st.form.checkBoxOptions
    ensures option in st.form.checkBoxOptions ==>
      Subsequence(r.form.checkBoxOptions, st.form.checkBoxOptions) &&
      forall o :: multiset(r.form.checkBoxOptions)[o] == (if o == option then 0 else multiset(st.form.checkBoxOptions)[o])
    ensures option !in st.form.checkBoxOptions ==> r.form.checkBoxOptions == st.form.checkBoxOptions + [option]
    ensures r.form.(checkBoxOptions := st.form.checkBoxOptions) == st.form
    ensures r.(form := st.form) == st
  {
    st.(form := st.form.(checkBoxOptions := Toggle(st.form.checkBoxOptions, option)))
  }

  /** `validateForm`: the error map is replaced by the form's verdict. */
  function ValidateForm(st: State): (r: (State, bool))
    ensures r.1 <==> r.0.errors == map[]
    ensures r.1 <==>
      && st.form.employeeName != "" && EmailShape(st.form.email) && PhoneShape(st.form.phoneNumber)
      && st.form.address != "" && |st.form.password| >= 6
    ensures PhotoUpload !in r.0.errors && ResumeUpload !in r.0.errors
    ensures r.0.(errors := st.errors) == st
  {
    var errs := ProfileFormErrors(st.form);
    assert errs.Keys <= {EmployeeName, Email, PhoneNumber, Password, Address};
    (st.(errors := errs), errs == map[])
  }

  /** The outcome of pressing "Save": the alert shown, whether the parent's
      `onUpdate` and `onClose` were called, and the request sent, if any. */
  datatype SaveOutcome = SaveOutcome(state: State, alert: Option<Alert>, closed: bool, sent: Option<Request<ProfileForm>>)

  const SavedAlert := Alert("Success", "Profile updated successfully")
  const FailedAlert := Alert("Error", "Network error occurred")

  /** `handleSave`. An invalid form sends nothing and shows no alert. A
      missing record throws before any request. Otherwise the form is PUT to
      the employee's record; any answer the helper returns counts as success
      (both branches on it do the same), and every error it throws, a 401
      included, shows the same network alert. */
  function HandleSave<B>(st: State, employee: Option<Employee>, store: AsyncApi.Store, storeFault: bool, reply: Reply<B>): (o: SaveOutcome)
    ensures o.state == ValidateForm(st).0
    ensures o.alert.None? <==> !ValidateForm(st).1
    ensures o.alert == Some(SavedAlert) <==>
      && ValidateForm(st).1 && employee.Some?
      && Truthy(AsyncApi.GetAuthToken(store, storeFault))
      && reply.Replied? && reply.response.Ok()
    ensures o.alert.Some? ==> o.alert == Some(SavedAlert) || o.alert == Some(FailedAlert)
    ensures o.closed <==> o.alert == Some(SavedAlert)
    ensures o.sent.Some? <==> ValidateForm(st).1 && employee.Some? && Truthy(AsyncApi.GetAuthToken(store, storeFault))
    ensures o.sent.Some? ==>
      && o.sent.value.url == EmployeeRecord(employee.value.id)
      && o.sent.value.verb == Some(Put)
      && o.sent.value.body == Some(Json(st.form))
      && o.sent.value.headers == DefaultHeaders(AsyncApi.GetAuthToken(store, storeFault).value)
  {
    var (checked, valid) := ValidateForm(st);
    if !valid then SaveOutcome(checked, None, false, None)
    else match employee
      case None => SaveOutcome(checked, Some(FailedAlert), false, None)
      case Some(e) =>
        var url := EmployeeRecord(e.id);
        var sent := AsyncApi.MakeAuthenticatedRequest(store, storeFault, url, PutOptions(st.form));
        match AsyncApi.MakePutRequest(store, storeFault, url, st.form, reply)
        case Ok(_) => SaveOutcome(checked, Some(SavedAlert), true, if sent.Ok? then Some(sent.value) else None)
        case Err(_) => SaveOutcome(checked, Some(FailedAlert), false, if sent.Ok? then Some(sent.value) else None)
  }

  /** An expired session is reported as a network error and leaves the
      editor open, like a missing token and like any other refusal. */
  lemma ExpiredSessionLooksLikeNetworkError<B>(st: State, e: Employee, store: AsyncApi.Store, body: B)
    requires ValidateForm(st).1
    requires AsyncApi.TokenKey in store && store[AsyncApi.TokenKey] != ""
    ensures HandleSave(st, Some(e), store, false, Replied(Response(401, body))).alert == Some(FailedAlert)
    ensures HandleSave(st, Some(e), store, false, Replied(Response(500, body))).alert == Some(FailedAlert)
    ensures HandleSave(st, Some(e), map[], false, Replied(Response(200, body))).alert == Some(FailedAlert)
    ensures !HandleSave(st, Some(e), store, false, Replied(Response(401, body))).closed
  {
  }

  /** The password the editor sends is the record's own, checked only for
      length: a six-character password the policy rejects is saved. */
  lemma SaveSkipsPasswordPolicy<B>(e: Employee, store: AsyncApi.Store, body: B)
    requires e.employeeName == "Ann" && e.email == "a@b.c" && e.phoneNumber == "0123456789"
    requires e.address == "Main St" && e.password == "abcdef"
    requires AsyncApi.TokenKey in store && store[AsyncApi.TokenKey] != ""
    ensures !Strong(e.password)
    ensures HandleSave(Populate(Initial(""), Some(e)), Some(e), store, false, Replied(Response(200, body))).alert == Some(SavedAlert)
  {
    ChainReportsFirstFailure(e.password);
    ShortestEmail();
    var phone := "0123456789";
    assert PhoneShape(phone) by {
      forall i | 0 <= i < |phone|
        ensures IsAsciiDigit(phone[i])
      {
      }
    }
  }

  /** What an image or document picker hands back. A result without assets
      counts as canceled. */
  datatype Pick = Canceled | Picked(uri: string) | PickFailed

  const PhotoUploadFailed := "Failed to upload image. Please try again."
  const ResumeUploadFailed := "Failed to upload resume. Please try again."

  /** `handlePickPhoto` given the picker's result and the uploader's answer
      (`None` when the upload throws): the uploaded URL becomes the photo;
      a failure of either step is reported under the photo key. The loading
      flag ends down whenever an upload was started. */
  function HandlePickPhoto(st: State, pick: Pick, upload: Option<string>): (r: State)
    ensures pick.Canceled? ==> r == st
    ensures pick.Picked? && upload.Some? ==> r == st.(form := st.form.(photoUrl := upload), isLoading := false)
    ensures pick.Picked? ==> !r.isLoading
    ensures (pick.PickFailed? || (pick.Picked? && upload.None?)) ==>
      r.form == st.form && r.errors == st.errors[PhotoUpload := PhotoUploadFailed]
  {
    match pick
    case Canceled => st
    case PickFailed => st.(errors := st.errors[PhotoUpload := PhotoUploadFailed])
    case Picked(_) =>
      match upload
      case Some(url) => st.(form := st.form.(photoUrl := Some(url)), isLoading := false)
      case None => st.(isLoading := false, errors := st.errors[PhotoUpload := PhotoUploadFailed])
  }

  /** `pickDocument`: the same, for the resume. */
  function HandlePickDocument(st: State, pick: Pick, upload: Option<string>): (r: State)
    ensures pick.Canceled? ==> r == st
    ensures pick.Picked? && upload.Some? ==> r == st.(form := st.form.(resumeUrl := upload), isLoading := false)
    ensures pick.Picked? ==> !r.isLoading
    ensures (pick.PickFailed? || (pick.Picked? && upload.None?)) ==>
      r.form == st.form && r.errors == st.errors[ResumeUpload := ResumeUploadFailed]
  {
    match pick
    case Canceled => st
    case PickFailed => st.(errors := st.errors[ResumeUpload := ResumeUploadFailed])
    case Picked(_) =>
      match upload
      case Some(url) => st.(form := st.form.(resumeUrl := Some(url)), isLoading := false)
      case None => st.(isLoading := false, errors := st.errors[ResumeUpload := ResumeUploadFailed])
  }

  /** A failed upload message outlives a later successful upload and is
      cleared only by the next save's form check. */
  lemma UploadErrorClearedOnlyBySave(st: State, url: string)
    ensures var failed := HandlePickPhoto(st, Picked("file"), None);
      var retried := HandlePickPhoto(failed, Picked("file"), Some(url));
      && retried.form.photoUrl == Some(url)
      && retried.errors[PhotoUpload] == PhotoUploadFailed
      && PhotoUpload !in ValidateForm(retried).0.errors
  {
  }
}
