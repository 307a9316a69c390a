/** The employee record edited by the sign-up screen and the profile editor,
    the per-field error map both screens show, and the field checks both
    screens run before submitting. */
module Forms {
  import opened Wrappers
  import opened Text

  /** The form state both screens keep (`formData`). Dates are kept as the
      text the backend exchanges. */
  datatype ProfileForm = ProfileForm(
    employeeName: string,
    email: string,
    phoneNumber: string,
    address: string,
    password: string,
    department: string,
    isMale: bool,
    dateOfBirth: string,
    photoUrl: Option<string>,
    resumeUrl: Option<string>,
    checkBoxOptions: seq<string>)

  /** An employee as the backend returns it. */
  datatype Employee = Employee(
    id: string,
    employeeName: string,
    email: string,
    phoneNumber: string,
    address: string,
    password: string,
    department: string,
    isMale: bool,
    dateOfBirth: string,
    photoUrl: Option<string>,
    resumeUrl: Option<string>,
    checkBoxOptions: seq<string>)

  /** The keys of the screens' `errors` objects. */
  datatype Field =
    | EmployeeName | Email | PhoneNumber | Address | Password
    | ConfirmPassword | Submit | PhotoUpload | ResumeUpload

  type Errors = map<Field, string>

  /** The choices offered as check boxes by both screens. */
  const CheckBoxLabels: seq<string> := ["Health Insurance", "Newsletter", "Work From Home"]

  /** `/\S+@\S+\.\S+/` matches with its '@' at `i` and its '.' at `j`. */
  predicate EmailAt(s: string, i: int, j: int)
    requires 0 < i && i + 1 < j && j + 1 < |s|
  {
    && s[i] == '@' && s[j] == '.'
    && !IsWhitespace(s[i - 1]) && !IsWhitespace(s[j + 1])
    && forall m | i < m < j :: !IsWhitespace(s[m])
  }

  /** `/\S+@\S+\.\S+/.test(s)`: the unanchored pattern matches somewhere in
      `s`. One non-space character on each side is all the `\S+` runs need. */
  predicate EmailShape(s: string) {
    exists i, j | 0 < i && i + 1 < j && j + 1 < |s| :: EmailAt(s, i, j)
  }

  /** `/^\d{10}$/.test(s)`: exactly ten ASCII digits and nothing else. */
  predicate PhoneShape(s: string) {
    |s| == 10 && forall i | 0 <= i < |s| :: IsAsciiDigit(s[i])
  }

  /** The pattern is unanchored: text around a match does not spoil it. */
  lemma {:induction false} EmailShapeUnanchored(s: string, before: string, after: string)
    requires EmailShape(s)
    ensures EmailShape(before + s + after)
  {
    var i, j :| 0 < i && i + 1 < j && j + 1 < |s| && EmailAt(s, i, j);
    var t := before + s + after;
    var k := |before|;
    forall m | 0 <= m < |s|
      ensures t[k + m] == s[m]
    {
    }
    assert EmailAt(t, k + i, k + j);
  }

  /** Without an '@' nothing matches. */
  lemma {:induction false} EmailNeedsAt(s: string)
    requires '@' !in s
    ensures !EmailShape(s)
  {
    forall i, j | 0 < i && i + 1 < j && j + 1 < |s|
      ensures !EmailAt(s, i, j)
    {
      assert s[i] in s;
    }
  }

  /** The smallest address the pattern accepts. */
  lemma ShortestEmail()
    ensures EmailShape("a@b.c")
  {
    assert EmailAt("a@b.c", 1, 3);
  }

  /** An error map over the five checked fields is empty once none of them is set. */
  lemma NoKeysMeansEmpty(e: Errors)
    requires e.Keys <= {EmployeeName, Email, PhoneNumber, Password, Address}
    ensures e == map[] <==>
      EmployeeName !in e && Email !in e && PhoneNumber !in e && Password !in e && Address !in e
  {
    if EmployeeName !in e && Email !in e && PhoneNumber !in e && Password !in e && Address !in e {
      assert e.Keys == {};
    }
  }

  /** Sign-up `validateForm`: name, e-mail, phone, password and address,
      each with its own message; the password only has to be non-empty. */
  function SignupFormErrors(f: ProfileForm): (errs: Errors)
    ensures errs == map[] <==>
      f.employeeName != "" && EmailShape(f.email) && PhoneShape(f.phoneNumber) && f.password != "" && f.address != ""
    ensures errs.Keys <= {EmployeeName, Email, PhoneNumber, Password, Address}
    ensures EmployeeName in errs <==> f.employeeName == ""
    ensures Email in errs <==> !EmailShape(f.email)
    ensures PhoneNumber in errs <==> !PhoneShape(f.phoneNumber)
    ensures Password in errs <==> f.password == ""
    ensures Address in errs <==> f.address == ""
  {
    var e0: Errors := map[];
    var e1 := if f.employeeName == "" then e0[EmployeeName := "Name is required"] else e0;
    var e2 := if f.email == "" || !EmailShape(f.email) then e1[Email := "Valid email is required"] else e1;
    var e3 := if f.phoneNumber == "" || !PhoneShape(f.phoneNumber) then e2[PhoneNumber := "Valid phone number is required"] else e2;
    var e4 := if f.password == "" then e3[Password := "Password is required"] else e3;
    var e5 := if f.address == "" then e4[Address := "Address is required"] else e4;
    assert e5.Keys <= {EmployeeName, Email, PhoneNumber, Password, Address};
    assert EmployeeName in e5 <==> f.employeeName == "";
    assert Address in e5 <==> f.address == "";
    NoKeysMeansEmpty(e5);
    e5
  }

  /** Profile-editor `validateForm`: the same checks, except that the
      password needs at least six characters. */
  function ProfileFormErrors(f: ProfileForm): (errs: Errors)
    ensures errs == map[] <==>
      f.employeeName != "" && EmailShape(f.email) && PhoneShape(f.phoneNumber) && f.address != "" && |f.password| >= 6
    ensures Password in errs <==> |f.password| < 6
  {
    var e0: Errors := map[];
    var e1 := if f.employeeName == "" then e0[EmployeeName := "Name is required"] else e0;
    var e2 := if f.email == "" || !EmailShape(f.email) then e1[Email := "Valid email is required"] else e1;
    var e3 := if f.phoneNumber == "" || !PhoneShape(f.phoneNumber) then e2[PhoneNumber := "Valid phone number is required"] else e2;
    var e4 := if f.address == "" then e3[Address := "Address is required"] else e3;
    var e5 := if f.password == "" || |f.password| < 6 then e4[Password := "Password must be at least 6 characters"] else e4;
    assert e5.Keys <= {EmployeeName, Email, PhoneNumber, Password, Address};
    assert EmployeeName in e5 <==> f.employeeName == "";
    assert Address in e5 <==> f.address == "";
    NoKeysMeansEmpty(e5);
    e5
  }

  /** The two forms disagree only about the password: every other field gets
      the same verdict and the same message, and the profile editor's check
      is the stricter one. */
  lemma {:induction false} ProfileCheckDiffersOnlyInPassword(f: ProfileForm)
    ensures forall k | k != Password :: (k in SignupFormErrors(f) <==> k in ProfileFormErrors(f))
    ensures forall k | k != Password && k in SignupFormErrors(f) :: SignupFormErrors(f)[k] == ProfileFormErrors(f)[k]
    ensures ProfileFormErrors(f) == map[] ==> SignupFormErrors(f) == map[]
    ensures Password in ProfileFormErrors(f) && Password in SignupFormErrors(f) ==>
      ProfileFormErrors(f)[Password] != SignupFormErrors(f)[Password]
  {
  }

  /** Sign-up accepts a one-character password that the strength policy
      rejects: submitting does not enforce the policy. */
  lemma WeakPasswordPassesSignup()
    ensures SignupFormErrors(ProfileForm("Ann", "a@b.c", "0123456789", "Main St", "x", "IT", true, "", None, None, [])) == map[]
  {
    ShortestEmail();
    var phone := "0123456789";
    assert PhoneShape(phone) by {
      forall i | 0 <= i < |phone|
        ensures IsAsciiDigit(phone[i])
      {
      }
    }
  }

  /** The profile editor shows the employee it is given: every field of the
      form is copied from the record. */
  function FormOf(e: Employee): (f: ProfileForm)
    ensures f.employeeName == e.employeeName && f.email == e.email && f.phoneNumber == e.phoneNumber
    ensures f.address == e.address && f.password == e.password && f.department == e.department
    ensures f.isMale == e.isMale && f.dateOfBirth == e.dateOfBirth
    ensures f.photoUrl == e.photoUrl && f.resumeUrl == e.resumeUrl && f.checkBoxOptions == e.checkBoxOptions
  {
    ProfileForm(e.employeeName, e.email, e.phoneNumber, e.address, e.password, e.department,
                e.isMale, e.dateOfBirth, e.photoUrl, e.resumeUrl, e.checkBoxOptions)
  }
}
