# Employee to-do app: a Dafny model of its client-side logic

This project models the client-side logic of an employee and to-do management app written in
React Native. It covers the following parts:

- The password policy, which exists in two forms. The password dialog walks a list of rules.
  The sign-up and profile screens use an if/else chain.
- The form checks of the sign-up screen and the profile editor.
- The list operations behind the check boxes and the searchable department picker.
- The shared authenticated request client, and the two credential stores it reads from:
  - AsyncStorage, which keeps two keys;
  - SecureStore, which keeps one JSON record.
- Each screen's handlers: sign-in, sign-up, profile tab, profile editor, password dialog and
  to-do tab.
- The session flag kept by the authentication navigator, and how every handler moves it.

## How the model is built

The model is written in pure functions over immutable datatypes:

- **Storage.** A store is a map. Each storage call takes a `fault` flag; when the flag is set,
  the call throws.
- **Server replies.** Each `fetch` takes a `Reply`: either the fetch rejects, or it resolves
  with a status and a decoded body. A 2xx status is `ok`.
- **Requests.** A request is a datatype holding:
  - an endpoint, with its query parameters kept as fields;
  - an optional verb;
  - a header map;
  - an optional body.
- **Handler results.** A screen handler returns:
  - the new screen state;
  - the alert shown, if any;
  - the call it makes on the session setter, if any;
  - the requests it sent.

The modules are:

| module | file | models |
|---|---|---|
| `Wrappers`, `Text` | `wrappers.dfy`, `text.dfy` | option/result types; JavaScript's `\s`, character classes, `toLowerCase`, `replace`, `includes`, `String(n)` |
| `PasswordRules` | `password_rules.dfy` | the strength policy: the rule list and the if/else chain |
| `Forms` | `forms.dfy` | the employee record, the error map, the e-mail/phone patterns, both `validateForm`s |
| `Selection` | `selection.dfy` | `filter`, check-box toggling, the department search and picker |
| `Http`, `Ui`, `Client` | `http.dfy`, `client.dfy` | requests, replies, alerts, setter calls; the request client both stores share |
| `AsyncApi` | `async_api.dfy` | `token-data/apiutils.js` |
| `SecureApi` | `secure_api.dfy` | `token-data/apiutils1.js` |
| `SigninScreen`, `SignupScreen` | `signin.dfy`, `signup.dfy` | the two sign-in paths |
| `ProfileScreen`, `ProfileModal`, `PasswordModal` | `profile_screen.dfy`, `profile_modal.dfy`, `password_modal.dfy` | the profile tab and its two dialogs |
| `TodoScreen` | `todo_screen.dfy` | the to-do tab |
| `Navigator` | `navigator.dfy` | `navigation/AuthNavigator.jsx` and the session flag across all screens |

## Model

| member | source | states |
|---|---|---|
| Text.LowerCaseChar | screens/SearchDepartment.jsx:30-31 | each ASCII upper-case letter becomes its own lower-case letter (code point plus 32); every other character is unchanged |
| Text.LowerCase | screens/SearchDepartment.jsx:30-31 | lower-casing keeps the length and maps each character on its own |
| Text.ReplaceAll | screens/SearchDepartment.jsx:30 | a global one-character replace keeps the length and rewrites exactly the occurrences of the pattern |
| Text.IncludesEmpty | screens/SearchDepartment.jsx:31 | every text includes the empty query |
| Text.MissingCharExcludes | screens/SearchDepartment.jsx:30-31 | a query character absent from the text rules out `includes` |
| Text.Decimal | token-data/apiutils.js:55 | a number's spelling in the error message is a non-empty run of decimal digits that starts with '0' only for zero itself |
| Text.DecimalRoundTrip | token-data/apiutils.js:55 | reading back the spelling of a status gives the status |
| PasswordRules.AllRulesIffStrong | screens/UpdatePasswordModal.jsx:41-67 | a password passes all six rules of the list exactly when it meets the policy |
| PasswordRules.FirstFailingUnique | screens/UpdatePasswordModal.jsx:69-74 | the loop can stop at only one rule: the first failing rule is unique |
| PasswordRules.MessagesNonEmpty | screens/UpdatePasswordModal.jsx:42-67 | no rule message is empty, so an empty message means success |
| PasswordRules.ChainReportsFirstFailure | screens/SignupScreen.jsx:86-104 | the if/else chain reports the first broken rule's message, and reports nothing exactly for strong passwords |
| PasswordRules.ChainAgreesWithRuleList | screens/UpdatePasswordModal.jsx:41-78 | any message this rule list can report is the message the if/else chain (screens/UpdateProfileModal.jsx:174-192) reports: the two validators agree |
| PasswordRules.NoUppercaseExample | screens/SignupScreen.jsx:89-92 | "abc12345" is rejected for lacking an upper-case letter, the first rule it breaks |
| PasswordRules.TooShortExample | screens/SignupScreen.jsx:89-90 | a seven-character password is rejected for length before anything else |
| PasswordRules.StrongExample | screens/SignupScreen.jsx:89-101 | "Abcdef1!" meets every rule |
| Forms.EmailShapeUnanchored | screens/SignupScreen.jsx:109 | the e-mail pattern is unanchored: text around a match still matches |
| Forms.EmailNeedsAt | screens/SignupScreen.jsx:109 | no text without an '@' passes the e-mail check |
| Forms.ShortestEmail | screens/SignupScreen.jsx:109 | "a@b.c" passes the e-mail check |
| Forms.SignupFormErrors | screens/SignupScreen.jsx:106-116 | the form is valid iff name, address and password are non-empty and e-mail and phone match their patterns; each of the five keys is present exactly when its own field is bad |
| Forms.ProfileFormErrors | screens/UpdateProfileModal.jsx:207-217 | the same checks, except that the password must have at least six characters; the password key is present iff it is shorter |
| Forms.ProfileCheckDiffersOnlyInPassword | screens/UpdateProfileModal.jsx:207-217 | both checks give the same verdict and message for every field but the password, and the editor's check is the stricter one |
| Forms.WeakPasswordPassesSignup | screens/SignupScreen.jsx:111 | a one-character password passes the sign-up form check |
| Forms.FormOf | screens/UpdateProfileModal.jsx:58-74 | every field of the editor's form is copied from the employee record |
| Selection.Keep | screens/SearchDepartment.jsx:29-32 | `filter` keeps exactly the elements that pass, every copy of each, as an ordered subsequence of the input |
| Selection.KeepAll | screens/SearchDepartment.jsx:29-32 | when every element passes, the filter returns the whole list |
| Selection.KeepNone | screens/SearchDepartment.jsx:29-32 | when no element passes, the filter returns nothing |
| Selection.KeepSnoc | screens/SignupScreen.jsx:406-411 | filtering a list with one element appended filters the list, then that element |
| Selection.KeepIdempotent | screens/TodoScreen.jsx:99 | filtering twice with the same test is filtering once |
| Selection.KeepDistinct | screens/SignupScreen.jsx:406-411 | filtering a list without repeats leaves no repeats |
| Selection.Toggle | screens/SignupScreen.jsx:406-411 | a check-box press selects the option iff it was not selected; a removal drops every copy of that option and keeps every other option, each copy, in order; a new option goes at the end |
| Selection.ToggleTwiceRestores | screens/SignupScreen.jsx:406-411 | pressing an unselected option twice restores the original selection, order included |
| Selection.ToggleKeepsDistinct | screens/SignupScreen.jsx:406-411 | toggling never puts an option into the selection twice |
| Selection.SearchKeyHasNoUnderscore | screens/SearchDepartment.jsx:30 | the text a department is searched by has no underscore |
| Selection.FilterDepartments | screens/SearchDepartment.jsx:29-32 | the listed departments are exactly those whose search key includes the lower-cased query, each as often as it is offered, in their original order |
| Selection.EmptyQueryListsAll | screens/SearchDepartment.jsx:29-32 | an empty query lists every department in order |
| Selection.UnderscoreQueryListsNothing | screens/SearchDepartment.jsx:30-31 | a query containing '_' lists nothing, because names lose their underscores before the comparison |
| Selection.Label | screens/SearchDepartment.jsx:61 | the button shows the prompt when nothing is chosen, otherwise the name with each underscore turned into a space and every other character kept |
| Selection.LabelFindsItsDepartment | screens/SearchDepartment.jsx:29-61 | typing the label shown for a chosen department into the search lists that department |
| Selection.Choose | screens/SearchDepartment.jsx:34-38 | choosing hands the department to the parent, closes the list and clears the search |
| Selection.Close | screens/SearchDepartment.jsx:81-84 | the close button hides the list and clears the search |
| Selection.ReopenListsAll | screens/SearchDepartment.jsx:34-38 | after a choice or a close, reopening lists every department whatever was typed |
| Client.AuthorizedRequest | token-data/apiutils.js:12-41 | refuses iff the token is not truthy; otherwise the caller's request keeps its url and verb, and gets both default headers unless the caller overrides them; a PUT's body is the caller's body when truthy, else the JSON of its data |
| Client.PutRequestCarriesData | token-data/apiutils.js:44-49 | `makePutRequest` sends exactly the two default headers and the JSON of its data |
| Client.HttpErrorNamesStatus | token-data/apiutils.js:51-56 | the HTTP error message starts with its fixed prefix and the status can be read back from it |
| AsyncApi.GetAuthToken | token-data/apiutils.js:3-10 | the stored token when present; null when absent or when storage throws |
| AsyncApi.GetAuthData | token-data/apiutils.js:75-83 | each value is present iff its key is stored; a storage fault gives two nulls |
| AsyncApi.TokenReadsAgree | token-data/apiutils.js:75-83 | the token from `getAuthData` is the token from `getAuthToken` |
| AsyncApi.ClearAuthData | token-data/apiutils.js:65-73 | reports success iff storage does not throw; on success both keys are gone, and other keys are never touched |
| AsyncApi.ClearIsIdempotent | token-data/apiutils.js:65-73 | clearing twice is clearing once |
| AsyncApi.LoadAfterClear | token-data/apiutils.js:65-83 | after a successful clear both values load as null |
| AsyncApi.SaveCredentials | screens/SigninScreen.jsx:19-28 | the pair is written unless storage throws, in which case the store is unchanged; other keys are kept |
| AsyncApi.SaveThenLoad | screens/SignupScreen.jsx:75-84 | what the screens save is what `getAuthData` loads |
| AsyncApi.RemoveItem | screens/ProfileScreen.jsx:63 | `removeItem` fails iff storage throws, and otherwise deletes exactly that key |
| AsyncApi.MakeAuthenticatedRequest | token-data/apiutils.js:12-41 | refused for a fault, a missing token or an empty token; otherwise carries the stored token in Authorization unless the caller overrides it |
| AsyncApi.MakePutRequest | token-data/apiutils.js:44-63 | no token is an error; otherwise a 2xx gives the body, a 401 gives 'Authentication expired', any other status an HTTP error, and a failed fetch a network error |
| SecureApi.StoreAuthData | token-data/apiutils1.js:4-16 | writes one record holding both values, or rethrows a storage fault and writes nothing |
| SecureApi.StoreThenLoad | token-data/apiutils1.js:6-11 | after a store, the record exists and loads the stored pair, whatever the timestamp |
| SecureApi.GetAuthData | token-data/apiutils1.js:72-84 | the record's two values as stored, either of which may be absent, or two nulls when there is no record or storage throws |
| SecureApi.HasAuthData | token-data/apiutils1.js:87-95 | true iff the record is present and storage does not throw |
| SecureApi.LoadReflectsPresence | token-data/apiutils1.js:72-95 | without a record the load gives two nulls; with one it gives exactly the record's values |
| SecureApi.HalfRecordIsPresent | token-data/apiutils1.js:6-10 | a record stored with an undefined id is present, yet loads a token and no id |
| SecureApi.RemoveAuthData | token-data/apiutils1.js:98-106 | reports success iff storage does not throw; on success the record is gone; other keys are never touched |
| SecureApi.RemoveThenCheck | token-data/apiutils1.js:98-106 | after a successful removal, nothing is found and nothing loads |
| SecureApi.MakeAuthenticatedRequest | token-data/apiutils1.js:18-22 | as written, every call fails with a ReferenceError naming `getAuthToken`, before any request exists |
| SecureApi.MakePutRequest | token-data/apiutils1.js:49-68 | as written, the PUT helper always fails |
| SecureApi.PutNeverSent | token-data/apiutils1.js:18-22 | even with a stored record and a server that would accept, the PUT fails with that ReferenceError |
| SecureApi.MakeAuthenticatedRequestFromRecord | token-data/apiutils1.js:18-47 | corrected: refused iff there is a fault, no record, or an empty token; otherwise the record's token goes in Authorization and the caller's headers are kept |
| SecureApi.MakePutRequestFromRecord | token-data/apiutils1.js:49-68 | corrected: a missing token is an error; otherwise a 2xx gives the body, a 401 gives 'Authentication expired', and any other status an HTTP error |
| SecureApi.PutMatchesAsyncBackEnd | token-data/apiutils1.js:49-68 | with the same token, the corrected helper answers every reply exactly as the AsyncStorage helper does |
| SigninScreen.TogglePasswordVisibility | screens/SigninScreen.jsx:15-17 | flips visibility and nothing else |
| SigninScreen.SigninRequest | screens/SigninScreen.jsx:55-60 | the sign-in is a POST to the sign-in endpoint with the typed credentials, no headers and no body |
| SigninScreen.HandleSignin | screens/SigninScreen.jsx:51-73 | authenticates iff the server answers 2xx, never signs out, stores the pair unless storage throws, and shows 'Invalid credentials' or 'Network error' otherwise |
| SigninScreen.FaultySaveStillAuthenticates | screens/SigninScreen.jsx:19-28 | a swallowed storage fault authenticates a user whose next authenticated request is refused for want of a token |
| SigninScreen.SuccessKeepsError | screens/SigninScreen.jsx:62-69 | the success branch of `handleSignin` does not clear `error`: a failed attempt's message is still in the state after a later success |
| SigninScreen.LocalAuthorizedRequest | screens/SigninScreen.jsx:39-49 | the screen's own helper never refuses, sends "Bearer null" without a token, and its Authorization replaces the caller's |
| SigninScreen.LocalHelperDiffers | screens/SigninScreen.jsx:39-49 | that helper and the shared client disagree on a caller's Authorization and on a missing token |
| SignupScreen.Initial | screens/SignupScreen.jsx:28-50 | every text field and the confirmation open empty, with the IT department, male, yesterday's date of birth, empty upload URLs, no options, no errors and both passwords hidden |
| SignupScreen.TypePassword | screens/SignupScreen.jsx:86-104 | typing shows the first broken rule's message under the password, empty iff strong, and keeps every other error |
| SignupScreen.TypeConfirmPassword | screens/SignupScreen.jsx:61-73 | the confirmation message is empty iff it equals the password now |
| SignupScreen.ConfirmationGoesStale | screens/SignupScreen.jsx:297-300 | editing the password after the confirmation leaves a mismatch unreported |
| SignupScreen.ToggleOption | screens/SignupScreen.jsx:406-411 | a press flips exactly that option's selection: removal drops its every copy and keeps the others, each copy, in order; an unselected option is appended; nothing else in the state changes |
| SignupScreen.ValidateForm | screens/SignupScreen.jsx:106-116 | the form passes iff the error map comes back empty; policy and confirmation messages are dropped |
| SignupScreen.RegistrationPayload | screens/SignupScreen.jsx:159-162 | the registered record is the form with the ticked options |
| SignupScreen.HandleSignup | screens/SignupScreen.jsx:156-213 | authenticates iff the form is valid and both registration and auto sign-in answer 2xx; sends nothing for an invalid form and at most register then sign-in; shows the server's message, the fixed refusal or the network message |
| SignupScreen.WeakPasswordIsRegistered | screens/SignupScreen.jsx:157 | a password the policy rejects is still sent for registration |
| SignupScreen.CreatedAccountReportedAsNetworkError | screens/SignupScreen.jsx:184-191 | a created account whose sign-in is refused is reported only as a network error |
| SignupScreen.AutoSigninMatchesSigninScreen | screens/SignupScreen.jsx:176-182 | the automatic sign-in is the sign-in screen's request plus a Content-Type header |
| ProfileModal.Initial | screens/UpdateProfileModal.jsx:28-48 | the editor opens with no uploads, no options, no errors and no spinner |
| ProfileModal.Populate | screens/UpdateProfileModal.jsx:58-74 | a record replaces the whole form; no record leaves it alone |
| ProfileModal.ValidatePassword | screens/UpdateProfileModal.jsx:174-192 | the password key shows the first broken rule's message, empty iff strong; other keys are kept |
| ProfileModal.ToggleCheckbox | screens/UpdateProfileModal.jsx:194-204 | a press flips exactly that option: removal drops its every copy and keeps the others, each copy, in order; an unselected option is appended; nothing else in the form or state changes |
| ProfileModal.ValidateForm | screens/UpdateProfileModal.jsx:207-217 | passes iff the error map is empty; the upload messages are dropped |
| ProfileModal.HandleSave | screens/UpdateProfileModal.jsx:219-245 | the success alert shows iff the form is valid, a record is given, a token is stored and the server answers 2xx; the PUT goes out iff the first three hold, carrying the form; a valid form that fails otherwise shows the network alert |
| ProfileModal.ExpiredSessionLooksLikeNetworkError | screens/UpdateProfileModal.jsx:241-244 | a 401, a 500 and a missing token all show the same network alert and keep the editor open |
| ProfileModal.SaveSkipsPasswordPolicy | screens/UpdateProfileModal.jsx:213 | a six-character password the policy rejects is saved |
| ProfileModal.HandlePickPhoto | screens/UpdateProfileModal.jsx:111-141 | a cancel changes nothing; an upload sets the photo; a failure flags only the photo key; the spinner ends down |
| ProfileModal.HandlePickDocument | screens/UpdateProfileModal.jsx:143-170 | the same for the resume |
| ProfileModal.UploadErrorClearedOnlyBySave | screens/UpdateProfileModal.jsx:136-139 | a failed upload's message outlives a later successful upload and goes only at the next save |
| PasswordModal.ToggleVisibility | screens/UpdatePasswordModal.jsx:33-38 | flips the chosen eye only |
| PasswordModal.ToggleVisibilityTwice | screens/UpdatePasswordModal.jsx:33-38 | flipping an eye twice restores it |
| PasswordModal.ValidatePassword | screens/UpdatePasswordModal.jsx:41-78 | valid iff strong iff the message is empty; the message is the first failing rule's, the same as the chain's |
| PasswordModal.TypeNewPassword | screens/UpdatePasswordModal.jsx:191-194 | typing shows the policy's verdict under the new password and changes nothing else |
| PasswordModal.ValidateConfirmPassword | screens/UpdatePasswordModal.jsx:81-88 | valid iff the confirmation equals the new password; only that message changes |
| PasswordModal.TypeConfirmPassword | screens/UpdatePasswordModal.jsx:213-216 | the confirmation is stored and its message is empty iff it equals the new password; no other field or message changes |
| PasswordModal.NotSameAsCurrentPassword | screens/UpdatePasswordModal.jsx:90-97 | answers true iff the candidate equals the current password, and flags it |
| PasswordModal.SameAsOldIsOnlyFlaggedByUnusedHelper | screens/UpdatePasswordModal.jsx:90-97 | reusing the current password is flagged only by that uncalled helper |
| PasswordModal.HandleClose | screens/UpdatePasswordModal.jsx:147-154 | every field, message and eye goes back to the start |
| PasswordModal.PasswordRequest | screens/UpdatePasswordModal.jsx:116-126 | a PUT to the password endpoint with the stored id and token interpolated, and exactly two headers |
| PasswordModal.MissingCredentialsStillSent | screens/UpdatePasswordModal.jsx:116-126 | without stored credentials the request goes to employee "null" with "Bearer null" |
| PasswordModal.HandleReply | screens/UpdatePasswordModal.jsx:128-143 | closes iff 2xx; a 'Current password is incorrect' refusal flags that field; other refusals alert their text or a fixed one; the spinner always ends down |
| PasswordModal.HandleUpdatePassword | screens/UpdatePasswordModal.jsx:99-144 | sends iff a current password is given, the new one is strong and the confirmation matches, checked in that order; each failing check sets only its own message ('Current password is required', the policy's message, 'Passwords do not match.') and leaves every field as it was |
| ProfileScreen.FetchEmployeeDetails | screens/ProfileScreen.jsx:27-56 | signs out iff a stored value is missing or the authenticated request gets a 401; requests iff both values and a readable token exist; a 2xx shows the employee |
| ProfileScreen.RefreshProfile | screens/ProfileScreen.jsx:71-96 | signs out iff no id is stored; otherwise sends a GET that carries no token, and no server answer ends the session |
| ProfileScreen.UnauthorizedOnlyEndsSessionOnLoad | screens/ProfileScreen.jsx:82-88 | the same 401 signs out on load but only alerts on refresh, which sends no token |
| ProfileScreen.HandleLogout | screens/ProfileScreen.jsx:61-69 | if removing the id fails nothing happens; otherwise the session ends and the id is gone, and a clean clear leaves no credentials |
| ProfileScreen.LogoutIsFinal | screens/ProfileScreen.jsx:61-69 | after a logout, the next load finds no id and signs out again without a request |
| TodoScreen.Initial | screens/TodoScreen.jsx:11-16 | the tab opens with no tasks, no input, no edit and no id |
| TodoScreen.LoadUserId | screens/TodoScreen.jsx:22-36 | with a stored id and token, the id is kept and one GET for that id's list is sent iff a token is readable; a 2xx replaces the list and nothing else changes; without both values nothing changes |
| TodoScreen.SavedCredentialsAreLoaded | screens/TodoScreen.jsx:22-36 | after a clean save of a token and id, mounting the tab keeps that id and requests its list with that token |
| TodoScreen.FetchTodos | screens/TodoScreen.jsx:38-53 | a GET is sent iff a token is stored; a 2xx replaces the list; anything else, a 401 included, changes nothing |
| TodoScreen.PayloadOf | screens/TodoScreen.jsx:66-73 | the body carries the typed task, the date, the id and the edited task's flags (false for a new task) |
| TodoScreen.AddOrUpdateTodo | screens/TodoScreen.jsx:55-87 | a blank task sends nothing; an edit is a PUT to its own address, a new task a POST to the list; a 2xx resets the input and refetches |
| TodoScreen.DeleteTodo | screens/TodoScreen.jsx:89-106 | a 2xx drops exactly the tasks with that id and keeps every other task, repeats included, in order; anything else changes nothing |
| TodoScreen.DeleteIsIdempotent | screens/TodoScreen.jsx:98-99 | deleting the same id twice leaves the list as once |
| TodoScreen.StartEdit | screens/TodoScreen.jsx:189-193 | Edit copies the task's name and date into the inputs and marks it as edited |
| TodoScreen.EditThenSaveTargetsItem | screens/TodoScreen.jsx:59-73 | saving after Edit PUTs that very task with its own flags |
| TodoScreen.UnauthorizedChangesNothing | screens/TodoScreen.jsx:47-49 | a 401 leaves the tab unchanged for fetch, delete and save alike |
| Navigator.Registered | navigation/AuthNavigator.jsx:21-43 | the main tabs are registered iff signed in; welcome, sign-up and sign-in iff signed out |
| Navigator.Apply | navigation/AuthNavigator.jsx:17 | a setter call sets the flag; no call leaves it |
| Navigator.Initial | navigation/AuthNavigator.jsx:17 | the app starts signed out, showing the three sign-in screens; every screen is freshly mounted and the given dates are kept |
| Navigator.Remount | navigation/AuthNavigator.jsx:22-43 | every screen back to the state it mounts with; flag and store kept |
| Navigator.Handle | navigation/AuthNavigator.jsx:22-43 | an event runs only its own screen's handler, leaving the other screens' state alone |
| Navigator.Step | navigation/AuthNavigator.jsx:17-43 | an event for an unregistered screen is ignored; only sign-in and sign-up raise the flag; only the profile tab lowers it; a flip of the flag restarts every screen from its initial state |
| Navigator.SigninAuthenticatesIffAccepted | screens/SigninScreen.jsx:62-72 | the flag goes up exactly when the sign-in answers 2xx |
| Navigator.SignupAuthenticatesIffBothAccepted | screens/SignupScreen.jsx:172-191 | the flag goes up exactly when the form is valid and both requests answer 2xx |
| Navigator.TodoEventsKeepSession | screens/TodoScreen.jsx:47-49 | no to-do event moves the flag or the store |
| Navigator.SignedOutIgnoresMainApp | navigation/AuthNavigator.jsx:22-33 | signed out, main-tab events change nothing |
| Navigator.LogoutSignsOut | screens/ProfileScreen.jsx:61-69 | a logout whose removal succeeds signs out; a clean clear leaves no credentials |
| Navigator.UnauthorizedIsIdempotent | screens/ProfileScreen.jsx:43-46 | a second 401 is ignored once the first has signed out |
| Navigator.SigninThenProfile | screens/SigninScreen.jsx:62-66 | signing in and opening the profile shows the server's employee with the session up |
| Navigator.FlagChangeRemountsTodoTab | navigation/AuthNavigator.jsx:22-43 | after any flip of the flag the to-do tab is as freshly mounted |
| Navigator.SigninDiscardsScreen | navigation/AuthNavigator.jsx:22-33 | a successful sign-in discards the sign-in screen with the error it showed |
| Navigator.NoCarryOverBetweenUsers | screens/TodoScreen.jsx:11-36 | after one user logs out and another signs in, the to-do tab starts empty and loads the new user's id |
| Navigator.FaultySigninBouncesBack | screens/ProfileScreen.jsx:30-36 | a sign-in whose save fails is signed out again by the profile tab's first load |

## Left out

- Rendering, styling, navigation animations and the date pickers. Dates are kept as the text the
  backend exchanges; the "today"/"yesterday" presets are parameters.
- The `time` field of the to-do body, which needs `toISOString`. It is a clock value and carries
  no logic.
- The uploader (`token-data/uplodaer.js`), and the image and document pickers. Their results are
  parameters of the profile editor's handlers. The sign-up screen's own pickers are left out for
  the same reason.
- `pass-protect/hashPassword.js`, `context/AuthContext.jsx`, `screens/WelcomeScreen.jsx`,
  `screens/PhotoUpload.jsx`, `screens/PDFViewer.jsx` and `navigation/AppNavigator.jsx`, beyond
  which tabs receive the setter. `App.js` is not part of this model either.
- `HomeScreen` is not part of this model.
- The JSON encoding and `encodeURIComponent`. A JSON body is the encoded value itself, and query
  parameters are endpoint fields. A response body that is not JSON is out of scope: replies
  carry their decoded body.
- The base URL from the environment.
- Header names are compared exactly. `fetch` treats them case-insensitively.
- `Text.LowerCase`: only ASCII letters are lowered, because non-ASCII case mapping is not
  modelled.
- `PasswordRules.AllRulesIffStrong`, `PasswordRules.ChainReportsFirstFailure` and
  `Forms.ProfileFormErrors`: their length checks (at least 8, at least 6) count Unicode scalar
  values, while JavaScript's `length` counts UTF-16 code units. The two differ only for
  characters outside the Basic Multilingual Plane.
- Navigation inside the signed-out stack: going back from sign-in or sign-up to the welcome
  screen unmounts that screen, which the model does not track. The model also does not run
  the profile tab's load when it mounts; that load is a separate event.
- Asynchronous interleaving, stale closures and React's batching of state updates. Each handler
  is modelled as running to completion against the state it started from. Effects fired after
  an await, such as `onUpdate` re-fetching the profile, are separate events.
- Logging with `console.log` and `console.error`.
- The token that the profile editor and the sign-up screen read at mount but never use.
- The sign-up screen's imported helpers it never calls.
- `TodoScreen`'s `setIsAuthenticated`, which the tab never receives. Each call throws into the
  surrounding `catch`, so the model keeps the session unchanged there.
- `SecureApi.MakeAuthenticatedRequest`: the ReferenceError is modelled as an error value. JSON
  parsing of a corrupted record is not modelled.

## Findings

| source | as written | input that shows it | evidently intended | confidence | as-written member | corrected member |
|---|---|---|---|---|---|---|
| token-data/apiutils1.js:19 | `makeAuthenticatedRequest` calls `getAuthToken`, which the file neither defines nor imports, so every call throws a ReferenceError and `makePutRequest` can never send | `makePutRequest` with an 'authData' record holding a non-empty token, against a server that would answer 200 | read the token from the 'authData' record (`getAuthData` in the same file) and proceed as the AsyncStorage helper does | high; latent, since no screen imports this file; not executed | SecureApi.MakePutRequest | SecureApi.MakePutRequestFromRecord |
