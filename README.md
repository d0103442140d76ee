# providerr core, modelled in Dafny

This project models the business rules of the providerr service marketplace:

- accounts, login and password recovery;
- the provider's profile and settings;
- provider registration;
- the provider's own service listings;
- the state handlers of three front-end pages (provider settings,
  notifications, password reset).

It proves the rules each part promises.

Modules follow the source files:

| module | file | models |
|---|---|---|
| `Wrappers` | wrappers.dfy | `Option` and `Result` |
| `Js` | js.dfy | the JavaScript semantics the handlers rely on (see below) |
| `Auth` | auth.dfy | `backend/controllers/auth.js` |
| `ProviderStore` | provider_store.dfy | the provider collection, the `select` projection and the truthy field merge shared by the provider controllers |
| `ProfileController` | profile_controller.dfy | `backend/controllers/profileController.js` |
| `SettingsController` | settings_controller.dfy | `backend/controllers/settingsController.js` |
| `ProviderController` | provider_controller.dfy | `backend/controllers/providerController.js` |
| `ServiceController` | service_controller.dfy | `backend/controllers/serviceController.js` |
| `SettingsForm` | settings_form.dfy | `frontend/src/pages/dashboard/provider/Settings.jsx` |
| `Notifications` | notifications.dfy | `frontend/src/pages/dashboard/provider/Notifications.jsx` |
| `ResetPasswordPage` | reset_password.dfy | `frontend/src/pages/ResetPassword.jsx` |

`Js` covers these parts of JavaScript:

- values as they arrive in a request body or a schema-less stored document;
- truthiness and `||`;
- property reads, which throw on `null` and `undefined`;
- `typeof … === 'object'`;
- `String(v)`;
- `trim` over JavaScript's white-space set;
- the UTF-16 `length`;
- `map` with a callback that may throw, and `filter`.

How the model is built:

- **Stores.** A stored document is a `map<string, Value>`. The provider
  collection and the service table are classes whose field (a map from id to
  document) the handlers reassign.
- **Accounts.** `Auth.AccountStore` holds the three account collections
  (`User`, `Provider`, `Admin`). Each is a map from e-mail to a typed record.
  The provider collection therefore appears twice: as the credential view
  auth.js uses, and as the id-keyed documents the provider controllers use.
- **Opaque functions.** bcrypt, SHA-256 (FIPS 180-4) and JWT signing
  (RFC 7519) are fields of a datatype of functions. Nothing is assumed about
  them. The one lemma-like use of bcrypt soundness (`compare(p, hash(p, salt))`)
  is a precondition of `Auth.RecoveryRoundTrip`. In the settings update,
  bcrypt's `compare` and `hash` return a `Result`: they throw on arguments of
  the wrong type, and the handler's catch turns that into a 500.
- **Parameters.** The following are passed in as parameters:
  - the clock (`Date.now()` in milliseconds);
  - bcrypt's salt;
  - the random reset and verification tokens;
  - fresh document ids;
  - the ISO date rendering, which fails for a value that is not a date;
  - the outcome of mail delivery, image processing, `JSON.parse` and
    schema validation.
- **Handlers.** Each handler is a method. Where its outcome is computed by a
  chain of steps, its `ensures` ties the reply and the new store to a
  specification function (`SavedSettings`, `AfterUpdate`, `AfterDelete`,
  `ValidatedThrough`), and lemmas state what those functions guarantee.
- **Front-end pages.** The front-end handlers are `prev => next` state
  updaters, so they are functions from one form or page record to the next.

Where the code and its documentation differ, the model follows the code:

- `getSettings` sets status 404 for a missing provider, but then throws
  inside its own `try`. The catch therefore answers 500.
- `resetPassword` never consults the expiry it stores.
- `updateSettings` stores the notification preferences under
  `emailNotifications`/`smsNotifications`, but `getSettings` reads them from
  `email`/`sms`. Saved e-mail and SMS preferences therefore always read back
  as their defaults (`SettingsController.SavedEmailAndSmsPreferencesReadAsDefaults`).
- `updateSettings` writes `profileImage`, `birthDate` and `description`, but
  `getSettings` reads `profilePhoto`, `dob` and `bio`. A saved image, birth
  date or description therefore never reads back
  (`SettingsController.SavedImageBirthDateAndBioNotReadBack`).
- The time check in `validateWorkHours` is a regular expression's `test`. That
  stringifies its argument, so a one-element array such as `["9:30"]` passes.

## Model

| member | source | states |
|---|---|---|
| Auth.RoleName | backend/controllers/auth.js:90-99 | the role name is `client`, `provider` or `admin`, and names the role it came from |
| Auth.GenerateAuthToken | backend/controllers/auth.js:11-17 | the token is the signature of claims carrying the account's id, e-mail and role, issued at `now/1000` seconds and expiring 3600 seconds later |
| Auth.OrEmpty | backend/controllers/auth.js:26-29 | `x \|\| ''`: a missing value becomes the empty string |
| Auth.CreateAuthResponse | backend/controllers/auth.js:20-32 | the session body carries the generated token and the account's id, e-mail and role; the stored full name and phone are reported as stored, and a missing one becomes `''` |
| Auth.AccountStore.Locate | backend/controllers/auth.js:71-73 | an e-mail resolves to the account in the first collection, in the order User, Provider, Admin, that holds it; none when no collection does |
| Auth.AccountStore.Login | backend/controllers/auth.js:67-115 | 200 exactly when the e-mail resolves and bcrypt accepts the password; the body has the token and the role of the collection that matched; otherwise the one uniform 401 `Invalid credentials` |
| Auth.AccountStore.ClientSignup | backend/controllers/auth.js:35-64 | an e-mail already in User gives 409 and changes nothing; otherwise exactly one client record with role `client` and the bcrypt digest is added, and the reply is 201 with its session; Provider and Admin are never consulted or changed |
| Auth.AccountStore.AdminSignup | backend/controllers/auth.js:131-164 | as client signup, against Admin only; the new admin has `isVerified` true |
| Auth.AccountStore.AdminLogin | backend/controllers/auth.js:167-195 | 200 exactly when Admin holds the e-mail and bcrypt accepts the password; otherwise 401 `Invalid admin credentials`; no other collection is consulted |
| Auth.AccountStore.ForgotPassword | backend/controllers/auth.js:197-247 | an unknown e-mail is a 404 that changes nothing; a known client gets the SHA-256 of the token and an expiry `now + 900000`, nothing else changes, and the reply is 200 or, when the mail fails, 500 with the token still stored |
| Auth.AccountStore.ResetPassword | backend/controllers/auth.js:249-280 | with no client holding the token's hash, 400 and no change; otherwise that client's password becomes the new digest, both reset fields are cleared, and the reply is 200; the expiry is never consulted |
| Auth.ClientShadowsOthers | backend/controllers/auth.js:71-73 | a client account is the one login resolves, whatever Provider or Admin hold under the same e-mail |
| Auth.RecoveryRoundTrip | backend/controllers/auth.js:197-280 | forgot-password then reset with the mailed token lets the client log in with the new password as `client`, and the same token is refused the second time |
| Js.Truthy | backend/controllers/settingsController.js:36 | ToBoolean: a value is falsy exactly when it is `undefined`, `null`, `false`, `0` or `''` |
| Js.Or | backend/controllers/settingsController.js:153-163 | `a \|\| b` is one of its operands and is truthy exactly when either is |
| Js.Get | backend/controllers/settingsController.js:153-163 | an absent property reads as `undefined` |
| Js.Property | backend/controllers/settingsController.js:20 | reading a property of `null` or `undefined` throws; an object yields its property; any other value yields `undefined` |
| Js.ParseNatToString | frontend/src/pages/dashboard/provider/Notifications.jsx:76-85 | the decimal rendering of a number reads back as that number |
| Js.NatToStringInjective | frontend/src/pages/dashboard/provider/Notifications.jsx:76-85 | different numbers render as different strings |
| Js.IntToStringHasNoColon | backend/controllers/settingsController.js:31 | a rendered number contains no colon, so it never passes the time test |
| Js.ToString | backend/controllers/settingsController.js:31 | `String(v)` before the pattern test: a string is itself, a number renders without a colon and a non-negative one reads back as that number, an empty array renders as `''` |
| Js.TrimStart | backend/controllers/settingsController.js:21-24 | the result is a suffix of the input with only white space removed and does not start with white space |
| Js.TrimEnd | backend/controllers/settingsController.js:21-24 | the result is a prefix of the input with only white space removed and does not end with white space |
| Js.Trim | backend/controllers/settingsController.js:21-24 | the trimmed string is a slice of the input, and is empty or starts and ends with non-white space |
| Js.TrimEmptyIffAllSpace | backend/controllers/settingsController.js:21 | `s.trim().length === 0` exactly when `s` is all white space |
| Js.TrimIdempotent | backend/controllers/settingsController.js:24 | trimming a trimmed string changes nothing |
| Js.Utf16Length | frontend/src/pages/ResetPassword.jsx:29-33 | the UTF-16 length is at least the number of code points and at most twice it |
| Js.MapOrThrow | backend/controllers/settingsController.js:19-25 | `map` with a throwing callback: the first item that throws decides the error; otherwise the results, same length, item by item |
| Js.Filter | backend/controllers/providerController.js:35 | `filter` keeps exactly the items the predicate accepts |
| Js.FilterMembership | backend/controllers/providerController.js:35 | a value is in the filtered list exactly when it is in the list and accepted |
| Js.FilterIsSubsequence | backend/controllers/providerController.js:35 | the kept items are in their original order |
| Js.FilterAppend | frontend/src/pages/dashboard/provider/Settings.jsx:135-140 | filtering a concatenation is the concatenation of the filtered parts |
| Js.FilterKeepsAll | frontend/src/pages/dashboard/provider/Settings.jsx:135-140 | when every item is accepted the list is unchanged |
| ProviderStore.Select | backend/controllers/profileController.js:9-10 | the deselected fields (password, `__v`, dates, verification documents, status) are absent; every other field reads as before |
| ProviderStore.MergeTruthy | backend/controllers/profileController.js:66-78 | each listed field takes the request's value exactly when that is truthy and keeps the stored one otherwise; unlisted fields are untouched |
| ProfileController.View | backend/controllers/profileController.js:18-33 | each of the fourteen reported fields is the stored value under the same name, and `undefined` when the document lacks it |
| ProfileController.ViewReadsOnlyViewFields | backend/controllers/profileController.js:18-33 | the reported profile depends on the fourteen listed fields only |
| ProfileController.ViewOfSelected | backend/controllers/profileController.js:9-33 | deselecting the hidden fields loses nothing the profile reports |
| ProfileController.ViewNeverShowsHidden | backend/controllers/profileController.js:83-98 | the password and verification documents can never change what is reported |
| ProfileController.UpdateKeepsEmail | backend/controllers/profileController.js:49-63 | the profile update never changes `email`, whatever the request holds |
| ProfileController.GetProfile | backend/controllers/profileController.js:8-36 | 404 exactly for a missing provider; otherwise the fourteen-field projection of the stored document |
| ProfileController.UpdateProfile | backend/controllers/profileController.js:41-99 | a missing provider is a 404 with no change; otherwise the document becomes the truthy merge of the thirteen fields, `email` is kept, and the reply is its projection |
| SettingsController.AreaCandidate | backend/controllers/settingsController.js:20 | objects contribute `item.area`, arrays `undefined`, `null` throws, other items contribute themselves |
| SettingsController.CheckArea | backend/controllers/settingsController.js:21-24 | a candidate passes exactly when it is a string that is not all white space, and the result is that string trimmed; otherwise `Invalid service area format` |
| SettingsController.AreaOf | backend/controllers/settingsController.js:19-25 | one item's area text: the trimmed string item, or the trimmed `area` of an object item; accepted exactly when that is a non-blank string; `null` and arrays are refused |
| SettingsController.ValidateServiceAreas | backend/controllers/settingsController.js:15-26 | a non-array throws `Service areas must be an array`; otherwise it succeeds exactly when every item's area is acceptable, with one trimmed area per item in order |
| SettingsController.BlankAreaIsRefused | backend/controllers/settingsController.js:19-23 | a blank string item, an object whose area is missing, not a string or blank, `null` or an array makes the whole validation fail |
| SettingsController.ParseOneDigit | backend/controllers/settingsController.js:31 | a one-digit hour reads as its digit |
| SettingsController.ParseTwoDigits | backend/controllers/settingsController.js:31 | a two-digit field reads as tens and units |
| SettingsController.IsValidTime | backend/controllers/settingsController.js:31 | an accepted time is four or five characters: digits, a colon, then two digits |
| SettingsController.ValidTimeIsClockTime | backend/controllers/settingsController.js:31 | the time pattern accepts exactly `H:MM` or `HH:MM` with hour at most 23 and minute at most 59 |
| SettingsController.TimeTestRefusesOtherValues | backend/controllers/settingsController.js:31 | a value that is neither a string nor an array never passes the time test |
| SettingsController.ColonFreeIsNoTime | backend/controllers/settingsController.js:31 | a string without a colon never passes the time test |
| SettingsController.ValidateDay | backend/controllers/settingsController.js:36-59 | an absent or falsy day is closed with `''` times; an accepted available day has an object entry with `available: true` and both times valid, and keeps them; an accepted unavailable one has them cleared |
| SettingsController.ValidateDayEntry | backend/controllers/settingsController.js:36-52 | for a present, truthy entry: a non-boolean `available` throws `Invalid availability for <day>`; `false` gives the closed day; `true` keeps both times when both are valid, else throws `Invalid time format for <day>` |
| SettingsController.ErrorStops | backend/controllers/settingsController.js:35-60 | once a day throws, the later days change nothing |
| SettingsController.FirstInvalidDayDecides | backend/controllers/settingsController.js:35-46 | a refused week carries the error of the first day, in order, that does not validate |
| SettingsController.ValidatedThroughOk | backend/controllers/settingsController.js:35-60 | the first `n` days validate exactly when each of them does |
| SettingsController.ValidatedThroughDays | backend/controllers/settingsController.js:35-60 | after the first `n` days the result holds exactly those days, each with its validated hours |
| SettingsController.ValidateWorkHours | backend/controllers/settingsController.js:29-63 | the loop over the seven days computes the week day by day, stopping at the first error |
| SettingsController.WorkHoursWeek | backend/controllers/settingsController.js:30-60 | a validated week has exactly the keys monday to sunday |
| SettingsController.WorkHoursClosedDays | backend/controllers/settingsController.js:47-58 | in a validated week an unavailable day, and a day absent from the input, is `{available: false, start: '', end: ''}` |
| SettingsController.NotificationFlag | backend/controllers/settingsController.js:95-98 | a stored preference that is not `undefined` is reported as stored; otherwise the default |
| SettingsController.AreaEntry | backend/controllers/settingsController.js:90-94 | every reported area has radius `10 miles`; an object area is reported with its truthy `_id` rendered (else the clock) and its truthy `area` (else itself); another truthy area as itself with the clock as its id; a falsy one as `''` |
| SettingsController.SettingsView | backend/controllers/settingsController.js:79-108 | fails exactly when a truthy `dob` cannot be rendered (that error first) or stored service areas are truthy but not an array; otherwise each field is the stored value when truthy and its default (`''`, `United States`, `[]`, the default week) otherwise, the birth date is the rendered `dob`, one entry per stored area, and the preferences default to email true, sms false, booking true, promotion true |
| SettingsController.GetSettings | backend/controllers/settingsController.js:68-115 | a missing provider, an unrenderable `dob` and an unmappable `serviceAreas` all end in the 500; otherwise the settings of the selected document |
| SettingsController.SettingsReadableIffDobAndAreasUsable | backend/controllers/settingsController.js:87-90 | a stored provider's settings are reported exactly when its `dob` is falsy or renders and its `serviceAreas` is falsy or an array |
| SettingsController.NotificationsOf | backend/controllers/settingsController.js:164-169 | the stored `notifications` has exactly the four request keys, each with the request's value, even when undefined |
| SettingsController.MergeSettings | backend/controllers/settingsController.js:153-170 | `notifications` is overwritten unconditionally and the stored password is kept |
| SettingsController.MergeSettingsField | backend/controllers/settingsController.js:153-170 | each of the eleven profile fields and `workHours` takes the request's value exactly when truthy and keeps the stored one otherwise; every other field but `notifications` is unchanged |
| SettingsController.SavedEmailAndSmsPreferencesReadAsDefaults | backend/controllers/settingsController.js:95-96 | after a save, the e-mail and SMS preferences read back as the defaults true and false, whatever was sent |
| SettingsController.SavedAlertPreferencesReadBack | backend/controllers/settingsController.js:97-98 | after a save, booking and promotion alert preferences that were sent read back as sent |
| SettingsController.SavedImageBirthDateAndBioNotReadBack | backend/controllers/settingsController.js:80-88 | after a save, the image, birth date and description read back from the stored `profilePhoto`, `dob` and `bio`, whatever was sent |
| SettingsController.NotificationsSurviveSave | backend/controllers/settingsController.js:164-169 | the saved `notifications` object survives the read-side projection |
| SettingsController.NormaliseArea | backend/controllers/settingsController.js:173-181 | a string item is kept; an object item becomes its `area` and throws `Each service area must have an area property` when that is falsy, as does any other non-string item; `null` and `undefined` throw |
| SettingsController.PasswordGate | backend/controllers/settingsController.js:185-202 | with no password field set the password is kept; otherwise all three are required, then `compare` must not throw and must accept the current one, then new must equal confirm, each refusal with its own 400 message; a change happens exactly when all pass |
| SettingsController.NewAreas | backend/controllers/settingsController.js:172-182 | the areas are normalised only when an array was sent, and a bad item makes the update fail |
| SettingsController.SavedSettings | backend/controllers/settingsController.js:152-209 | the update fails exactly when an area item is bad, bcrypt throws (both 500 `Failed to update settings`) or the password gate refuses (400 with its message) |
| SettingsController.SavedSettingsFields | backend/controllers/settingsController.js:152-204 | the saved document is the merge, with `serviceAreas` the normalised list when one was sent and `password` the new digest only when the gate allowed a change |
| SettingsController.SettingsKeepPasswordWithoutPasswordFields | backend/controllers/settingsController.js:185 | a request with no password fields never changes the stored digest |
| SettingsController.UpdateSettings | backend/controllers/settingsController.js:120-211 | a missing provider is a 404 with no change; a refusal changes nothing and sends its reply; otherwise exactly the described document is saved, with 200 |
| ProviderController.MissingFields | backend/controllers/providerController.js:35 | every reported name is a required field whose value is falsy, every such field is reported, and there are at most fifteen |
| ProviderController.MissingFieldsAreFalsyRequired | backend/controllers/providerController.js:28-35 | a name is reported missing exactly when it is one of the fifteen required fields and its value is falsy |
| ProviderController.MissingFieldsInDeclaredOrder | backend/controllers/providerController.js:35 | the missing names appear in the order the required list declares them |
| ProviderController.NothingMissingIffAllTruthy | backend/controllers/providerController.js:35-36 | nothing is missing exactly when all fifteen fields are truthy |
| ProviderController.ErrorReply | backend/controllers/providerController.js:101-113 | a schema validation error is a 400 with its messages; any other error is a 500 |
| ProviderController.NewProviderDoc | backend/controllers/providerController.js:54-72 | the new document carries the request's fields, the parsed services and areas, the verification token expiring at `now + 86400000`, and the three image paths |
| ProviderController.BuildProvider | backend/controllers/providerController.js:54-113 | a failure while building is a 500, or a 400 carrying the schema messages; a built document's verification token expires at `now + 86400000` |
| ProviderController.Registration | backend/controllers/providerController.js:28-113 | missing fields give 400 listing them before any duplicate check; a taken e-mail then gives 409; otherwise the outcome of building the document |
| ProviderController.RegisterProvider | backend/controllers/providerController.js:25-115 | a refusal decided by `Registration` is sent and nothing is stored; otherwise exactly the new document is stored under the new id and the 201 carries the token signed for that id and the document's fields; something is stored exactly when the reply is a 201 |
| ServiceController.Scope | backend/controllers/serviceController.js:6 | the services listed for a caller are exactly those whose `provider` is the caller, unchanged |
| ServiceController.AfterUpdate | backend/controllers/serviceController.js:88-95 | only the caller's service with that id changes, taking the request's fields; otherwise the table is unchanged |
| ServiceController.AfterDelete | backend/controllers/serviceController.js:128 | only the caller's service with that id is removed; otherwise nothing is |
| ServiceController.UpdateLeavesOthersAlone | backend/controllers/serviceController.js:88-95 | an update never changes a service the caller does not own |
| ServiceController.DeleteLeavesOthersAlone | backend/controllers/serviceController.js:128 | a delete never removes a service the caller does not own |
| ServiceController.OthersScopeUnchanged | backend/controllers/serviceController.js:79-147 | what another provider sees is unchanged by the caller's update (when it does not rewrite `provider`) or delete |
| ServiceController.ServiceTable.GetAllServices | backend/controllers/serviceController.js:4-21 | exactly the caller's services, with `results` their count; a lookup failure is a 404 with its message |
| ServiceController.ServiceTable.GetService | backend/controllers/serviceController.js:24-54 | no id is a 400; a service that is absent or owned by someone else is a 404; otherwise the service |
| ServiceController.ServiceTable.CreateService | backend/controllers/serviceController.js:57-76 | the new service has `provider` set to the caller, whatever the request said, and is the only change; a failure is a 400 with no change |
| ServiceController.ServiceTable.UpdateService | backend/controllers/serviceController.js:79-116 | the table becomes the specified update; 200 with the updated service when the caller owns it, otherwise 404 and no change |
| ServiceController.ServiceTable.DeleteService | backend/controllers/serviceController.js:119-147 | the table becomes the specified delete; 204 when the caller owned it, otherwise 404 and nothing removed |
| SettingsForm.AddEmail | frontend/src/pages/dashboard/provider/Settings.jsx:125-133 | a non-empty e-mail not yet listed is appended and the input cleared; otherwise the form is unchanged; nothing else changes |
| SettingsForm.AddEmailKeepsDistinct | frontend/src/pages/dashboard/provider/Settings.jsx:125-133 | a list without duplicates never gains one |
| SettingsForm.RemoveEmail | frontend/src/pages/dashboard/provider/Settings.jsx:135-140 | every occurrence of the e-mail goes, every other e-mail stays as often as it occurred, nothing else changes |
| SettingsForm.RemoveEmailKeepsOrder | frontend/src/pages/dashboard/provider/Settings.jsx:135-140 | the remaining e-mails keep their order |
| SettingsForm.RemoveUndoesAdd | frontend/src/pages/dashboard/provider/Settings.jsx:125-140 | removing an e-mail just added restores the list |
| SettingsForm.SetHours | frontend/src/pages/dashboard/provider/Settings.jsx:142-153 | one field of one day takes the value; every other field and day is unchanged |
| SettingsForm.ToggleDay | frontend/src/pages/dashboard/provider/Settings.jsx:155-166 | only that day's availability flips; its times and the other days are unchanged |
| SettingsForm.ToggleTwice | frontend/src/pages/dashboard/provider/Settings.jsx:155-166 | toggling a day twice restores the form |
| SettingsForm.AddServiceArea | frontend/src/pages/dashboard/provider/Settings.jsx:168-184 | with both inputs filled, an entry with the clock's id is appended and both inputs cleared; otherwise nothing changes |
| SettingsForm.RemoveServiceArea | frontend/src/pages/dashboard/provider/Settings.jsx:186-191 | exactly the entries with that id are removed, every other entry stays as often as it occurred; nothing else changes |
| SettingsForm.RemoveServiceAreaKeepsOrder | frontend/src/pages/dashboard/provider/Settings.jsx:186-191 | the remaining areas keep their order |
| SettingsForm.RemoveUndoesAddServiceArea | frontend/src/pages/dashboard/provider/Settings.jsx:168-191 | removing an area just added, by its id, restores the list |
| SettingsForm.ApplyFetched | frontend/src/pages/dashboard/provider/Settings.jsx:74-83 | after a fetch the server's fields are shown and the transient inputs and password fields are `''` |
| SettingsForm.ApplyFetchedForgetsPrevious | frontend/src/pages/dashboard/provider/Settings.jsx:74-83 | the previous form does not influence the fetched one |
| SettingsForm.ApplyFetchedRoundTrip | frontend/src/pages/dashboard/provider/Settings.jsx:74-226 | what a fetch shows is sent back unchanged on submit |
| SettingsForm.Payload | frontend/src/pages/dashboard/provider/Settings.jsx:206-226 | the submitted body carries the form's lists, work hours and the three password fields |
| SettingsForm.PayloadIgnoresTransientInputs | frontend/src/pages/dashboard/provider/Settings.jsx:206-226 | the e-mail and area inputs are never submitted |
| SettingsForm.ClearPasswords | frontend/src/pages/dashboard/provider/Settings.jsx:235-240 | after a successful submit the three password fields are `''` and nothing else changes |
| Notifications.FormatTime | frontend/src/pages/dashboard/provider/Notifications.jsx:76-85 | `Just now` exactly under a minute; then the whole number of minutes, hours or days elapsed with its unit |
| Notifications.LabelIsNotJustNow | frontend/src/pages/dashboard/provider/Notifications.jsx:79-84 | a numeric label is never `Just now` |
| Notifications.MinutesLabelReadsBack | frontend/src/pages/dashboard/provider/Notifications.jsx:82 | a minutes label reads back as the number of whole minutes elapsed |
| Notifications.OfKind | frontend/src/pages/dashboard/provider/Notifications.jsx:104-111 | a category holds exactly the notifications of its type |
| Notifications.Categorise | frontend/src/pages/dashboard/provider/Notifications.jsx:104-111 | `all` is the fetched list and each tab holds the filter of it by its type |
| Notifications.CategoryIsOrderedSublist | frontend/src/pages/dashboard/provider/Notifications.jsx:104-111 | each category lists its notifications in the order of the full list |
| Notifications.CategoriesDisjoint | frontend/src/pages/dashboard/provider/Notifications.jsx:104-111 | no notification is under two categories |
| Notifications.CategoriesCoverKnownKinds | frontend/src/pages/dashboard/provider/Notifications.jsx:104-111 | when every type is one of the four, the categories together hold the whole list |
| Notifications.Badge | frontend/src/pages/dashboard/provider/Notifications.jsx:229-231 | the badge is zero exactly when every notification under the tab is read |
| Notifications.UnreadFilterCounts | frontend/src/pages/dashboard/provider/Notifications.jsx:229-231 | filtering for unread counts the unread notifications |
| Notifications.BadgeCountsUnread | frontend/src/pages/dashboard/provider/Notifications.jsx:229-231 | a tab's badge equals its number of unread notifications |
| Notifications.ToggleExpand | frontend/src/pages/dashboard/provider/Notifications.jsx:177-179 | clicking the open item collapses it; any other click opens that item alone |
| Notifications.ToggleExpandTwice | frontend/src/pages/dashboard/provider/Notifications.jsx:177-179 | clicking a closed item twice leaves nothing expanded |
| Notifications.GetActionButton | frontend/src/pages/dashboard/provider/Notifications.jsx:44-73 | unknown actions give `View` in teal; the button is red exactly for reject and cancel, gray exactly for receipt, contact and share, teal otherwise |
| Notifications.KnownActionLabel | frontend/src/pages/dashboard/provider/Notifications.jsx:44-73 | each of the twelve known actions is labelled with its name capitalised |
| ResetPasswordPage.FirstError | frontend/src/pages/ResetPassword.jsx:22-41 | a missing token gives the invalid-link error; otherwise a password under 8 UTF-16 units the length error; otherwise a mismatch the mismatch error; no error exactly when all pass |
| ResetPasswordPage.LengthCheckBounds | frontend/src/pages/ResetPassword.jsx:29-33 | eight characters always pass the length check and fewer than four never do |
| ResetPasswordPage.FailureText | frontend/src/pages/ResetPassword.jsx:59-64 | the server's message if present, else the error's message, else the default text |
| ResetPasswordPage.ClearMessage | frontend/src/pages/ResetPassword.jsx:19 | the message is cleared and nothing else changes |
| ResetPasswordPage.HandleSubmit | frontend/src/pages/ResetPassword.jsx:17-68 | a request with the password and token is sent exactly when no check fails; a failed check shows its error; after a request loading is off and the message is the success text or the server's, the client's or the default error text |
| ResetPasswordPage.SubmitDisabled | frontend/src/pages/ResetPassword.jsx:118 | the button is disabled exactly while loading or without a token |

## Left out

- The internals of bcrypt, SHA-256 and JWT signing (`JWT_SECRET`): opaque functions, with nothing assumed of them except where a precondition says so.
- Mail delivery through nodemailer: only its outcome (delivered or not) is a parameter, mapped to 200 or 500.
- `processImage` (sharp and the file system) and the `Promise.all` around it: the three image paths, or the error, are a parameter.
- `providerSignup`: it dispatches into another router.
- The route files, multer configuration and the rate limiter of `settingsController.js`: Express and middleware configuration.
- DashboardHome.jsx and Bookings.jsx: database queries, floating-point averages and static mock data, outside the business rules modelled here.
- JSX rendering, axios calls, local and session storage, `setTimeout` navigation, `FileReader` and console logging.
- The `Date` parsing behind `formatTime` and the ISO date in `getSettings`: the elapsed milliseconds are a parameter, and so is the date rendering, which may fail (a stored `dob` that is not a date) and then ends in the 500.
- Numbers are integers: fractions, NaN and the infinities are not modelled.
- Mongoose schemas, casting, strict mode, defaults and the pre-save password hook: documents are stored as the handlers build them, before any hook.
- Auth.AccountStore.ForgotPassword: e-mails are strings, so a request without one is not modelled. Mongoose reads `findOne({ email: undefined })` as `findOne({})`, so there `forgotPassword`, `login`, `adminLogin`, `adminSignup` and `signup` would act on an arbitrary stored document.
- Store exceptions other than the ones modelled as a `failure` parameter (a cast error on a bad id, a lost connection), and the auth handlers' 500 catch paths for such errors.
- Auth.AccountStore.ClientSignup: the password is a string, so a request without one, which makes `bcrypt.hash` throw into the 500 catch, is not modelled.
- Auth.AccountStore.AdminSignup: the same gap as `ClientSignup`; a missing password's 500 from `bcrypt.hash` is not modelled.
- Auth.AccountStore.Login: the password is a string, so a request without one, which makes `bcrypt.compare` throw into the 500 `Login failed`, is not modelled; `bcryptCompare` is total.
- Auth.AccountStore.AdminLogin: the same gap as `Login`; a missing password's 500 `Admin login failed` is not modelled.
- Auth.AccountStore.ResetPassword: token and password are strings, so a request missing either, which makes SHA-256 or `bcrypt.hash` throw into the 500, is not modelled.
- Auth.GenerateAuthToken: `jwt.sign` with `expiresIn: '1h'` is modelled by the claims it signs (`iat` in whole seconds, `exp` an hour later); the token's encoding and the secret are opaque.
- handleInputChange, handleImageChange and removeImage in Settings.jsx: they set one field from an input event or a file reader, outside the list and work-hours rules.
- markAsRead and the other network actions of Notifications.jsx, and the icon of each action button.
- SettingsForm.ApplyFetched: the form is typed, so a reply of another shape (missing fields, extra fields) is not modelled.
- ResetPasswordPage.HandleSubmit: the cleared message is only observable between the clear and the outcome. The model returns the final page.
- Concurrency between requests: each handler runs alone against the store.
