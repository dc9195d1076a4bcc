# AutoAgent front end: decision rules and form state, in Dafny

AutoAgent is a React front end for a car-maintenance service. This project models the parts
of it that decide something rather than render something:

- the two popup pages that relay a calendar-authorization outcome to the window that opened them;
- the maintenance screens: which cars may get a new record, the submit checks and payloads, and the mapping from a stored record to an edit form;
- the authentication screens: the two-factor code input and its countdown, the password-reset checks, the sign-up terms guard and the route guard over the stored user;
- the shared HTTP client: the token interceptor and the requests each endpoint wrapper builds.

JavaScript values are modelled by `Js.Value` (undefined, null, booleans, numbers, NaN,
strings and JSON objects). JavaScript's truthiness, `||`, `===`, optional member access and
template interpolation are modelled on that type. `JSON.parse`, `JSON.stringify` and
`Number()` are parameters of the members that use them, and a failed parse is `None`.

Each asynchronous handler is split at its `await`:

- a `Begin…` method returns the request it would send;
- a `Finish…` method takes the call's outcome (`Api.Response`) and sets the state that follows.

Page state lives in classes whose methods state the whole new state. `localStorage` is the
class `Storage.LocalStorage`, and the popup window is `Popup.PopupWindow`. The window keeps
a list of the messages it has posted and of the closes it has scheduled.

Only the popup side of the calendar handshake exists in the code. No page opens the
popup, listens for its message or exchanges the code. The model therefore stops at the posted
message and at the endpoint strings of `src/api.js`.

The two callback pages differ, and the model keeps the difference:

- `GoogleAuthCallback.jsx` skips the post when there is no opener, because it uses `?.`.
- `AuthCallback.jsx` throws in that case and when its tokens are not valid JSON, and then it never schedules the window's close.

## Model

| member | source | states |
|---|---|---|
| Js.SplitHead | src/components/maintenance/UpdateMaintenance.jsx:27 | `s.split(sep)[0]` is a prefix of `s` without `sep`, followed in `s` by `sep` when shorter |
| Js.SplitHeadIsFirstSegment | src/components/maintenance/UpdateMaintenance.jsx:27 | any prefix without `sep` that is followed by `sep` is exactly the first segment |
| Js.SplitHeadWithoutSeparator | src/components/maintenance/UpdateMaintenance.jsx:27 | a string without the separator is its own first segment |
| Js.StripPrefixRoundTrip | src/api.js:38-39 | a path built as prefix + parameter gives the parameter back |
| Js.NatText | src/components/pages/TwoFactorAuthPage.jsx:129-130 | the decimal text of a number is non-empty digits, one digit exactly below 10 |
| Js.NatTextCanonical | src/components/pages/TwoFactorAuthPage.jsx:129 | the decimal text has no leading zero unless it is "0" |
| Js.CanonicalIsNatText | src/components/pages/TwoFactorAuthPage.jsx:129 | every digit string without a leading zero is the decimal text of its value, so the text shown for a number is unique |
| Js.NatTextRoundTrip | src/components/pages/TwoFactorAuthPage.jsx:129-130 | reading the decimal text of `n` gives back `n` |
| Storage.LocalStorage.SetItem | src/components/pages/SignUp.jsx:44-45 | only the given key changes, to the given value |
| Storage.LocalStorage.RemoveItem | src/components/PrivateRoute/PrivateRoute.jsx:25 | only the given key is removed |
| Popup.PopupWindow.PostToOpener | src/components/maintenance/GoogleAuthCallback.jsx:13-19 | one post is appended, with its message and target origin; no close is scheduled |
| Popup.PopupWindow.ScheduleClose | src/components/maintenance/GoogleAuthCallback.jsx:31 | one close is appended, with its delay; nothing is posted |
| Api.FailureText | src/components/pages/ResetPasswordPage.jsx:38-41 | a truthy server message is shown as sent, otherwise the screen's default text |
| Api.WithAuthorization | src/api.js:14-17 | a truthy token adds or overwrites `Authorization: Bearer <token>` and nothing else; no token leaves the headers as they were |
| Api.InterceptRequest | src/api.js:13-19 | the same config object comes back, its headers updated as above from the stored "token" |
| Api.AuthorizationCarriesToken | src/api.js:16 | the stored token is exactly what follows "Bearer " in the header |
| Api.WithAuthorizationIdempotent | src/api.js:15-17 | running the interceptor twice with the same token equals running it once |
| Api.Url | src/api.js:4-5 | the full URL is the base URL "http://localhost:5000/api/v1" followed by the path |
| Api.Login | src/api.js:32 | a POST of the credentials to "/login" |
| Api.Logout | src/api.js:33 | a POST to "/logout" without a body |
| Api.Signup | src/api.js:34 | a POST of the user data to "/signup"; the sign-up screen sends it from `SignUp.SignUpPage.BeginSubmit` |
| Api.Verify2FA | src/api.js:36 | a POST of the data to "/verify-2fa"; the 2FA screen sends it from `TwoFactorAuth.VerifyRequest` |
| Api.ForgotPassword | src/api.js:37 | a POST to "/forgot-password" whose body is `{email}` |
| Api.AddCar | src/api.js:44 | a POST of the car data to "/car/addCar" |
| Api.UpdateCar | src/api.js:45 | a PUT of the car data to "/car/updateCar/" + id |
| Api.DeleteCar | src/api.js:46 | a DELETE of "/car/deleteCar/" + id without a body |
| Api.GetAllCars | src/api.js:47 | a GET of "/car/getAllCars" |
| Api.GetOneCar | src/api.js:48 | a GET of "/car/getOneCar/" + id |
| Api.GetMaintenanceRecords | src/api.js:55-56 | a GET of "/maintenance/getMaintenanceRecords/" + car id |
| Api.DeleteMaintenance | src/api.js:59-60 | a DELETE of "/maintenance/deleteMaintenance/" + id |
| Api.AddToCalendar | src/api.js:61-62 | a POST without a body to "/maintenance/" + id + "/add-to-calendar" |
| Api.GetAuthUrl | src/api.js:67 | a GET of "/google-calendar/auth" |
| Api.AddEvent | src/api.js:69 | a POST of the event data to "/google-calendar/add-event" |
| Api.FindNearbyGarages | src/api.js:74 | a GET of "/google-maps/garages" with the parameters as the query, not as a body |
| Api.GetResponse | src/api.js:79 | a POST of the data to "/openai/response" |
| Api.ResetPasswordShape | src/api.js:38-39 | a PUT whose path ends in the token verbatim and whose body is `{password}` |
| Api.TokenExchangeVerbatim | src/api.js:68 | the code is exactly what follows `?code=`, unencoded, so distinct codes give distinct paths |
| Api.UpdateMaintenanceNamesRecord | src/api.js:57-58 | the record's identifier is recovered from the update path |
| Api.Request2FABody | src/api.js:35 | the 2FA request body is `{userId}` with exactly that key |
| Api.Request2FA | src/api.js:35 | a POST to "/request-2fa" whose body is `{userId}`; its shape is stated by `Api.Request2FABody` |
| Api.ResetPassword | src/api.js:38-39 | a PUT to "/reset-password/" + token with body `{password}`; stated by `Api.ResetPasswordShape` |
| Api.AddMaintenance | src/api.js:53-54 | a POST of the given data to "/maintenance/addMaintenance" |
| Api.UpdateMaintenance | src/api.js:57-58 | a PUT of the given data to "/maintenance/updateMaintenance/" + id; the id is recovered by `Api.UpdateMaintenanceNamesRecord` |
| Api.GetTokens | src/api.js:68 | a GET of "/google-calendar/auth/callback?code=" + code, unencoded; stated by `Api.TokenExchangeVerbatim` |
| GoogleAuthCallback.Outcome | src/components/maintenance/GoogleAuthCallback.jsx:8-28 | a message exists iff code or error is truthy; success with the code iff the code is truthy, otherwise an error carrying the error; the message has exactly the keys `type` and `code`, or `type` and `error` |
| GoogleAuthCallback.RunEffect | src/components/maintenance/GoogleAuthCallback.jsx:7-32 | the outcome is posted to the window's own origin only when an opener exists, and one 1000 ms close is scheduled on every path |
| GoogleAuthCallback.SuccessTakesPriority | src/components/maintenance/GoogleAuthCallback.jsx:11-20 | with a truthy code, the error parameter changes nothing and a success is relayed |
| GoogleAuthCallback.EmptyParametersRelayNothing | src/components/maintenance/GoogleAuthCallback.jsx:11-28 | missing or empty parameters relay no message |
| GoogleAuthCallback.StatusAgreesWithOutcome | src/components/maintenance/GoogleAuthCallback.jsx:39-41 | "Authorization successful!" shows exactly when a success message is relayed |
| GoogleAuthCallback.StatusText | src/components/maintenance/GoogleAuthCallback.jsx:39-41 | "Authorization successful!" iff the code is truthy, otherwise "Processing..." |
| GoogleAuthCallback.RunInFreshWindow | src/components/maintenance/GoogleAuthCallback.jsx:7-32 | at most one post, never to "*", present iff there is an opener and an outcome, carrying the code; exactly one close |
| AuthCallback.Effect | src/pages/AuthCallback.jsx:8-27 | every post targets "http://localhost:3000"; the effect completes iff neither parameter is truthy, or an opener exists and the tokens (if truthy) parse; success carries the parsed tokens, and an error alone carries the error; the message has exactly the keys `type` and `tokens`, or `type` and `error` |
| AuthCallback.RunEffect | src/pages/AuthCallback.jsx:7-31 | the window's posts follow the decision, and the 1000 ms close is scheduled only when the effect completes |
| AuthCallback.TokensTakePriority | src/pages/AuthCallback.jsx:11-19 | with truthy tokens the error parameter changes nothing |
| AuthCallback.ErrorAloneRelaysError | src/pages/AuthCallback.jsx:19-26 | an error alone, with an opener, relays one `GOOGLE_AUTH_ERROR` message carrying it |
| AuthCallback.SuccessHeadingWithoutMessage | src/pages/AuthCallback.jsx:11-39 | with tokens that are not JSON, the first render shows the success heading while nothing is relayed and the effect throws |
| AuthCallback.NoOpenerThrows | src/pages/AuthCallback.jsx:11-26 | without an opener, any outcome throws a TypeError and posts nothing |
| AuthCallback.Heading | src/pages/AuthCallback.jsx:37-39 | "Authorization Successful!" iff the tokens are truthy, otherwise "Authorization Failed" |
| AddMaintenance.IsOpenRecordFor | src/components/maintenance/AddMaintenance.jsx:43 | the record's `carId` is `===` the car's `_id` and its `dateCompleted` is falsy; objects are never `===` |
| AddMaintenance.HasScheduledMaintenance | src/components/maintenance/AddMaintenance.jsx:42-44 | true iff some record has this car's id and a falsy `dateCompleted` |
| AddMaintenance.AvailableCars | src/components/maintenance/AddMaintenance.jsx:41-46 | an order-preserving sub-list of the cars that keeps every copy of a car without an open record and drops every copy of a car with one |
| AddMaintenance.IrrelevantRecordKeepsCars | src/components/maintenance/AddMaintenance.jsx:43 | a completed record, or one for none of the cars, leaves the list unchanged |
| AddMaintenance.OpenRecordRemovesCar | src/components/maintenance/AddMaintenance.jsx:41-46 | an open record for a car removes it |
| AddMaintenance.NoRecordsKeepAllCars | src/components/maintenance/AddMaintenance.jsx:41-46 | with no records, every car is offered in order |
| AddMaintenance.ValidationError | src/components/maintenance/AddMaintenance.jsx:50-57 | "Please select a car" iff the car is falsy; "Please select a scheduled date" iff the car is set and the date is falsy; otherwise no error |
| AddMaintenance.MissingCarRejectedFirst | src/components/maintenance/AddMaintenance.jsx:50-53 | an empty car is rejected before the date is consulted |
| AddMaintenance.SubmissionPayload | src/components/maintenance/AddMaintenance.jsx:61-64 | the form's fields unchanged except `cost`: `Number(cost)` when truthy, else 0 |
| AddMaintenance.PayloadCostIsNumber | src/components/maintenance/AddMaintenance.jsx:63 | for a form of strings the cost sent is a number or NaN, and 0 for an empty cost |
| AddMaintenance.AddMaintenancePage.constructor | src/components/maintenance/AddMaintenance.jsx:9-19 | no cars, no records, not loading, all six fields empty |
| AddMaintenance.AddMaintenancePage.FetchData | src/components/maintenance/AddMaintenance.jsx:22-38 | cars are kept on arrival, records only after the cars; any failure shows "Failed to fetch data" |
| AddMaintenance.AddMaintenancePage.FetchDataAsWritten | src/components/maintenance/AddMaintenance.jsx:30-34 | the call to the undefined `getAllMaintenanceRecords` throws, so the records never change and the failure toast always shows |
| AddMaintenance.AddMaintenancePage.Options | src/components/maintenance/AddMaintenance.jsx:41-46 | the cars the select offers: an order-preserving sub-list of the page's cars, holding a car iff it has no open record among the page's records |
| AddMaintenance.AddMaintenancePage.HandleChange | src/components/maintenance/AddMaintenance.jsx:80-86 | only the named field changes |
| AddMaintenance.AddMaintenancePage.BeginSubmit | src/components/maintenance/AddMaintenance.jsx:48-67 | rejected with the validation message and loading untouched, or loading set and the add call made with the payload, remembering the submitted `carId` |
| AddMaintenance.AddMaintenancePage.FinishSubmit | src/components/maintenance/AddMaintenance.jsx:67-77 | success toast and navigation to the records of the car the submit started with, or the failure text; loading off either way |
| AddMaintenance.MountAsWritten | src/components/maintenance/AddMaintenance.jsx:22-46 | as written, every fetched car is offered and the failure toast shows |
| AddMaintenance.Mount | src/components/maintenance/AddMaintenance.jsx:22-46 | with both lists fetched, the cars without an open record are offered, in order and with every copy, and no toast shows |
| AddMaintenance.OpenRecordCounterexample | src/components/maintenance/AddMaintenance.jsx:30-46 | a car with one open record is offered with no records loaded and removed once the record is loaded |
| AddMaintenance.SubmitThenChangeCar | src/components/maintenance/AddMaintenance.jsx:48-69 | choosing another car while the call is pending does not move the navigation: a valid submit opens the records of the car it was started for |
| UpdateMaintenance.RecordToForm | src/components/maintenance/UpdateMaintenance.jsx:25-33 | fails iff the record is nullish, `dateScheduled` is not a string, or a truthy `dateCompleted` is not one; otherwise the five fields, with type verbatim, dates cut at "T", a falsy completion date, cost or notes as "" |
| UpdateMaintenance.DatesAreTruncatedPrefixes | src/components/maintenance/UpdateMaintenance.jsx:27 | the shown date is a prefix of the stored one without "T", and a date without "T" is shown unchanged |
| UpdateMaintenance.ZeroCostShownEmpty | src/components/maintenance/UpdateMaintenance.jsx:31 | a stored cost of 0 is shown as "" |
| UpdateMaintenance.UpdateMaintenancePage.constructor | src/components/maintenance/UpdateMaintenance.jsx:8-17 | not loading, all five fields empty |
| UpdateMaintenance.UpdateMaintenancePage.FetchMaintenanceRecord | src/components/maintenance/UpdateMaintenance.jsx:20-40 | a mappable `data.maintenance` fills the form; otherwise the toast and going back, form unchanged |
| UpdateMaintenance.UpdateMaintenancePage.FetchMaintenanceRecordAsWritten | src/components/maintenance/UpdateMaintenance.jsx:23-36 | the call to the undefined `getMaintenanceById` throws: the toast and going back, form unchanged |
| UpdateMaintenance.UpdateMaintenancePage.HandleChange | src/components/maintenance/UpdateMaintenance.jsx:58-64 | only the named field changes |
| UpdateMaintenance.UpdateMaintenancePage.BeginSubmit | src/components/maintenance/UpdateMaintenance.jsx:42-46 | loading on and the form sent unchanged to the record's update endpoint |
| UpdateMaintenance.UpdateMaintenancePage.FinishSubmit | src/components/maintenance/UpdateMaintenance.jsx:46-55 | success toast and going back, or the failure text; loading off |
| UpdateMaintenance.MountAsWritten | src/components/maintenance/UpdateMaintenance.jsx:20-40 | as written, the form stays empty, the toast shows and the browser goes back for any record |
| UpdateMaintenance.Mount | src/components/maintenance/UpdateMaintenance.jsx:20-40 | with the record delivered, the screen goes back iff the mapping fails, and otherwise shows the mapped form |
| UpdateMaintenance.PrefillCounterexample | src/components/maintenance/UpdateMaintenance.jsx:23-27 | a record dated "2024" maps to a form showing that date, not the empty initial one |
| MaintenanceForm.DateField | src/components/maintenance/MaintenanceForm.jsx:19-20 | nothing becomes "", a string becomes exactly its text before the first "T" (all of it without one), and any other value throws |
| MaintenanceForm.DateFieldCutsAtFirstT | src/components/maintenance/MaintenanceForm.jsx:19 | "2024-01-01T10:00" is shown as "2024-01-01" |
| MaintenanceForm.Prefill | src/components/maintenance/MaintenanceForm.jsx:17-23 | succeeds iff both dates are nullish or strings; then the five fields, with type verbatim, dates cut, and a falsy cost or notes as "" |
| MaintenanceForm.Payload | src/components/maintenance/MaintenanceForm.jsx:34-42 | the form's fields with `carId` set from the prop |
| MaintenanceForm.SaveRequest | src/components/maintenance/MaintenanceForm.jsx:33-43 | a PUT naming `maintenance._id` iff a record is given, otherwise the add call; the same payload and no query parameters either way |
| MaintenanceForm.MaintenanceFormState.constructor | src/components/maintenance/MaintenanceForm.jsx:5-25 | the first render has empty fields; the prefill fills them when a record is given, and a throwing prefill is recorded as such |
| MaintenanceForm.MaintenanceFormState.HandleChange | src/components/maintenance/MaintenanceForm.jsx:54-59 | only the named field changes |
| MaintenanceForm.MaintenanceFormState.BeginSubmit | src/components/maintenance/MaintenanceForm.jsx:27-43 | loading on, the error cleared, and the save request |
| MaintenanceForm.MaintenanceFormState.FinishSubmit | src/components/maintenance/MaintenanceForm.jsx:44-51 | `onSuccess` iff the call succeeds, otherwise the failure text; loading off |
| MaintenanceForm.NoRecordMeansAdd | src/components/maintenance/MaintenanceForm.jsx:38-43 | without a record the submit is the add call with the payload |
| TwoFactorAuth.KeepDigits | src/components/pages/TwoFactorAuthPage.jsx:80 | only digits remain, in their order, each digit as often as in the input |
| TwoFactorAuth.KeepDigitsOfDigits | src/components/pages/TwoFactorAuthPage.jsx:80 | a digit string is unchanged |
| TwoFactorAuth.KeepDigitsIdempotent | src/components/pages/TwoFactorAuthPage.jsx:80 | sanitising twice equals sanitising once |
| TwoFactorAuth.Tick | src/components/pages/TwoFactorAuthPage.jsx:23 | one callback lowers the countdown by exactly one unless it is 0, which stays 0 |
| TwoFactorAuth.TicksClampAtZero | src/components/pages/TwoFactorAuthPage.jsx:22-24 | after `n` ticks the countdown is `c - n`, or 0 once `n >= c` |
| TwoFactorAuth.PadStart | src/components/pages/TwoFactorAuthPage.jsx:130 | the text is padded on the left with zeros to the width, and kept when already at least that wide |
| TwoFactorAuth.Clock | src/components/pages/TwoFactorAuthPage.jsx:129-130 | the text is minutes, ":", then two digits; the minutes are exactly the decimal text of `c / 60`, without a leading zero, and the two digits read as `c % 60` |
| TwoFactorAuth.PaddedSeconds | src/components/pages/TwoFactorAuthPage.jsx:130 | seconds below 60 show as two digits of the same value |
| TwoFactorAuth.ClockRoundTrip | src/components/pages/TwoFactorAuthPage.jsx:129-130 | the m:ss text reads back to the countdown it shows |
| TwoFactorAuth.SubmitEnabled | src/components/pages/TwoFactorAuthPage.jsx:147 | verify is enabled iff nothing is loading and the code has exactly 4 characters; its consequences are stated by the two lemmas below |
| TwoFactorAuth.FourDigitCodeEnablesSubmit | src/components/pages/TwoFactorAuthPage.jsx:147 | a four-digit code enables verify iff nothing is loading |
| TwoFactorAuth.OtherDigitCountsDisableSubmit | src/components/pages/TwoFactorAuthPage.jsx:147 | any other number of digits keeps verify disabled |
| TwoFactorAuth.ResendShown | src/components/pages/TwoFactorAuthPage.jsx:132 | the resend button exists iff the countdown is 0; when that happens is stated by the lemma below |
| TwoFactorAuth.ResendShownAfterFullCountdown | src/components/pages/TwoFactorAuthPage.jsx:132 | from 120, the resend button shows iff at least 120 ticks have passed |
| TwoFactorAuth.VerifyRequest | src/components/pages/TwoFactorAuthPage.jsx:60-63 | a POST to "/verify-2fa" whose body is exactly `{userId, code}`, with the screen's `userId` and the typed code |
| TwoFactorAuth.ResendRequestAsWritten | src/components/pages/TwoFactorAuthPage.jsx:34 | the resend as written: the 2FA endpoint with `userId` undefined |
| TwoFactorAuth.ResendAsWrittenOmitsUserId | src/components/pages/TwoFactorAuthPage.jsx:34 | as written, the resend body's `userId` is undefined although the screen knows the user |
| TwoFactorAuth.ResendRequest | src/components/pages/TwoFactorAuthPage.jsx:34 | the intended resend is a POST to the 2FA endpoint, without query parameters, whose body is exactly `{userId}` with the screen's `userId` |
| TwoFactorAuth.ResendRepeatsLoginRequest | src/components/pages/LoginPage.jsx:19 | for the user data the login screen passes, the resend equals the login's 2FA request |
| TwoFactorAuth.TwoFactorPage.constructor | src/components/pages/TwoFactorAuthPage.jsx:11-27 | countdown 120 and empty code; without user data, navigation to "/login" and no timer |
| TwoFactorAuth.TwoFactorPage.TickSecond | src/components/pages/TwoFactorAuthPage.jsx:22-24 | one tick while the timer runs, keeping the countdown within 0..120 |
| TwoFactorAuth.TwoFactorPage.HandleCodeChange | src/components/pages/TwoFactorAuthPage.jsx:78-82 | the code becomes the sanitised input, and the rest is unchanged |
| TwoFactorAuth.TwoFactorPage.BeginSubmit | src/components/pages/TwoFactorAuthPage.jsx:43-63 | no `userId`: "User data is missing", loading off, no call; otherwise the verify call with loading on |
| TwoFactorAuth.TwoFactorPage.FinishSubmit | src/components/pages/TwoFactorAuthPage.jsx:59-75 | a success with `data` stores "user" and opens "/dashboard"; a failure, or a success without `data`, sets the server text or "Verification failed"; loading off |
| TwoFactorAuth.TwoFactorPage.BeginResend | src/components/pages/TwoFactorAuthPage.jsx:29-34 | resending on, error cleared, and the corrected resend request |
| TwoFactorAuth.TwoFactorPage.FinishResend | src/components/pages/TwoFactorAuthPage.jsx:34-40 | the countdown resets to 120 only on success, with "Failed to resend code" otherwise; resending off |
| ResetPassword.CheckPasswords | src/components/pages/ResetPasswordPage.jsx:18-26 | a mismatch first, then the length error for matching passwords shorter than 6; no error iff matching and at least 6 long |
| ResetPassword.MismatchWinsOverLength | src/components/pages/ResetPasswordPage.jsx:18-21 | short mismatched passwords get the mismatch message |
| ResetPassword.ResetPasswordPage.constructor | src/components/pages/ResetPasswordPage.jsx:7-12 | empty fields and error, no success, not loading, no redirect |
| ResetPassword.ResetPasswordPage.SetPassword | src/components/pages/ResetPasswordPage.jsx:99 | only the password changes |
| ResetPassword.ResetPasswordPage.SetConfirmPassword | src/components/pages/ResetPasswordPage.jsx:110 | only the confirmation changes |
| ResetPassword.ResetPasswordPage.BeginSubmit | src/components/pages/ResetPasswordPage.jsx:14-31 | the error is cleared; a failed check sets its message with loading untouched, otherwise loading on and the reset call with the token and password |
| ResetPassword.ResetPasswordPage.FinishSubmit | src/components/pages/ResetPasswordPage.jsx:30-44 | success plus a 3000 ms redirect to "/login", or the failure text; loading off |
| ResetPassword.SubmitOnce | src/components/pages/ResetPasswordPage.jsx:14-45 | the call is made iff the passwords match and are at least 6 long; success iff it is made and succeeds; loading ends off |
| PrivateRoute.Gate | src/components/PrivateRoute/PrivateRoute.jsx:8-27 | children render iff the stored string is truthy and parses to a truthy value with a truthy `id`; the user is removed iff the parse fails, and then the route redirects |
| PrivateRoute.Render | src/components/PrivateRoute/PrivateRoute.jsx:8-27 | the verdict above, with "user" removed from storage only when the decision says so |
| PrivateRoute.OnlyUserKeyRemoved | src/components/PrivateRoute/PrivateRoute.jsx:25 | every key other than "user" keeps its value |
| PrivateRoute.RemovalSettles | src/components/PrivateRoute/PrivateRoute.jsx:10-26 | after a removal, the next render redirects without removing anything |
| PrivateRoute.NonObjectsRedirect | src/components/PrivateRoute/PrivateRoute.jsx:16-20 | a parsed value that is not an object redirects and keeps storage |
| SignUp.SignupBody | src/components/pages/SignUp.jsx:37-41 | exactly `username`, `email` and `password`, taken from the form |
| SignUp.SignUpPage.constructor | src/components/pages/SignUp.jsx:7-14 | the three fields empty, no error, not loading, terms unchecked |
| SignUp.SignUpPage.HandleChange | src/components/pages/SignUp.jsx:16-22 | only the named field changes, and any shown error is cleared |
| SignUp.SignUpPage.SetTermsAccepted | src/components/pages/SignUp.jsx:144 | only the checkbox changes |
| SignUp.SignUpPage.BeginSubmit | src/components/pages/SignUp.jsx:24-41 | the error is cleared; unaccepted terms set the terms error with no call and loading untouched, otherwise loading on and the sign-up call |
| SignUp.SignUpPage.FinishSubmit | src/components/pages/SignUp.jsx:43-61 | a success with a user stores the token and the user, empties the fields and opens "/dashboard"; anything else sets the server text or "Failed to create account"; loading off |
| SignUp.SubmitWithoutTerms | src/components/pages/SignUp.jsx:24-32 | a fresh page's submit without the terms makes no call, shows the terms error and never loads |

## Left out

- Rendering: markup, styling, icons and the pure display files are not modelled. Those are the dashboard, chat, navigation, car pages, maintenance list and manager, login, forgot-password and `App.js` routing.
- The popup opening, the message listener, origin checks, the code exchange and calendar events are not modelled, because no file of the front end contains them.
- `GarageSearch` is not modelled: it calls `googleMapsAPI.getPlacePhoto`, which `src/api.js` does not define, and it depends on network results.
- The network, `JSON.parse`, `JSON.stringify` and `Number()` are inputs or parameters of the members that use them. The fetch members (`AddMaintenance.Mount`, `UpdateMaintenance.Mount`) take the fetched lists or record as inputs, because the endpoints they stand for are not defined in `src/api.js`.
- Wall-clock time is not modelled: `setTimeout` and `setInterval` are recorded as scheduled delays or as explicit tick methods.
- An exception that escapes an effect (`AuthCallback`'s post, `MaintenanceForm`'s prefill) unmounts the whole tree in React, since `src/App.js` has no error boundary. The model records only that the effect threw (`Threw`, `prefillThrew`) and describes the first render.
- React's batching of state updates, effect scheduling, re-renders and StrictMode double effects are not modelled. Each handler's updates are applied in program order.
- Console logging is not modelled.
- Js.TemplateText: a number is interpolated through its integer part only, and integers from 10^21 up are written in full rather than in exponent form, because JavaScript's number-to-text rules are not modelled. An array, represented as an object, is written "[object Object]" rather than its comma-joined elements. The screens interpolate only string identifiers.
- Js.NumberOf: `Number()` of a text such as "Infinity" gives `NaN` rather than an infinity, because `Js.Value` has no infinities.
- String lengths are counted in Dafny characters, not UTF-16 code units; this matters for the length-6 password check with characters outside the Basic Multilingual Plane.
- The `maxLength="4"` attribute of the code input is not modelled: the code is whatever the sanitiser keeps.
- GoogleAuthCallback.RunInFreshWindow: requires the window's origin not to be "*", which a real `window.location.origin` never is.
- Axios's header merging, `withCredentials` and the response interceptor's logging are not modelled. A request is only its verb, path, body and query parameters, and its URL is the base URL followed by the path.

## Findings

| source | as written | input that shows it | evidently intended | confidence | as-written member | corrected member |
|---|---|---|---|---|---|---|
| src/components/pages/TwoFactorAuthPage.jsx:34 | `authAPI.request2FA()` is called with no argument, so the resend body is `{userId: undefined}` | any resend, e.g. `userData = {userId: "u1", email: "a@b"}` | resend for the screen's user, as the login screen does at src/components/pages/LoginPage.jsx:19 | high; not executed | TwoFactorAuth.ResendAsWrittenOmitsUserId | TwoFactorAuth.ResendRequest |
| src/components/maintenance/AddMaintenance.jsx:31 | `maintenanceAPI.getAllMaintenanceRecords` is not defined in src/api.js, so the call throws and the records stay empty | one car `{_id: "c1"}` with an open record `{carId: "c1", dateCompleted: ""}` on the server | cars with an open record are not offered | high; not executed | AddMaintenance.MountAsWritten | AddMaintenance.Mount |
| src/components/maintenance/UpdateMaintenance.jsx:23 | `maintenanceAPI.getMaintenanceById` is not defined in src/api.js, so the call throws and the screen goes back | any record, e.g. `{dateScheduled: "2024"}` | the fetched record fills the form | high; not executed | UpdateMaintenance.MountAsWritten | UpdateMaintenance.Mount |

The counterexamples for the last two rows are `AddMaintenance.OpenRecordCounterexample` and
`UpdateMaintenance.PrefillCounterexample`. The rest of the model uses the corrected
definitions:

- `TwoFactorPage.BeginResend` sends `ResendRequest`.
- The two pages' `FetchData` and `FetchMaintenanceRecord` take the fetched data as input.
