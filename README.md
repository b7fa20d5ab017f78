# Auth front end: validation, resend countdown and submit flows

This project models the client-side authentication screens of a React front end
for a loan manager. It covers registration, login, forgot-password and the two
one-time-passcode (OTP) screens. What is modelled:

- **The Yup schemas** (`Schemas`): the rule table of each form, and an
  interpreter `Validate` that maps a form's values to Formik's `errors`. Each
  invalid field maps to the set of messages of the rules it breaks. A valid
  field has no key. Formik hands Yup `undefined` for every empty field, and
  every Yup test except `.required` skips an absent value. So an empty field
  breaks only its required rule. The inline schema of the reset-OTP screen
  (`VerifyResetOtp.ResetSchema`) is modelled the same way.
- **The `useCountDown` hook** (`Countdown`): a class `CountDown` with the field
  `secondsLeft`. Wall-clock seconds are explicit `Tick` events. The
  specification function `AfterTicks` gives the counter after any number of ticks.
  A ghost tick counter ties the class to that function.
- **The resend prompt** (`CountdownDisplay`): the `m:ss` text and the rule that
  the "Resend OTP" button appears once the counter is not above 0. A parser for
  the text is proved to read back exactly the number of seconds shown.
- **Formik's form state** (`Formik.Form`): values, the errors of the last
  validation, touched fields, and the submit gate. Formik calls `onSubmit` only
  when the form validates, after it has touched every field.
- **The five screens** (`Login`, `Register`, `ForgotPassword`, `VerifyOtp`,
  `VerifyResetOtp`): each is a class with `loading`, `error` and its form.
  The async `onSubmit` is split at its `await`. `Submit` runs up to the request,
  and `Resolve(outcome)` runs once the request settles. The API call is an
  abstract `Outcome`: `Success(data)` or `Failure(message?)`. Effects are written
  to a `Browser` object: `localStorage`, the navigations requested, and the
  requests sent. The OTP screens also have the entry guard, the countdown
  (`Tick`), resend, and `Leave` (unmount).
- `Scenarios` drives the login screen and the OTP screen through whole
  flows, using only their contracts.

Yup's email pattern is a parameter `isEmail: string -> bool`, stored in each
form. Network outcomes, timer firings and user input are all parameters or
explicit events.

Where the design description and the code differ, the model follows the code:

- Register and the reset-OTP screen never clear `error` when a submit starts, so
  an old message can still be shown after a later success.
- The reset-OTP rule checks only the length. "12ab56" passes there but fails the
  registration OTP schema (`ResetOtpAcceptsLetters`), even though its message
  says "Must be 6 digits".
- A second submit is not blocked by the flow itself. It is blocked because the
  button is disabled (`loading`, and on the registration OTP screen also
  `!isValid`). The model's `Submit` does nothing while the button is disabled.
- Yup reports one message per field, and which one depends on Yup's ordering.
  The model keeps the whole set of failing messages. An empty field has only one
  message, its required one.
- The Verify button of the registration OTP screen starts enabled. Formik's
  `isValid` is true before the first validation, although the empty OTP fails
  the schema.

## Model

| member | source | states |
|---|---|---|
| Common.ErrorText | src/pages/auth/Login.jsx:37-40 | the server's message is shown when it is present and non-empty; otherwise the fixed fallback; so a non-empty fallback never yields an empty error |
| Common.EntryRedirect | src/pages/auth/VerifyOTP.jsx:16-20 | the OTP screen redirects exactly when there is no navigation state, no `email`, or an empty `email`, and then to the given predecessor |
| Common.EmailField | src/pages/auth/VerifyOTP.jsx:57 | `{ email }` keeps an `email` key exactly when the email is defined (JSON drops undefined) |
| Common.EmailOf | src/pages/auth/VerifyOTP.jsx:16 | `location.state?.email`: defined exactly when there is a state with an `email` key, and then it is that value |
| Common.HasEmail | src/pages/auth/VerifyOTP.jsx:20 | `!email` is false exactly when the state carries a non-empty `email` |
| Common.ResendRequest | src/pages/auth/VerifyOTP.jsx:57 | `API.post(path, { email })`: the body has an `email` key exactly when the email is defined, with that value, and nothing else |
| Common.Browser.constructor | src/pages/auth/Login.jsx:31-35 | the browser state starts with empty `localStorage`, no navigations and no requests |
| Schemas.Violations | src/schemas/schemas.js:3-29 | every reported message belongs to one of the field's rules |
| Schemas.Validate | src/schemas/schemas.js:3-29 | errors name only fields the schema constrains, and each error holds at least one message |
| Schemas.Fails | src/schemas/schemas.js:3-29 | an empty field (handed to Yup as `undefined`) breaks its `required` rule and no other; `required` fails exactly on the empty field |
| Schemas.IsValid | src/schemas/schemas.js:3-29 | `isValid` after validation holds exactly when no constrained field has an error |
| Schemas.ViolationsIff | src/schemas/schemas.js:3-29 | a message is reported exactly when some rule carrying it fails |
| Schemas.ValidateAt | src/schemas/schemas.js:3-29 | a field is in `errors` exactly when its own rules fail on its own text, and it then carries exactly those rules' messages |
| Schemas.ValidIff | src/schemas/schemas.js:3-29 | a form is valid exactly when no constrained field breaks a rule |
| Schemas.EmailViolations | src/schemas/schemas.js:5 | the email rule gives "Email is required" for "", "Invalid email" for a non-empty non-address, nothing otherwise |
| Schemas.EmailRule | src/schemas/schemas.js:5-20 | in the register, login and forgot-password schemas alike, email is rejected exactly when empty or not an address, with the single matching message |
| Schemas.RegisterName | src/schemas/schemas.js:4 | an empty name gets exactly "Name is required"; any non-empty name gets no error |
| Schemas.RegisterPassword | src/schemas/schemas.js:6-8 | a password is rejected exactly when shorter than 6; an empty one gets exactly "Password is required", a non-empty short one exactly the length message |
| Schemas.RegisterConfirmPassword | src/schemas/schemas.js:9-11 | the confirmation passes exactly when non-empty and equal to the password; an empty one gets exactly "Confirm Password is required", a non-empty mismatch exactly "Passwords must match" |
| Schemas.RegisterValid | src/schemas/schemas.js:3-12 | a registration form is valid exactly when name is non-empty, email is a non-empty address, password has 6 or more characters and the confirmation repeats it |
| Schemas.LoginPassword | src/schemas/schemas.js:16 | the login password is rejected exactly when empty, whatever its length otherwise |
| Schemas.LoginValid | src/schemas/schemas.js:14-17 | a login form is valid exactly when email is a non-empty address and the password is non-empty |
| Schemas.ForgotPasswordOnlyEmail | src/schemas/schemas.js:19-21 | no field but `email` can be reported, and the form is valid exactly when the email is |
| Schemas.OtpRule | src/schemas/schemas.js:24-29 | an OTP passes exactly when it has 6 characters, all decimal digits; an empty one gets exactly "OTP is required"; a failing non-empty one gets the length message exactly when it is not 6 long and the digits message exactly when it holds a non-digit |
| Formik.Form.constructor | src/pages/auth/Login.jsx:13-20 | a form starts with its initial values, no errors and nothing touched |
| Formik.Form.Change | src/pages/auth/Login.jsx:82 | a change updates one field and re-validates the whole form, leaving touched alone |
| Formik.Form.Blur | src/pages/auth/Login.jsx:83 | a blur touches the field and re-validates, leaving values alone |
| Formik.Form.SubmitAttempt | src/pages/auth/Login.jsx:72 | submitting touches every field, re-validates, and lets `onSubmit` run exactly when the form is valid |
| Formik.Form.HasNoErrors | src/pages/auth/VerifyOTP.jsx:95 | `formik.isValid` holds exactly when no field carries an error from the last validation |
| Formik.Form.TouchedError | src/pages/auth/Login.jsx:90-92 | an error is rendered exactly when the field has one and is touched |
| Formik.Form.ImmediateError | src/pages/auth/VerifyResetOTP.jsx:91-93 | an error is rendered exactly when the field has one |
| Countdown.AfterTicksStep | src/hooks/useCountdown.js:10-15 | one more tick takes exactly 1 off a counter above 0 and leaves one at or below 0 alone |
| Countdown.AfterTicksValue | src/hooks/useCountdown.js:10-18 | from `c >= 0`, after `k` ticks the counter is `c - k` until 0 and then 0: never negative |
| Countdown.AfterTicksMonotone | src/hooks/useCountdown.js:10-18 | between resets the counter never increases and never drops below `min(c, 0)` |
| Countdown.AfterTicksAdd | src/hooks/useCountdown.js:10-18 | `j` ticks then `k` ticks equal `j + k` ticks |
| Countdown.Expires | src/hooks/useCountdown.js:10-18 | from `n >= 0` the counter reads 0 after `n` ticks and stays 0; the 120-second start reads 1 after 119 ticks and 0 after 120 |
| Countdown.AfterTicks | src/hooks/useCountdown.js:10-15 | the counter after `k` timer callbacks never exceeds where it started, stays non-negative from a non-negative start, and drops below a positive start after any tick |
| Countdown.CountDown.constructor | src/hooks/useCountdown.js:3-4 | the counter starts at `initialSeconds`, mounted, with no ticks elapsed |
| Countdown.CountDown.Tick | src/hooks/useCountdown.js:10-15 | with a timer pending (mounted, counter above 0) a tick sets the counter to exactly one less; otherwise nothing changes |
| Countdown.CountDown.StartCountdown | src/hooks/useCountdown.js:6-8 | `startCountdown` restores `initialSeconds` from any value |
| Countdown.CountDown.Unmount | src/hooks/useCountdown.js:17 | unmounting clears the pending timer, so later ticks change nothing |
| CountdownDisplay.NatToString | src/pages/auth/VerifyOTP.jsx:103-104 | `String(n)` is one or more decimal digits, one digit exactly for `n < 10` |
| CountdownDisplay.PadStart2 | src/pages/auth/VerifyOTP.jsx:104 | `padStart(2, "0")` yields at least two characters: the text itself at the end, preceded only by zeros |
| CountdownDisplay.Format | src/pages/auth/VerifyOTP.jsx:103-104 | `m:ss` shows `c / 60`, a colon and two digits reading `c % 60`, and reads back as `c` |
| CountdownDisplay.Area | src/pages/auth/VerifyOTP.jsx:101-114 | the resend button is shown exactly when the counter is not above 0; otherwise the text reads back as the counter |
| CountdownDisplay.ParseNatToString | src/pages/auth/VerifyOTP.jsx:103 | the decimal text of `n` reads back as `n` |
| CountdownDisplay.PadTwoDigits | src/pages/auth/VerifyOTP.jsx:104 | seconds below 60, padded, are exactly two digits that read back as themselves |
| CountdownDisplay.FormatExamples | src/pages/auth/VerifyOTP.jsx:103-104 | 120 seconds are shown as "2:00" and 65 as "1:05" |
| Login.LoginRequest | src/pages/auth/Login.jsx:26-29 | the login body is exactly `{email, password}` from the form values |
| Login.StoredToken | src/pages/auth/Login.jsx:32 | the response token is stored; a response without one stores "undefined" |
| Login.RequestOnlyWhenValid | src/pages/auth/Login.jsx:19-29 | a login request goes out only with a non-empty address and a non-empty password |
| Login.LoginScreen.constructor | src/pages/auth/Login.jsx:8-20 | empty email and password, not loading, no error |
| Login.LoginScreen.FieldError | src/pages/auth/Login.jsx:90-92 | a field error is shown only when the field has one and is touched |
| Login.LoginScreen.Change | src/pages/auth/Login.jsx:81-84 | typing into the email and password inputs sets the field and re-validates, except while `loading` disables them, when the form is unchanged |
| Login.LoginScreen.Blur | src/pages/auth/Login.jsx:81-84 | leaving an input touches it and re-validates, except while `loading` disables it, when nothing changes |
| Login.LoginScreen.Submit | src/pages/auth/Login.jsx:20-29 | with the button disabled nothing happens; otherwise the form validates, and a valid form sets `loading`, clears the error and sends exactly the login body |
| Login.LoginScreen.Resolve | src/pages/auth/Login.jsx:31-43 | success stores the token under "token" and navigates to `/dashboard`; a success whose body is `null` throws at `data.token` and shows "Login failed. Please try again."; failure shows the server message or that fallback; neither stores nor navigates; `loading` ends false |
| Register.RegisterRequest | src/pages/auth/Register.jsx:24-28 | the body holds name, email and password, never `confirmPassword` |
| Register.SuccessNavigation | src/pages/auth/Register.jsx:30-32 | success goes to `/verify-otp` with state `{email}` |
| Register.HandsEmailToVerifyOtp | src/pages/auth/Register.jsx:30-32 | a validated registration hands over a non-empty email, so the OTP screen's guard does not redirect |
| Register.RegisterScreen.constructor | src/pages/auth/Register.jsx:8-20 | four empty fields, not loading, no error |
| Register.RegisterScreen.FieldError | src/pages/auth/Register.jsx:61-63 | a field error is shown only when the field has one and is touched |
| Register.RegisterScreen.Change | src/pages/auth/Register.jsx:56-58 | typing into the inputs sets the field and re-validates, except while `loading` disables them, when the form is unchanged |
| Register.RegisterScreen.Blur | src/pages/auth/Register.jsx:56-58 | leaving an input touches it and re-validates, except while `loading` disables it, when nothing changes |
| Register.RegisterScreen.Submit | src/pages/auth/Register.jsx:21-28 | with the button disabled nothing happens; a valid form sets `loading` and sends the body, and the old error is kept |
| Register.RegisterScreen.Resolve | src/pages/auth/Register.jsx:29-40 | success navigates with the submitted email and keeps any stale error; failure shows the server message or "Registration failed. Please try again."; `loading` ends false |
| ForgotPassword.ForgotRequest | src/pages/auth/ForgotPassword.jsx:24-26 | the body is exactly `{email}` |
| ForgotPassword.SuccessNavigation | src/pages/auth/ForgotPassword.jsx:29-34 | success goes to `/verify-reset-otp` with state exactly `{email, purpose: "password_reset"}` |
| ForgotPassword.HandsEmailToVerifyResetOtp | src/pages/auth/ForgotPassword.jsx:29-34 | a validated request hands over a non-empty email, so the reset screen's guard does not redirect |
| ForgotPassword.ForgotPasswordScreen.constructor | src/pages/auth/ForgotPassword.jsx:8-17 | an empty email, not loading, no error |
| ForgotPassword.ForgotPasswordScreen.FieldError | src/pages/auth/ForgotPassword.jsx:67-69 | the email error is shown only once the field is touched |
| ForgotPassword.ForgotPasswordScreen.Change | src/pages/auth/ForgotPassword.jsx:62-64 | typing into the email input sets the field and re-validates, except while `loading` disables them, when the form is unchanged |
| ForgotPassword.ForgotPasswordScreen.Blur | src/pages/auth/ForgotPassword.jsx:62-64 | leaving an input touches it and re-validates, except while `loading` disables it, when nothing changes |
| ForgotPassword.ForgotPasswordScreen.Submit | src/pages/auth/ForgotPassword.jsx:18-26 | with the button disabled nothing happens; a valid form sets `loading`, clears the error and sends `{email}` |
| ForgotPassword.ForgotPasswordScreen.Resolve | src/pages/auth/ForgotPassword.jsx:28-43 | success navigates with `{email, purpose}`; failure shows the server message or "Failed to send OTP. Please try again."; `loading` ends false |
| VerifyOtp.VerifyRequest | src/pages/auth/VerifyOTP.jsx:39-42 | the body is `{email, otp}`, without `email` when it is undefined |
| VerifyOtp.VerifyOtpScreen.constructor | src/pages/auth/VerifyOTP.jsx:8-20 | the countdown starts at 120 with nothing loading, sent or resent, Verify starts enabled though the empty OTP fails the schema, and the screen navigates to `/register` exactly when the state has no usable email |
| VerifyOtp.VerifyOtpScreen.ResendPrompt | src/pages/auth/VerifyOTP.jsx:100-115 | the resend button is offered exactly when the countdown is not above 0; otherwise the `m:ss` text of the countdown |
| VerifyOtp.VerifyOtpScreen.FieldError | src/pages/auth/VerifyOTP.jsx:90-92 | the OTP error is shown only once the field is touched |
| VerifyOtp.VerifyOtpScreen.SubmitDisabled | src/pages/auth/VerifyOTP.jsx:95 | Verify is enabled exactly when nothing is in flight and no field has an error |
| VerifyOtp.VerifyOtpScreen.Tick | src/pages/auth/VerifyOTP.jsx:22-28 | each tick while the countdown is above 0 takes exactly 1 off it |
| VerifyOtp.VerifyOtpScreen.Submit | src/pages/auth/VerifyOTP.jsx:35-42 | when `loading` or `!isValid` disables the button nothing happens; a valid form sets `loading`, clears the error and sends `{email, otp}` |
| VerifyOtp.VerifyOtpScreen.Resolve | src/pages/auth/VerifyOTP.jsx:43-51 | success navigates to `/login` with "Registration complete! Please login"; failure shows the server message or "Invalid OTP"; `loading` ends false |
| VerifyOtp.VerifyOtpScreen.ResendClick | src/pages/auth/VerifyOTP.jsx:55-57 | a click sends `{ email }` exactly when the button is rendered (countdown not above 0), once per click, also while an earlier resend is in flight |
| VerifyOtp.VerifyOtpScreen.ResendSettle | src/pages/auth/VerifyOTP.jsx:57-63 | a settled resend: success sets `resent` and the countdown to 120; failure sets "Failed to resend OTP. Please try again." and leaves the countdown unchanged |
| VerifyOtp.VerifyOtpScreen.ClearResent | src/pages/auth/VerifyOTP.jsx:60 | the confirmation flag goes back to false |
| VerifyOtp.VerifyOtpScreen.Leave | src/pages/auth/VerifyOTP.jsx:28 | unmounting clears the countdown timer |
| VerifyResetOtp.ResetOtpRule | src/pages/auth/VerifyResetOTP.jsx:32-34 | the reset OTP passes exactly when it has 6 characters of any kind; an empty one gets exactly "OTP is required", a non-empty wrong-length one exactly "Must be 6 digits" |
| VerifyResetOtp.ResetNewPasswordRule | src/pages/auth/VerifyResetOTP.jsx:35-37 | the new password passes exactly when it has 8 or more characters; an empty one gets exactly "Required", a non-empty short one exactly the length message |
| VerifyResetOtp.ResetOtpAcceptsLetters | src/pages/auth/VerifyResetOTP.jsx:32-34 | "12ab56" passes the reset OTP rule but fails the registration OTP schema |
| VerifyResetOtp.ResetRequest | src/pages/auth/VerifyResetOTP.jsx:43-47 | the body is exactly `{email, otp, newPassword}`, without `email` when it is undefined |
| VerifyResetOtp.VerifyResetOtpScreen.constructor | src/pages/auth/VerifyResetOTP.jsx:8-18 | the countdown starts at 120 with nothing loading or sent, and the screen navigates to `/forgot-password` exactly when the state has no usable email |
| VerifyResetOtp.VerifyResetOtpScreen.ResendPrompt | src/pages/auth/VerifyResetOTP.jsx:115-126 | the resend button is offered exactly when the countdown is not above 0 |
| VerifyResetOtp.VerifyResetOtpScreen.FieldError | src/pages/auth/VerifyResetOTP.jsx:91-93 | a field error is shown as soon as the field has one, touched or not |
| VerifyResetOtp.VerifyResetOtpScreen.SubmitDisabled | src/pages/auth/VerifyResetOTP.jsx:110 | the button is disabled exactly while a reset is in flight; errors play no part |
| VerifyResetOtp.VerifyResetOtpScreen.Tick | src/pages/auth/VerifyResetOTP.jsx:20-26 | each tick while the countdown is above 0 takes exactly 1 off it |
| VerifyResetOtp.VerifyResetOtpScreen.Submit | src/pages/auth/VerifyResetOTP.jsx:39-47 | with `loading` nothing happens; a valid form sets `loading` and sends `{email, otp, newPassword}`; the error is not cleared |
| VerifyResetOtp.VerifyResetOtpScreen.Resolve | src/pages/auth/VerifyResetOTP.jsx:49-59 | success navigates to `/login` with "Password reset successfully!"; failure shows the server message or "Invalid OTP or password requirements"; `loading` ends false |
| VerifyResetOtp.VerifyResetOtpScreen.ResendClick | src/pages/auth/VerifyResetOTP.jsx:63-65 | a click sends `{ email }` exactly when the button is rendered, once per click, also while an earlier resend is in flight |
| VerifyResetOtp.VerifyResetOtpScreen.ResendSettle | src/pages/auth/VerifyResetOTP.jsx:65-69 | a settled resend: success resets the countdown to 120; failure sets "Failed to resend OTP" and leaves the countdown unchanged |
| VerifyResetOtp.VerifyResetOtpScreen.Leave | src/pages/auth/VerifyResetOTP.jsx:26 | unmounting clears the countdown timer |

## Left out

- HTTP transport (`src/api/axiosConfig.js`): every `API.post` is a request appended to `Browser.sent`, and its result is an `Outcome` parameter. Network errors without a response are `Failure(None)`.
- Wall-clock timers: `setTimeout`/`setInterval` firings are `Tick` events. The 3-second clear of `resent` is the `ClearResent` event. Timing itself is not modelled.
- Yup's email regex: it is the parameter `isEmail`.
- Which of several failing messages Yup and Formik show for one field: the model keeps the set of all of them.
- When Formik validates is simplified: synchronously, on change, on blur and on submit. `isValid` is "the last validation found no error".
- String lengths count Dafny characters (Unicode scalar values). JavaScript counts UTF-16 code units, so the two differ for characters outside the Basic Multilingual Plane.
- Values of the response body are modelled as strings. A non-string `message` or `token` is not modelled. A `null` body is modelled (`Success(None)`). Only the login screen reads the body, and there it throws.
- Routing (`src/App.jsx`), `ProtectedRoute` and `Dashboard`: src/pages/routes/ProtectedRoute.jsx and src/pages/home/Dashboard.jsx are not part of this model.
- VerifyOtp.VerifyOtpScreen.Tick: this screen does not call `useCountDown`. It writes its own effect, a `setInterval` that is cleared and re-armed whenever the counter changes. That acts as one pending one-second timer, so the model reuses `CountDown(120)`. An interval that fires twice before React re-runs the effect is not modelled.
- VerifyResetOtp.VerifyResetOtpScreen.Tick: the same inline timer, modelled the same way.
- The "Remember me" checkbox, the Google/Facebook buttons and all markup and styling carry no logic.
- `purpose` in the reset-OTP screen is read but never used. Only its hand-over by the forgot-password screen is modelled.
- Unmounting: a navigation does not unmount a screen by itself in the model. `Leave` is the unmount event. React ignoring state updates after unmount is not modelled.
- VerifyOtp.VerifyOtpScreen.constructor: the guard effect runs again on every countdown change while the screen is mounted. The model records the redirect once, at mount.
- VerifyResetOtp.VerifyResetOtpScreen.constructor: the same. `navigate("/forgot-password")` runs again on every countdown change while the screen is mounted, and the model records it once, at mount.
- `localStorage.setItem` throwing (quota, privacy mode) is not modelled.
- Interleavings are sequences of events. A resend while a submit is in flight is allowed, and so are several resends in flight, settled in any order. Which settlement belongs to which request is not tracked: only their number is.
