/** The password-reset OTP screen: entry guard, its own OTP and new-password
    rules, two-minute resend countdown, reset submit and resend. */
module VerifyResetOtp {
  import opened Common
  import opened Schemas
  import opened Formik
  import opened Countdown
  import opened CountdownDisplay

  const ResetFailed: string := "Invalid OTP or password requirements"
  const ResendFailed: string := "Failed to resend OTP"

  /** Where a successful reset goes: the login screen with a flash message. */
  const PasswordReset: Navigation := Navigation("/login", Some(map["success" := "Password reset successfully!"]))

  /** The schema written inline in this screen. Its OTP rule checks the
      length only, not that the characters are digits. */
  const ResetSchema: Schema := [
    FieldRules("otp", [Rule(Required, "OTP is required"), Rule(ExactLength(6), "Must be 6 digits")]),
    FieldRules("newPassword", [Rule(MinLength(8), "Password must be at least 8 characters"),
                               Rule(Required, "Required")])
  ]

  /** An OTP passes here exactly when it has six characters, of any kind. */
  lemma ResetOtpRule(values: Values, isEmail: string -> bool)
    ensures var errors := Validate(ResetSchema, values, isEmail); var o := Get(values, "otp");
      && ("otp" !in errors <==> |o| == 6)
      && (o == "" ==> errors["otp"] == {"OTP is required"})
      && (o != "" && |o| != 6 ==> errors["otp"] == {"Must be 6 digits"})
  {
    var rules := ResetSchema[0].rules;
    RulesOfAt(ResetSchema, 0);
    ViolationsOfTwo(rules[0], rules[1], Get(values, "otp"), values, isEmail);
    ValidateAt(ResetSchema, values, isEmail, "otp");
  }

  /** The new password passes exactly when it has at least eight characters. */
  lemma ResetNewPasswordRule(values: Values, isEmail: string -> bool)
    ensures var errors := Validate(ResetSchema, values, isEmail); var p := Get(values, "newPassword");
      && ("newPassword" !in errors <==> |p| >= 8)
      && (0 < |p| < 8 ==> errors["newPassword"] == {"Password must be at least 8 characters"})
      && (p == "" ==> errors["newPassword"] == {"Required"})
  {
    var rules := ResetSchema[1].rules;
    RulesOfAt(ResetSchema, 1);
    ViolationsOfTwo(rules[0], rules[1], Get(values, "newPassword"), values, isEmail);
    ValidateAt(ResetSchema, values, isEmail, "newPassword");
  }

  /** "12ab56" passes this screen's OTP rule but not the registration OTP schema. */
  lemma ResetOtpAcceptsLetters(isEmail: string -> bool)
    ensures "otp" !in Validate(ResetSchema, map["otp" := "12ab56"], isEmail)
    ensures "otp" in Validate(OtpSchema, map["otp" := "12ab56"], isEmail)
  {
    var values := map["otp" := "12ab56"];
    ResetOtpRule(values, isEmail);
    OtpRule(values, isEmail);
    assert !IsDigit("12ab56"[2]);
  }

  /** The reset request: the email when there is one, the OTP and the new password. */
  function ResetRequest(email: Option<string>, values: Values): (r: Request)
    ensures r.path == "/auth/reset-password"
    ensures r.body.Keys == {"otp", "newPassword"} + (if email.Some? then {"email"} else {})
    ensures r.body["otp"] == Get(values, "otp") && r.body["newPassword"] == Get(values, "newPassword")
    ensures email.Some? ==> r.body["email"] == email.value
  {
    Request("/auth/reset-password",
      EmailField(email)["otp" := Get(values, "otp")]["newPassword" := Get(values, "newPassword")])
  }

  const ResendPath: string := "/auth/resend-password-otp"

  class VerifyResetOtpScreen {
    /** `(location.state || {}).email`; the `purpose` read beside it is unused. */
    const email: Option<string>
    const form: Form
    const browser: Browser
    const timer: CountDown
    var loading: bool
    var error: string
    /** Resend requests sent and not yet settled. */
    var pendingResends: nat

    ghost predicate Valid()
      reads this, timer
    {
      form.schema == ResetSchema && timer.initialSeconds == Ceiling && timer.Valid()
    }

    /** Mounting the screen: state set up, the countdown at 120, and the first
        run of the effect, which redirects to forgot-password when there is no email. */
    constructor (state: Option<map<string, string>>, browser: Browser, isEmail: string -> bool)
      modifies browser
      ensures Valid() && email == EmailOf(state) && this.browser == browser
      ensures fresh(form) && fresh(timer) && form.isEmail == isEmail
      ensures form.values == map["otp" := "", "newPassword" := ""] && form.errors == map[] && form.touched == {}
      ensures timer.secondsLeft == Ceiling && timer.mounted && timer.elapsed == 0
      ensures !loading && error == "" && pendingResends == 0
      ensures browser.sent == old(browser.sent) && browser.localStorage == old(browser.localStorage)
      ensures browser.navigations == old(browser.navigations) +
        match EntryRedirect(state, "/forgot-password") case Some(p) => [Navigation(p, None)] case None => []
    {
      this.email := EmailOf(state);
      this.browser := browser;
      form := new Form(ResetSchema, isEmail, map["otp" := "", "newPassword" := ""]);
      timer := new CountDown(Ceiling);
      loading := false;
      error := "";
      pendingResends := 0;
      new;
      if !HasEmail(state) {
        browser.navigations := browser.navigations + [Navigation("/forgot-password", None)];
      }
    }

    /** `disabled={loading}`: unlike the registration OTP screen, errors play
        no part; the button is disabled exactly while a reset is in flight. */
    predicate SubmitDisabled()
      reads this
      ensures SubmitDisabled() <==> loading
    {
      loading
    }

    /** The resend area: the countdown text while it runs, the button after. */
    function ResendPrompt(): (r: ResendArea)
      reads this, timer
      ensures r.ResendButton? <==> timer.secondsLeft <= 0
      ensures r.CountdownText? ==> ParseCountdown(r.text) == Some(timer.secondsLeft)
    {
      Area(timer.secondsLeft)
    }

    /** The error shown under an input: as soon as the field has one, touched or not. */
    function FieldError(field: string): (r: Option<set<string>>)
      reads this, form
      ensures r.Some? <==> field in form.errors
    {
      form.ImmediateError(field)
    }

    /** One second passes. */
    method Tick()
      requires Valid()
      modifies timer
      ensures Valid() && timer.mounted == old(timer.mounted)
      ensures old(timer.TimerPending()) ==> timer.secondsLeft == old(timer.secondsLeft) - 1
      ensures !old(timer.TimerPending()) ==> timer.secondsLeft == old(timer.secondsLeft)
    {
      timer.Tick();
    }

    /** Submitting up to the `await`. A disabled button does nothing. Otherwise
        Formik validates; a valid form sets `loading` and sends the reset.
        The previous error is not cleared. */
    method Submit()
      requires Valid()
      modifies this, form, browser
      ensures Valid() && form.values == old(form.values) && error == old(error)
      ensures pendingResends == old(pendingResends)
      ensures browser.navigations == old(browser.navigations) && browser.localStorage == old(browser.localStorage)
      ensures old(loading) ==>
        && loading && browser.sent == old(browser.sent)
        && form.errors == old(form.errors) && form.touched == old(form.touched)
      ensures !old(loading) ==>
        && form.touched == old(form.touched) + form.values.Keys
        && form.errors == Validate(ResetSchema, form.values, form.isEmail)
      ensures !old(loading) && form.HasNoErrors() ==>
        loading && browser.sent == old(browser.sent) + [ResetRequest(email, form.values)]
      ensures !old(loading) && !form.HasNoErrors() ==>
        !loading && browser.sent == old(browser.sent)
    {
      if loading {
        return;
      }
      var ok := form.SubmitAttempt();
      if ok {
        loading := true;
        browser.sent := browser.sent + [ResetRequest(email, form.values)];
      }
    }

    /** The reset settles. Success goes to login with the flash message;
        failure shows the server's message or the fallback. `loading` is
        reset either way. */
    method Resolve(outcome: Outcome)
      requires Valid() && loading
      modifies this, browser
      ensures Valid() && !loading && pendingResends == old(pendingResends)
      ensures browser.sent == old(browser.sent) && browser.localStorage == old(browser.localStorage)
      ensures outcome.Success? ==>
        browser.navigations == old(browser.navigations) + [PasswordReset] && error == old(error)
      ensures outcome.Failure? ==>
        error == ErrorText(outcome.message, ResetFailed) && browser.navigations == old(browser.navigations)
    {
      match outcome {
        case Success(_) =>
          browser.navigations := browser.navigations + [PasswordReset];
        case Failure(message) =>
          error := ErrorText(message, ResetFailed);
      }
      loading := false;
    }

    /** Clicking "Resend OTP". The button is rendered only while the
        countdown is not above 0, and it stays rendered while the request is in
        flight, so each click sends one more request. */
    method ResendClick()
      requires Valid()
      modifies this, browser
      ensures Valid() && loading == old(loading) && error == old(error)
      ensures browser.navigations == old(browser.navigations) && browser.localStorage == old(browser.localStorage)
      ensures timer.secondsLeft > 0 ==>
        browser.sent == old(browser.sent) && pendingResends == old(pendingResends)
      ensures timer.secondsLeft <= 0 ==>
        && browser.sent == old(browser.sent) + [ResendRequest(ResendPath, email)]
        && pendingResends == old(pendingResends) + 1
    {
      if timer.secondsLeft > 0 {
        return;
      }
      browser.sent := browser.sent + [ResendRequest(ResendPath, email)];
      pendingResends := pendingResends + 1;
    }

    /** A resend request settles. Success puts the countdown back to 120;
        failure shows a fixed message and leaves the countdown alone. */
    method ResendSettle(outcome: Outcome)
      requires Valid() && pendingResends > 0
      modifies this, timer
      ensures Valid() && loading == old(loading) && timer.mounted == old(timer.mounted)
      ensures pendingResends == old(pendingResends) - 1
      ensures outcome.Success? ==> timer.secondsLeft == Ceiling && error == old(error)
      ensures outcome.Failure? ==> error == ResendFailed && timer.secondsLeft == old(timer.secondsLeft)
    {
      pendingResends := pendingResends - 1;
      if outcome.Success? {
        timer.StartCountdown();
      } else {
        error := ResendFailed;
      }
    }

    /** The screen unmounts: the countdown's timer is cleared. */
    method Leave()
      requires Valid()
      modifies timer
      ensures Valid() && !timer.mounted && timer.secondsLeft == old(timer.secondsLeft)
    {
      timer.Unmount();
    }
  }
}
