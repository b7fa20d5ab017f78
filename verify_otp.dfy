/** The registration OTP screen: entry guard, two-minute resend countdown,
    OTP submit and resend. */
module VerifyOtp {
  import opened Common
  import opened Schemas
  import opened Formik
  import opened Countdown
  import opened CountdownDisplay

  const InvalidOtp: string := "Invalid OTP"
  const ResendFailed: string := "Failed to resend OTP. Please try again."

  /** Where a successful verification goes: the login screen with a flash message. */
  const Verified: Navigation := Navigation("/login", Some(map["success" := "Registration complete! Please login"]))

  /** The verification request: the OTP, and the email when there is one. */
  function VerifyRequest(email: Option<string>, values: Values): (r: Request)
    ensures r.path == "/auth/verify-otp"
    ensures r.body.Keys == {"otp"} + (if email.Some? then {"email"} else {})
    ensures r.body["otp"] == Get(values, "otp") && (email.Some? ==> r.body["email"] == email.value)
  {
    Request("/auth/verify-otp", EmailField(email)["otp" := Get(values, "otp")])
  }

  const ResendPath: string := "/auth/resend-otp"

  class VerifyOtpScreen {
    /** `location.state?.email`. */
    const email: Option<string>
    const form: Form
    const browser: Browser
    const timer: CountDown
    var loading: bool
    var error: string
    var resent: bool
    /** Resend requests sent and not yet settled. */
    var pendingResends: nat

    ghost predicate Valid()
      reads this, timer
    {
      form.schema == OtpSchema && timer.initialSeconds == Ceiling && timer.Valid()
    }

    /** Mounting the screen: state set up, the countdown at 120, and the first
        run of the effect, which redirects to registration when there is no email. */
    constructor (state: Option<map<string, string>>, browser: Browser, isEmail: string -> bool)
      modifies browser
      ensures Valid() && email == EmailOf(state) && this.browser == browser
      ensures fresh(form) && fresh(timer) && form.isEmail == isEmail
      ensures form.values == map["otp" := ""] && form.errors == map[] && form.touched == {}
      ensures timer.secondsLeft == Ceiling && timer.mounted && timer.elapsed == 0
      ensures !loading && error == "" && !resent && pendingResends == 0
      // Formik's `isValid` starts true, so Verify is enabled though "" fails the schema.
      ensures !SubmitDisabled() && !IsValid(OtpSchema, form.values, isEmail)
      ensures browser.sent == old(browser.sent) && browser.localStorage == old(browser.localStorage)
      ensures browser.navigations == old(browser.navigations) +
        match EntryRedirect(state, "/register") case Some(p) => [Navigation(p, None)] case None => []
    {
      this.email := EmailOf(state);
      this.browser := browser;
      form := new Form(OtpSchema, isEmail, map["otp" := ""]);
      timer := new CountDown(Ceiling);
      loading := false;
      error := "";
      resent := false;
      pendingResends := 0;
      new;
      OtpRule(form.values, isEmail);
      if !HasEmail(state) {
        browser.navigations := browser.navigations + [Navigation("/register", None)];
      }
    }

    /** `disabled={loading || !formik.isValid}`: Verify is enabled exactly
        when nothing is in flight and no field has an error. */
    predicate SubmitDisabled()
      reads this, form
      ensures !SubmitDisabled() <==> !loading && forall f :: f !in form.errors
    {
      loading || !form.HasNoErrors()
    }

    /** The resend area: the countdown text while it runs, the button after. */
    function ResendPrompt(): (r: ResendArea)
      reads this, timer
      ensures r.ResendButton? <==> timer.secondsLeft <= 0
      ensures r.CountdownText? ==> ParseCountdown(r.text) == Some(timer.secondsLeft)
    {
      Area(timer.secondsLeft)
    }

    /** The error shown under the OTP input: only once it is touched. */
    function FieldError(field: string): (r: Option<set<string>>)
      reads this, form
      ensures r.Some? <==> field in form.errors && field in form.touched
    {
      form.TouchedError(field)
    }

    /** One second passes. */
    method Tick()
      requires Valid()
      modifies timer
      ensures Valid() && timer.mounted == old(timer.mounted)
      ensures old(timer.TimerPending()) ==> timer.secondsLeft == old(timer.secondsLeft) - 1
      ensures !old(timer.TimerPending()) ==> timer.secondsLeft == old(timer.secondsLeft)
    {
      timer.Tick();
    }

    /** Submitting up to the `await`. A disabled button does nothing. Otherwise
        Formik validates; a valid form sets `loading`, clears the error and
        sends the OTP. */
    method Submit()
      requires Valid()
      modifies this, form, browser
      ensures Valid() && form.values == old(form.values) && resent == old(resent)
      ensures pendingResends == old(pendingResends)
      ensures browser.navigations == old(browser.navigations) && browser.localStorage == old(browser.localStorage)
      ensures old(SubmitDisabled()) ==>
        && loading == old(loading) && error == old(error) && browser.sent == old(browser.sent)
        && form.errors == old(form.errors) && form.touched == old(form.touched)
      ensures !old(SubmitDisabled()) ==>
        && form.touched == old(form.touched) + form.values.Keys
        && form.errors == Validate(OtpSchema, form.values, form.isEmail)
      ensures !old(SubmitDisabled()) && form.HasNoErrors() ==>
        && loading && error == ""
        && browser.sent == old(browser.sent) + [VerifyRequest(email, form.values)]
      ensures !old(SubmitDisabled()) && !form.HasNoErrors() ==>
        !loading && error == old(error) && browser.sent == old(browser.sent)
    {
      if loading || !form.HasNoErrors() {
        return;
      }
      var ok := form.SubmitAttempt();
      if ok {
        loading := true;
        error := "";
        browser.sent := browser.sent + [VerifyRequest(email, form.values)];
      }
    }

    /** The verification settles. Success goes to login with the flash
        message; failure shows the server's message or "Invalid OTP".
        `loading` is reset either way. */
    method Resolve(outcome: Outcome)
      requires Valid() && loading
      modifies this, browser
      ensures Valid() && !loading && resent == old(resent) && pendingResends == old(pendingResends)
      ensures browser.sent == old(browser.sent) && browser.localStorage == old(browser.localStorage)
      ensures outcome.Success? ==>
        browser.navigations == old(browser.navigations) + [Verified] && error == old(error)
      ensures outcome.Failure? ==>
        error == ErrorText(outcome.message, InvalidOtp) && browser.navigations == old(browser.navigations)
    {
      match outcome {
        case Success(_) =>
          browser.navigations := browser.navigations + [Verified];
        case Failure(message) =>
          error := ErrorText(message, InvalidOtp);
      }
      loading := false;
    }

    /** Clicking "Resend OTP". The button is rendered only while the
        countdown is not above 0, and it stays rendered while the request is in
        flight, so each click sends one more request. */
    method ResendClick()
      requires Valid()
      modifies this, browser
      ensures Valid() && loading == old(loading) && error == old(error) && resent == old(resent)
      ensures browser.navigations == old(browser.navigations) && browser.localStorage == old(browser.localStorage)
      ensures timer.secondsLeft > 0 ==>
        browser.sent == old(browser.sent) && pendingResends == old(pendingResends)
      ensures timer.secondsLeft <= 0 ==>
        && browser.sent == old(browser.sent) + [ResendRequest(ResendPath, email)]
        && pendingResends == old(pendingResends) + 1
    {
      if timer.secondsLeft > 0 {
        return;
      }
      browser.sent := browser.sent + [ResendRequest(ResendPath, email)];
      pendingResends := pendingResends + 1;
    }

    /** A resend request settles. Success raises `resent` and puts the
        countdown back to 120; failure shows a fixed message and leaves the
        countdown where it was. */
    method ResendSettle(outcome: Outcome)
      requires Valid() && pendingResends > 0
      modifies this, timer
      ensures Valid() && loading == old(loading) && timer.mounted == old(timer.mounted)
      ensures pendingResends == old(pendingResends) - 1
      ensures outcome.Success? ==> resent && timer.secondsLeft == Ceiling && error == old(error)
      ensures outcome.Failure? ==>
        error == ResendFailed && resent == old(resent) && timer.secondsLeft == old(timer.secondsLeft)
    {
      pendingResends := pendingResends - 1;
      if outcome.Success? {
        resent := true;
        timer.StartCountdown();
      } else {
        error := ResendFailed;
      }
    }

    /** Three seconds after a successful resend the confirmation goes away. */
    method ClearResent()
      modifies this
      ensures !resent && loading == old(loading) && error == old(error) && pendingResends == old(pendingResends)
    {
      resent := false;
    }

    /** The screen unmounts (after any navigation away): the countdown's timer
        is cleared. */
    method Leave()
      requires Valid()
      modifies timer
      ensures Valid() && !timer.mounted && timer.secondsLeft == old(timer.secondsLeft)
    {
      timer.Unmount();
    }
  }
}
