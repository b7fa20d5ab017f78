/** The forgot-password screen: it asks the server to email a reset OTP and
    goes on to the reset screen carrying the email and the purpose. */
module ForgotPassword {
  import opened Common
  import opened Schemas
  import opened Formik

  const SendFailed: string := "Failed to send OTP. Please try again."

  /** The request `onSubmit` sends: the email and nothing else. */
  function ForgotRequest(values: Values): (r: Request)
    ensures r.path == "/auth/forgot-password"
    ensures r.body.Keys == {"email"} && r.body["email"] == Get(values, "email")
  {
    Request("/auth/forgot-password", map["email" := Get(values, "email")])
  }

  /** Where a successful request goes: the reset OTP screen, carrying the
      email and the purpose "password_reset". */
  function SuccessNavigation(values: Values): (n: Navigation)
    ensures n.path == "/verify-reset-otp"
    ensures n.state.Some? && n.state.value.Keys == {"email", "purpose"}
    ensures EmailOf(n.state) == Some(Get(values, "email")) && n.state.value["purpose"] == "password_reset"
  {
    Navigation("/verify-reset-otp", Some(map["email" := Get(values, "email"), "purpose" := "password_reset"]))
  }

  /** A request that passed validation hands the reset screen a non-empty
      email, so its entry guard lets the visitor stay. */
  lemma HandsEmailToVerifyResetOtp(values: Values, isEmail: string -> bool)
    requires IsValid(ForgotPasswordSchema, values, isEmail)
    ensures HasEmail(SuccessNavigation(values).state)
    ensures EntryRedirect(SuccessNavigation(values).state, "/forgot-password") == None
  {
    ForgotPasswordOnlyEmail(values, isEmail);
  }

  class ForgotPasswordScreen {
    const form: Form
    const browser: Browser
    var loading: bool
    var error: string
    /** The values `onSubmit` was called with, still in scope after the `await`. */
    var submitted: Values

    /** The form runs the forgot-password schema, and a request in flight was
        started with the error cleared. */
    ghost predicate Valid()
      reads this
    {
      form.schema == ForgotPasswordSchema && (loading ==> error == "")
    }

    constructor (browser: Browser, isEmail: string -> bool)
      ensures Valid() && this.browser == browser && fresh(form) && form.isEmail == isEmail
      ensures form.values == map["email" := ""] && form.errors == map[] && form.touched == {}
      ensures !loading && error == ""
    {
      this.browser := browser;
      form := new Form(ForgotPasswordSchema, isEmail, map["email" := ""]);
      loading := false;
      error := "";
      submitted := map[];
    }

    /** Typing into the email input. It is `disabled={loading}`, so
        while a request is in flight the form does not change. */
    method Change(field: string, text: string)
      requires Valid()
      modifies form
      ensures Valid()
      ensures old(loading) ==>
        form.values == old(form.values) && form.errors == old(form.errors) && form.touched == old(form.touched)
      ensures !old(loading) ==>
        && form.values == old(form.values)[field := text] && form.touched == old(form.touched)
        && form.errors == Validate(ForgotPasswordSchema, form.values, form.isEmail)
    {
      if !loading {
        form.Change(field, text);
      }
    }

    /** Leaving the email input. A disabled input cannot be focused, so
        while a request is in flight nothing becomes touched. */
    method Blur(field: string)
      requires Valid()
      modifies form
      ensures Valid()
      ensures old(loading) ==>
        form.values == old(form.values) && form.errors == old(form.errors) && form.touched == old(form.touched)
      ensures !old(loading) ==>
        && form.values == old(form.values) && form.touched == old(form.touched) + {field}
        && form.errors == Validate(ForgotPasswordSchema, form.values, form.isEmail)
    {
      if !loading {
        form.Blur(field);
      }
    }

    /** The error shown under the email input: only once it is touched. */
    function FieldError(field: string): (r: Option<set<string>>)
      reads this, form
      ensures r.Some? <==> field in form.errors && field in form.touched
    {
      form.TouchedError(field)
    }

    /** Submitting up to the `await`. A disabled button does nothing. Otherwise
        Formik validates; a valid form sets `loading`, clears the error and
        sends the request. */
    method Submit()
      requires Valid()
      modifies this, form, browser
      ensures Valid() && form.values == old(form.values)
      ensures browser.navigations == old(browser.navigations) && browser.localStorage == old(browser.localStorage)
      ensures old(loading) ==>
        && loading && error == old(error) && browser.sent == old(browser.sent) && submitted == old(submitted)
        && form.errors == old(form.errors) && form.touched == old(form.touched)
      ensures !old(loading) ==>
        && form.touched == old(form.touched) + form.values.Keys
        && form.errors == Validate(ForgotPasswordSchema, form.values, form.isEmail)
      ensures !old(loading) && form.HasNoErrors() ==>
        && loading && error == "" && submitted == form.values
        && browser.sent == old(browser.sent) + [ForgotRequest(form.values)]
      ensures !old(loading) && !form.HasNoErrors() ==>
        !loading && error == old(error) && browser.sent == old(browser.sent) && submitted == old(submitted)
    {
      if loading {
        return;
      }
      var ok := form.SubmitAttempt();
      if ok {
        loading := true;
        error := "";
        submitted := form.values;
        browser.sent := browser.sent + [ForgotRequest(form.values)];
      }
    }

    /** The request settles. Success goes to the reset OTP screen; failure
        shows the server's message or the fallback. `loading` is reset either way. */
    method Resolve(outcome: Outcome)
      requires Valid() && loading
      modifies this, browser
      ensures Valid() && !loading && submitted == old(submitted)
      ensures browser.sent == old(browser.sent) && browser.localStorage == old(browser.localStorage)
      ensures outcome.Success? ==>
        && browser.navigations == old(browser.navigations) + [SuccessNavigation(submitted)]
        && error == ""
      ensures outcome.Failure? ==>
        && error == ErrorText(outcome.message, SendFailed)
        && browser.navigations == old(browser.navigations)
    {
      match outcome {
        case Success(_) =>
          browser.navigations := browser.navigations + [SuccessNavigation(submitted)];
        case Failure(message) =>
          error := ErrorText(message, SendFailed);
      }
      loading := false;
    }
  }
}
