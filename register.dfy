/** The registration screen: its form, and the submit flow that sends the new
    account and goes on to email verification carrying the email. */
module Register {
  import opened Common
  import opened Schemas
  import opened Formik

  const RegistrationFailed: string := "Registration failed. Please try again."

  /** The request `onSubmit` sends: name, email and password, never the confirmation. */
  function RegisterRequest(values: Values): (r: Request)
    ensures r.path == "/api/auth/register"
    ensures r.body.Keys == {"name", "email", "password"} && "confirmPassword" !in r.body
    ensures forall f :: f in r.body ==> r.body[f] == Get(values, f)
  {
    Request("/api/auth/register",
      map["name" := Get(values, "name"), "email" := Get(values, "email"), "password" := Get(values, "password")])
  }

  /** Where a successful registration goes: the OTP screen, with the email in
      the navigation state. */
  function SuccessNavigation(values: Values): (n: Navigation)
    ensures n.path == "/verify-otp" && n.state == Some(map["email" := Get(values, "email")])
    ensures EmailOf(n.state) == Some(Get(values, "email"))
  {
    Navigation("/verify-otp", Some(map["email" := Get(values, "email")]))
  }

  /** A registration that passed validation hands the OTP screen a non-empty
      email, so its entry guard lets the visitor stay. */
  lemma HandsEmailToVerifyOtp(values: Values, isEmail: string -> bool)
    requires IsValid(RegisterSchema, values, isEmail)
    ensures HasEmail(SuccessNavigation(values).state)
    ensures EntryRedirect(SuccessNavigation(values).state, "/register") == None
  {
    RegisterValid(values, isEmail);
  }

  class RegisterScreen {
    const form: Form
    const browser: Browser
    var loading: bool
    var error: string
    /** The values `onSubmit` was called with, still in scope after the `await`. */
    var submitted: Values

    ghost predicate Valid()
    {
      form.schema == RegisterSchema
    }

    constructor (browser: Browser, isEmail: string -> bool)
      ensures Valid() && this.browser == browser && fresh(form) && form.isEmail == isEmail
      ensures form.values == map["name" := "", "email" := "", "password" := "", "confirmPassword" := ""]
      ensures form.errors == map[] && form.touched == {}
      ensures !loading && error == ""
    {
      this.browser := browser;
      form := new Form(RegisterSchema, isEmail,
        map["name" := "", "email" := "", "password" := "", "confirmPassword" := ""]);
      loading := false;
      error := "";
      submitted := map[];
    }

    /** Typing into one of the four inputs. They are `disabled={loading}`, so
        while a request is in flight the form does not change. */
    method Change(field: string, text: string)
      requires Valid()
      modifies form
      ensures Valid()
      ensures old(loading) ==>
        form.values == old(form.values) && form.errors == old(form.errors) && form.touched == old(form.touched)
      ensures !old(loading) ==>
        && form.values == old(form.values)[field := text] && form.touched == old(form.touched)
        && form.errors == Validate(RegisterSchema, form.values, form.isEmail)
    {
      if !loading {
        form.Change(field, text);
      }
    }

    /** Leaving one of the four inputs. A disabled input cannot be focused, so
        while a request is in flight nothing becomes touched. */
    method Blur(field: string)
      requires Valid()
      modifies form
      ensures Valid()
      ensures old(loading) ==>
        form.values == old(form.values) && form.errors == old(form.errors) && form.touched == old(form.touched)
      ensures !old(loading) ==>
        && form.values == old(form.values) && form.touched == old(form.touched) + {field}
        && form.errors == Validate(RegisterSchema, form.values, form.isEmail)
    {
      if !loading {
        form.Blur(field);
      }
    }

    /** The error shown under an input: only for a touched field that has one. */
    function FieldError(field: string): (r: Option<set<string>>)
      reads this, form
      ensures r.Some? <==> field in form.errors && field in form.touched
    {
      form.TouchedError(field)
    }

    /** Submitting up to the `await`. A disabled button does nothing. Otherwise
        Formik validates; a valid form sets `loading` and sends the request.
        Unlike login, the previous error is NOT cleared. */
    method Submit()
      requires Valid()
      modifies this, form, browser
      ensures Valid() && form.values == old(form.values) && error == old(error)
      ensures browser.navigations == old(browser.navigations) && browser.localStorage == old(browser.localStorage)
      ensures old(loading) ==>
        && loading && browser.sent == old(browser.sent) && submitted == old(submitted)
        && form.errors == old(form.errors) && form.touched == old(form.touched)
      ensures !old(loading) ==>
        && form.touched == old(form.touched) + form.values.Keys
        && form.errors == Validate(RegisterSchema, form.values, form.isEmail)
      ensures !old(loading) && form.HasNoErrors() ==>
        && loading && submitted == form.values
        && browser.sent == old(browser.sent) + [RegisterRequest(form.values)]
      ensures !old(loading) && !form.HasNoErrors() ==>
        !loading && browser.sent == old(browser.sent) && submitted == old(submitted)
    {
      if loading {
        return;
      }
      var ok := form.SubmitAttempt();
      if ok {
        loading := true;
        submitted := form.values;
        browser.sent := browser.sent + [RegisterRequest(form.values)];
      }
    }

    /** The request settles. Success goes to the OTP screen with the submitted
        email; failure shows the server's message or the fallback. `loading`
        is reset either way. */
    method Resolve(outcome: Outcome)
      requires Valid() && loading
      modifies this, browser
      ensures Valid() && !loading && submitted == old(submitted)
      ensures browser.sent == old(browser.sent) && browser.localStorage == old(browser.localStorage)
      ensures outcome.Success? ==>
        && browser.navigations == old(browser.navigations) + [SuccessNavigation(submitted)]
        && error == old(error)
      ensures outcome.Failure? ==>
        && error == ErrorText(outcome.message, RegistrationFailed)
        && browser.navigations == old(browser.navigations)
    {
      match outcome {
        case Success(_) =>
          browser.navigations := browser.navigations + [SuccessNavigation(submitted)];
        case Failure(message) =>
          error := ErrorText(message, RegistrationFailed);
      }
      loading := false;
    }
  }
}
