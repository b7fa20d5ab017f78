/** The login screen: its form, and the submit flow that stores the session
    token and goes to the dashboard, or shows why it could not. */
module Login {
  import opened Common
  import opened Schemas
  import opened Formik

  const LoginFailed: string := "Login failed. Please try again."

  /** The request `onSubmit` sends: the form's email and password and nothing else. */
  function LoginRequest(values: Values): (r: Request)
    ensures r.path == "/api/auth/login"
    ensures r.body.Keys == {"email", "password"}
    ensures r.body["email"] == Get(values, "email") && r.body["password"] == Get(values, "password")
  {
    Request("/api/auth/login", map["email" := Get(values, "email"), "password" := Get(values, "password")])
  }

  /** What `localStorage.setItem('token', data.token)` stores: the response's
      token, or the text "undefined" when the response carries none. */
  function StoredToken(data: map<string, string>): (token: string)
    ensures "token" in data ==> token == data["token"]
    ensures "token" !in data ==> token == "undefined"
  {
    if "token" in data then data["token"] else "undefined"
  }

  /** A login request goes out only for a non-empty email address and a
      non-empty password, whatever the password's length. */
  lemma RequestOnlyWhenValid(values: Values, isEmail: string -> bool)
    requires IsValid(LoginSchema, values, isEmail)
    ensures var body := LoginRequest(values).body;
      body["email"] != "" && isEmail(body["email"]) && body["password"] != ""
  {
    LoginValid(values, isEmail);
  }

  class LoginScreen {
    const form: Form
    const browser: Browser
    var loading: bool
    var error: string

    /** The form runs the login schema, and a request in flight was started
        with the error cleared. */
    ghost predicate Valid()
      reads this
    {
      form.schema == LoginSchema && (loading ==> error == "")
    }

    constructor (browser: Browser, isEmail: string -> bool)
      ensures Valid() && this.browser == browser && fresh(form) && form.isEmail == isEmail
      ensures form.values == map["email" := "", "password" := ""]
      ensures form.errors == map[] && form.touched == {}
      ensures !loading && error == ""
    {
      this.browser := browser;
      form := new Form(LoginSchema, isEmail, map["email" := "", "password" := ""]);
      loading := false;
      error := "";
    }

    /** Typing into one of the email and password inputs. They are `disabled={loading}`, so
        while a request is in flight the form does not change. */
    method Change(field: string, text: string)
      requires Valid()
      modifies form
      ensures Valid()
      ensures old(loading) ==>
        form.values == old(form.values) && form.errors == old(form.errors) && form.touched == old(form.touched)
      ensures !old(loading) ==>
        && form.values == old(form.values)[field := text] && form.touched == old(form.touched)
        && form.errors == Validate(LoginSchema, form.values, form.isEmail)
    {
      if !loading {
        form.Change(field, text);
      }
    }

    /** Leaving one of the email and password inputs. A disabled input cannot be focused, so
        while a request is in flight nothing becomes touched. */
    method Blur(field: string)
      requires Valid()
      modifies form
      ensures Valid()
      ensures old(loading) ==>
        form.values == old(form.values) && form.errors == old(form.errors) && form.touched == old(form.touched)
      ensures !old(loading) ==>
        && form.values == old(form.values) && form.touched == old(form.touched) + {field}
        && form.errors == Validate(LoginSchema, form.values, form.isEmail)
    {
      if !loading {
        form.Blur(field);
      }
    }

    /** The error shown under an input: only for a touched field that has one. */
    function FieldError(field: string): (r: Option<set<string>>)
      reads this, form
      ensures r.Some? <==> field in form.errors && field in form.touched
    {
      form.TouchedError(field)
    }

    /** Submitting the form up to the `await`. A disabled button does nothing.
        Otherwise Formik validates; a valid form sets `loading`, clears the
        error and sends the login request. */
    method Submit()
      requires Valid()
      modifies this, form, browser
      ensures Valid() && form.values == old(form.values)
      ensures browser.localStorage == old(browser.localStorage) && browser.navigations == old(browser.navigations)
      ensures old(loading) ==>
        && loading && error == old(error) && browser.sent == old(browser.sent)
        && form.errors == old(form.errors) && form.touched == old(form.touched)
      ensures !old(loading) ==>
        && form.touched == old(form.touched) + form.values.Keys
        && form.errors == Validate(LoginSchema, form.values, form.isEmail)
      ensures !old(loading) && form.HasNoErrors() ==>
        && loading && error == ""
        && browser.sent == old(browser.sent) + [LoginRequest(form.values)]
      ensures !old(loading) && !form.HasNoErrors() ==>
        !loading && error == old(error) && browser.sent == old(browser.sent)
    {
      if loading {
        return;
      }
      var ok := form.SubmitAttempt();
      if ok {
        loading := true;
        error := "";
        browser.sent := browser.sent + [LoginRequest(form.values)];
      }
    }

    /** The request settles. Success stores the token under "token" and goes
        to the dashboard; failure shows the server's message or the fallback,
        stores nothing and stays. A success whose body is `null` makes
        `data.token` throw inside the `try`, and the catch shows the fallback,
        since that error has no response. `loading` is reset either way. */
    method Resolve(outcome: Outcome)
      requires Valid() && loading
      modifies this, browser
      ensures Valid() && !loading && browser.sent == old(browser.sent)
      ensures outcome.Success? && outcome.data.Some? ==>
        && browser.localStorage == old(browser.localStorage)["token" := StoredToken(outcome.data.value)]
        && browser.navigations == old(browser.navigations) + [Navigation("/dashboard", None)]
        && error == ""
      ensures outcome == Success(None) ==>
        && error == LoginFailed
        && browser.localStorage == old(browser.localStorage)
        && browser.navigations == old(browser.navigations)
      ensures outcome.Failure? ==>
        && error == ErrorText(outcome.message, LoginFailed)
        && browser.localStorage == old(browser.localStorage)
        && browser.navigations == old(browser.navigations)
    {
      match outcome {
        case Success(Some(data)) =>
          browser.localStorage := browser.localStorage["token" := StoredToken(data)];
          browser.navigations := browser.navigations + [Navigation("/dashboard", None)];
        case Success(None) =>
          error := ErrorText(None, LoginFailed);
        case Failure(message) =>
          error := ErrorText(message, LoginFailed);
      }
      loading := false;
    }
  }
}
