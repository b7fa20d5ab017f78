/** Client code that drives the screens through whole flows, using nothing but
    their contracts: what a user sees from a login, from a failed login, and
    on the OTP screen up to the resend button. */
module Scenarios {
  import opened Common
  import opened Schemas
  import Login
  import VerifyOtp
  import CountdownDisplay

  /** A login answered with token "abc123" stores it and opens the dashboard. */
  method LoginStoresToken(isEmail: string -> bool)
    requires isEmail("user@example.com")
  {
    var browser := new Browser();
    var screen := new Login.LoginScreen(browser, isEmail);
    screen.Change("email", "user@example.com");
    screen.Change("password", "x");
    LoginValid(screen.form.values, isEmail);
    screen.Submit();
    assert screen.loading;
    assert browser.sent == [Login.LoginRequest(map["email" := "user@example.com", "password" := "x"])];
    screen.Resolve(Success(Some(map["token" := "abc123"])));
    assert browser.localStorage == map["token" := "abc123"];
    assert browser.navigations == [Navigation("/dashboard", None)];
    assert !screen.loading;
  }

  /** While a login is in flight the inputs are disabled: typing changes nothing. */
  method LoginInputsLocked(screen: Login.LoginScreen)
    requires screen.Valid() && screen.loading
    modifies screen.form
  {
    var typed := screen.form.values;
    screen.Change("password", "other");
    screen.Blur("email");
    assert screen.form.values == typed;
  }

  /** A login rejected with "Invalid credentials" shows exactly that, stays on
      the screen, stores nothing and keeps what the user typed. */
  method LoginShowsServerMessage(isEmail: string -> bool)
    requires isEmail("user@example.com")
  {
    var browser := new Browser();
    var screen := new Login.LoginScreen(browser, isEmail);
    screen.Change("email", "user@example.com");
    screen.Change("password", "secret");
    var typed := screen.form.values;
    LoginValid(typed, isEmail);
    screen.Submit();
    screen.Resolve(Failure(Some("Invalid credentials")));
    assert screen.error == "Invalid credentials";
    assert browser.navigations == [] && browser.localStorage == map[];
    assert screen.form.values == typed;
    screen.Submit();
    assert screen.error == "";
  }

  /** The OTP screen reached with an email stays, counts down from "2:00" and
      offers the resend button after 120 ticks. */
  method CountdownRunsOut(isEmail: string -> bool)
  {
    var browser := new Browser();
    var otp := new VerifyOtp.VerifyOtpScreen(Some(map["email" := "new@example.com"]), browser, isEmail);
    assert browser.navigations == [];
    CountdownDisplay.FormatExamples();
    assert otp.ResendPrompt() == CountdownDisplay.CountdownText("2:00");
    var i := 0;
    while i < 120
      invariant 0 <= i <= 120 && otp.Valid() && otp.timer.mounted
      invariant otp.timer.secondsLeft == 120 - i
    {
      otp.Tick();
      i := i + 1;
    }
    assert otp.ResendPrompt() == CountdownDisplay.ResendButton;
  }

  /** Once the countdown has run out, the button stays while the first
      request is in flight: two clicks send two requests. After one succeeds
      the countdown is back at "2:00" and a click sends nothing. */
  method ResendTwice(otp: VerifyOtp.VerifyOtpScreen)
    requires otp.Valid() && otp.timer.secondsLeft == 0
    modifies otp, otp.timer, otp.browser
  {
    var before := otp.browser.sent;
    otp.ResendClick();
    otp.ResendClick();
    assert otp.browser.sent == before + [ResendRequest(VerifyOtp.ResendPath, otp.email)] +
      [ResendRequest(VerifyOtp.ResendPath, otp.email)];
    otp.ResendSettle(Success(None));
    CountdownDisplay.FormatExamples();
    assert otp.resent && otp.ResendPrompt() == CountdownDisplay.CountdownText("2:00");
    otp.ResendClick();
    assert |otp.browser.sent| == |before| + 2;
  }

  /** Opening the OTP screen with no navigation state sends the visitor to
      registration. */
  method DirectEntryRedirects(isEmail: string -> bool)
  {
    var browser := new Browser();
    var otp := new VerifyOtp.VerifyOtpScreen(None, browser, isEmail);
    assert browser.navigations == [Navigation("/register", None)];
  }
}
