/** Values shared by every auth screen: form records, the abstract API outcome,
    the requests and navigations a screen issues, and the browser state they touch. */
module Common {

  datatype Option<T> = None | Some(value: T)

  /** A form's values, field name to text, as Formik holds them. */
  type Values = map<string, string>

  /** The text of `field`. Formik starts every field at "", so a field that is
      not in the record reads as the empty string. */
  function Get(values: Values, field: string): string
  {
    if field in values then values[field] else ""
  }

  predicate IsDigit(c: char)
  {
    '0' <= c <= '9'
  }

  predicate AllDigits(s: string)
  {
    forall i :: 0 <= i < |s| ==> IsDigit(s[i])
  }

  /** What one `API.post` ends with: a 2xx response whose `data` is a record,
      or None when the body is JSON `null`; or an error whose response body
      may carry a `message`. */
  datatype Outcome = Success(data: Option<map<string, string>>) | Failure(message: Option<string>)

  /** One HTTP request as the screen builds it: endpoint path and JSON body. */
  datatype Request = Request(path: string, body: map<string, string>)

  /** One call of `navigate(path, { state })`; `state` is None when no state is passed. */
  datatype Navigation = Navigation(path: string, state: Option<map<string, string>>)

  /** `err.response?.data?.message || fallback`: the server's message when it is
      present and non-empty, the screen's fixed text otherwise. */
  function ErrorText(message: Option<string>, fallback: string): (r: string)
    ensures message.Some? && message.value != "" ==> r == message.value
    ensures message == None || message == Some("") ==> r == fallback
    ensures r == fallback || Some(r) == message
    ensures fallback != "" ==> r != ""
  {
    if message.Some? && message.value != "" then message.value else fallback
  }

  /** `location.state?.email`, or None when there is no state or no `email` in it. */
  function EmailOf(state: Option<map<string, string>>): (email: Option<string>)
    ensures email.Some? <==> state.Some? && "email" in state.value
    ensures email.Some? ==> email.value == state.value["email"]
  {
    if state.Some? && "email" in state.value then Some(state.value["email"]) else None
  }

  /** `!email` is false: the navigation state carries a non-empty email. */
  predicate HasEmail(state: Option<map<string, string>>)
    ensures HasEmail(state) <==> state.Some? && "email" in state.value && state.value["email"] != ""
  {
    EmailOf(state).Some? && EmailOf(state).value != ""
  }

  /** The entry guard of an OTP screen: where it sends a visitor who arrived
      without an email in the navigation state, or None when it stays. */
  function EntryRedirect(state: Option<map<string, string>>, target: string): (r: Option<string>)
    ensures r.Some? <==> (state == None || "email" !in state.value || state.value["email"] == "")
    ensures r.Some? ==> r.value == target
  {
    if HasEmail(state) then None else Some(target)
  }

  /** The `email` entry of a JSON body built from `{ email, ... }`: JSON drops a
      property whose value is undefined. */
  function EmailField(email: Option<string>): (body: map<string, string>)
    ensures "email" in body <==> email.Some?
    ensures email.Some? ==> body == map["email" := email.value]
    ensures email.None? ==> body == map[]
  {
    if email.Some? then map["email" := email.value] else map[]
  }

  /** `API.post(path, { email })`, the resend request of both OTP screens: the
      body carries the email when there is one, and nothing else. */
  function ResendRequest(path: string, email: Option<string>): (r: Request)
    ensures r.path == path
    ensures r.body.Keys == if email.Some? then {"email"} else {}
    ensures email.Some? ==> r.body["email"] == email.value
  {
    Request(path, EmailField(email))
  }

  /** The outside world a screen acts on: `localStorage`, the navigations it
      has asked the router for, and the requests it has sent. */
  class Browser {
    var localStorage: map<string, string>
    var navigations: seq<Navigation>
    var sent: seq<Request>

    constructor ()
      ensures localStorage == map[] && navigations == [] && sent == []
    {
      localStorage := map[];
      navigations := [];
      sent := [];
    }
  }
}
