/** The Yup validation schemas of the auth forms as rule tables, and the
    validator that interprets them. */
module Schemas {
  import opened Common

  /** The string checks the schemas use. Before Yup sees them, Formik turns
      every empty field into `undefined`, and every test but `.required`
      skips an absent value: on "" only `Required` can fail. */
  datatype Check =
    | Required             // `.required(...)`: the empty string fails
    | Email                // `.email(...)`: a non-empty string must be an email address
    | MinLength(n: nat)    // `.min(n, ...)`: a non-empty string needs `n` characters
    | ExactLength(n: nat)  // `.length(n, ...)`: a non-empty string needs exactly `n`
    | DigitsOnly           // `.matches(/^\d+$/, ...)`: a non-empty string of decimal digits
    | SameAs(other: string)  // `.oneOf([Yup.ref(other), null], ...)`: a non-empty string equal to `other`

  datatype Rule = Rule(check: Check, message: string)

  datatype FieldRules = FieldRules(field: string, rules: seq<Rule>)

  /** A `Yup.object({...})`: each field with the rules chained on it. */
  type Schema = seq<FieldRules>

  /** Formik's `errors`: each invalid field with the messages of the rules it
      breaks. A field that is not a key is valid. Which of several messages
      Formik keeps when a non-empty field breaks more than one rule is not
      modelled. */
  type Errors = map<string, set<string>>

  /** Does text `s` break `check`? `values` is the whole form (for `SameAs`);
      `isEmail` is Yup's email pattern, which this model leaves abstract. An
      empty field breaks `Required` and nothing else; a non-empty one never
      breaks `Required`. */
  predicate Fails(check: Check, s: string, values: Values, isEmail: string -> bool)
    ensures s == "" ==> (Fails(check, s, values, isEmail) <==> check == Required)
    ensures check == Required ==> (Fails(check, s, values, isEmail) <==> s == "")
  {
    match check
    case Required => s == ""
    case Email => s != "" && !isEmail(s)
    case MinLength(n) => s != "" && |s| < n
    case ExactLength(n) => s != "" && |s| != n
    case DigitsOnly => s != "" && !AllDigits(s)
    case SameAs(other) => s != "" && s != Get(values, other)
  }

  /** The messages of the rules in `rules` that `s` breaks. */
  function Violations(rules: seq<Rule>, s: string, values: Values, isEmail: string -> bool): (r: set<string>)
    ensures forall m :: m in r ==> exists i :: 0 <= i < |rules| && rules[i].message == m
  {
    if rules == [] then {}
    else
      var rest := Violations(rules[1..], s, values, isEmail);
      assert forall m :: m in rest ==> exists i :: 0 <= i < |rules| && rules[i].message == m by {
        forall m | m in rest ensures exists i :: 0 <= i < |rules| && rules[i].message == m {
          var j :| 0 <= j < |rules[1..]| && rules[1..][j].message == m;
          assert rules[j + 1].message == m;
        }
      }
      Broken(rules[0], s, values, isEmail) + rest
  }

  /** The message of `rule` if `s` breaks it. */
  function Broken(rule: Rule, s: string, values: Values, isEmail: string -> bool): set<string>
  {
    if Fails(rule.check, s, values, isEmail) then {rule.message} else {}
  }

  lemma ViolationsOfTwo(r0: Rule, r1: Rule, s: string, values: Values, isEmail: string -> bool)
    ensures Violations([r0, r1], s, values, isEmail) ==
      Broken(r0, s, values, isEmail) + Broken(r1, s, values, isEmail)
  {
    assert [r0, r1][1..] == [r1];
    assert [r1][1..] == [];
  }

  lemma ViolationsOfThree(r0: Rule, r1: Rule, r2: Rule, s: string, values: Values, isEmail: string -> bool)
    ensures Violations([r0, r1, r2], s, values, isEmail) ==
      Broken(r0, s, values, isEmail) + Broken(r1, s, values, isEmail) + Broken(r2, s, values, isEmail)
  {
    assert [r0, r1, r2][1..] == [r1, r2];
    ViolationsOfTwo(r1, r2, s, values, isEmail);
  }

  /** The names of the fields a schema constrains. */
  function Fields(schema: Schema): set<string>
  {
    set e | e in schema :: e.field
  }

  /** The rules of `field`: those of its first entry, none when it has no entry. */
  function RulesOf(schema: Schema, field: string): seq<Rule>
  {
    if schema == [] then []
    else if schema[0].field == field then schema[0].rules
    else RulesOf(schema[1..], field)
  }

  /** The entry of a field that appears once in the table gives its rules. */
  lemma {:induction false} RulesOfAt(schema: Schema, i: nat)
    requires i < |schema|
    requires forall j :: 0 <= j < i ==> schema[j].field != schema[i].field
    ensures RulesOf(schema, schema[i].field) == schema[i].rules
  {
    if i > 0 {
      assert forall j :: 0 <= j < i - 1 ==> schema[1..][j] == schema[j + 1];
      RulesOfAt(schema[1..], i - 1);
    }
  }

  /** The messages `field` of `values` gets under `schema`. */
  function FieldErrors(schema: Schema, values: Values, field: string, isEmail: string -> bool): set<string>
  {
    Violations(RulesOf(schema, field), Get(values, field), values, isEmail)
  }

  /** Run every field's rules: `validationSchema.validate(values)` as Formik
      turns its failures into `errors`. */
  function Validate(schema: Schema, values: Values, isEmail: string -> bool): (errors: Errors)
    ensures errors.Keys <= Fields(schema)
    ensures forall f :: f in errors ==> errors[f] != {}
  {
    if schema == [] then map[]
    else
      var rest := Validate(schema[1..], values, isEmail);
      var v := Violations(schema[0].rules, Get(values, schema[0].field), values, isEmail);
      assert Fields(schema) == {schema[0].field} + Fields(schema[1..]) by {
        forall f ensures f in Fields(schema) <==> f == schema[0].field || f in Fields(schema[1..]) {
          if f in Fields(schema) {
            var e :| e in schema && e.field == f;
            if e != schema[0] { assert e in schema[1..]; }
          }
        }
      }
      if v == {} then rest - {schema[0].field} else rest[schema[0].field := v]
  }

  /** Formik's `isValid` after validating `values`: no constrained field has
      an error. */
  predicate IsValid(schema: Schema, values: Values, isEmail: string -> bool)
    ensures IsValid(schema, values, isEmail) <==>
      forall f :: f in Fields(schema) ==> f !in Validate(schema, values, isEmail)
  {
    NoKeyIsEmpty(Validate(schema, values, isEmail), Fields(schema));
    Validate(schema, values, isEmail) == map[]
  }

  /** A map whose keys lie in `keys` is empty exactly when it has none of them. */
  lemma NoKeyIsEmpty(errors: Errors, keys: set<string>)
    requires errors.Keys <= keys
    ensures errors == map[] <==> forall k :: k in keys ==> k !in errors
  {
    if errors != map[] {
      var f :| f in errors;
    }
  }

  /** A message is among the violations exactly when some rule with that
      message fails. */
  lemma {:induction false} ViolationsIff(rules: seq<Rule>, s: string, values: Values, isEmail: string -> bool, m: string)
    ensures m in Violations(rules, s, values, isEmail) <==>
      exists i :: 0 <= i < |rules| && rules[i].message == m && Fails(rules[i].check, s, values, isEmail)
  {
    if rules != [] {
      ViolationsIff(rules[1..], s, values, isEmail, m);
      if m in Violations(rules[1..], s, values, isEmail) {
        var j :| 0 <= j < |rules[1..]| && rules[1..][j].message == m && Fails(rules[1..][j].check, s, values, isEmail);
        assert rules[j + 1] == rules[1..][j];
      }
      if exists i :: 0 <= i < |rules| && rules[i].message == m && Fails(rules[i].check, s, values, isEmail) {
        var i :| 0 <= i < |rules| && rules[i].message == m && Fails(rules[i].check, s, values, isEmail);
        if i > 0 { assert rules[1..][i - 1] == rules[i]; }
      }
    }
  }

  /** The validator's verdict on one field is that field's own rules applied
      to its own text: a field is a key of `errors` exactly when it breaks a
      rule, and then it carries exactly the broken rules' messages. */
  lemma {:induction false} ValidateAt(schema: Schema, values: Values, isEmail: string -> bool, field: string)
    ensures field in Validate(schema, values, isEmail) <==> FieldErrors(schema, values, field, isEmail) != {}
    ensures field in Validate(schema, values, isEmail) ==>
      Validate(schema, values, isEmail)[field] == FieldErrors(schema, values, field, isEmail)
  {
    if schema != [] {
      ValidateAt(schema[1..], values, isEmail, field);
    }
  }

  /** A form passes exactly when every field it constrains breaks no rule. */
  lemma ValidIff(schema: Schema, values: Values, isEmail: string -> bool)
    ensures IsValid(schema, values, isEmail) <==>
      forall f :: f in Fields(schema) ==> FieldErrors(schema, values, f, isEmail) == {}
  {
    var errors := Validate(schema, values, isEmail);
    forall f | f in Fields(schema) {
      ValidateAt(schema, values, isEmail, f);
    }
    if errors != map[] {
      var f :| f in errors;
      ValidateAt(schema, values, isEmail, f);
    }
  }

  // ---------------------------------------------------------------------
  // The four schemas of the forms

  /** The email rule, the same in the register, login and forgot-password schemas. */
  const EmailRules: seq<Rule> := [Rule(Email, "Invalid email"), Rule(Required, "Email is required")]

  const RegisterSchema: Schema := [
    FieldRules("name", [Rule(Required, "Name is required")]),
    FieldRules("email", EmailRules),
    FieldRules("password", [Rule(MinLength(6), "Password must be at least 6 characters"),
                            Rule(Required, "Password is required")]),
    FieldRules("confirmPassword", [Rule(SameAs("password"), "Passwords must match"),
                                   Rule(Required, "Confirm Password is required")])
  ]

  const LoginSchema: Schema := [
    FieldRules("email", EmailRules),
    FieldRules("password", [Rule(Required, "Password is required")])
  ]

  const ForgotPasswordSchema: Schema := [
    FieldRules("email", EmailRules)
  ]

  const OtpSchema: Schema := [
    FieldRules("otp", [Rule(Required, "OTP is required"),
                       Rule(ExactLength(6), "OTP must be exactly 6 digits"),
                       Rule(DigitsOnly, "OTP must contain only numbers")])
  ]

  // ---------------------------------------------------------------------
  // What each rule table promises

  /** The messages the email rule yields: "Email is required" for an empty
      email, "Invalid email" for a non-empty one that is not an address. */
  lemma EmailViolations(s: string, values: Values, isEmail: string -> bool)
    ensures Violations(EmailRules, s, values, isEmail) ==
      if s == "" then {"Email is required"} else if !isEmail(s) then {"Invalid email"} else {}
  {
    ViolationsOfTwo(EmailRules[0], EmailRules[1], s, values, isEmail);
  }

  /** In all three schemas that have an email field, it is rejected exactly
      when it is empty or not an address, with the matching single message. */
  lemma EmailRule(schema: Schema, values: Values, isEmail: string -> bool)
    requires schema == RegisterSchema || schema == LoginSchema || schema == ForgotPasswordSchema
    ensures var errors := Validate(schema, values, isEmail); var s := Get(values, "email");
      && ("email" in errors <==> s == "" || !isEmail(s))
      && (s == "" ==> errors["email"] == {"Email is required"})
      && (s != "" && !isEmail(s) ==> errors["email"] == {"Invalid email"})
  {
    if schema == RegisterSchema {
      RulesOfAt(RegisterSchema, 1);
    } else {
      RulesOfAt(schema, 0);
    }
    ValidateAt(schema, values, isEmail, "email");
    EmailViolations(Get(values, "email"), values, isEmail);
  }

  /** Registration: an empty name gets exactly "Name is required", any other
      name no error. */
  lemma RegisterName(values: Values, isEmail: string -> bool)
    ensures var errors := Validate(RegisterSchema, values, isEmail);
      && ("name" in errors <==> Get(values, "name") == "")
      && ("name" in errors ==> errors["name"] == {"Name is required"})
  {
    RulesOfAt(RegisterSchema, 0);
    ValidateAt(RegisterSchema, values, isEmail, "name");
  }

  /** Registration: a password is rejected exactly when it is shorter than six
      characters; a non-empty short one gets only the length message. */
  lemma RegisterPassword(values: Values, isEmail: string -> bool)
    ensures var errors := Validate(RegisterSchema, values, isEmail); var p := Get(values, "password");
      && ("password" in errors <==> |p| < 6)
      && (0 < |p| < 6 ==> errors["password"] == {"Password must be at least 6 characters"})
      && (p == "" ==> errors["password"] == {"Password is required"})
  {
    var rules := [Rule(MinLength(6), "Password must be at least 6 characters"), Rule(Required, "Password is required")];
    RulesOfAt(RegisterSchema, 2);
    ViolationsOfTwo(rules[0], rules[1], Get(values, "password"), values, isEmail);
    ValidateAt(RegisterSchema, values, isEmail, "password");
  }

  /** Registration: the confirmation passes exactly when it is non-empty and
      equal to the password; a non-empty mismatch gets only "Passwords must match". */
  lemma RegisterConfirmPassword(values: Values, isEmail: string -> bool)
    ensures var errors := Validate(RegisterSchema, values, isEmail);
      var p := Get(values, "password"); var c := Get(values, "confirmPassword");
      && ("confirmPassword" !in errors <==> c != "" && c == p)
      && (c != "" && c != p ==> errors["confirmPassword"] == {"Passwords must match"})
      && (c == "" ==> errors["confirmPassword"] == {"Confirm Password is required"})
  {
    var rules := [Rule(SameAs("password"), "Passwords must match"), Rule(Required, "Confirm Password is required")];
    RulesOfAt(RegisterSchema, 3);
    ViolationsOfTwo(rules[0], rules[1], Get(values, "confirmPassword"), values, isEmail);
    ValidateAt(RegisterSchema, values, isEmail, "confirmPassword");
  }

  /** A registration form passes exactly when the name is non-empty, the email
      is a non-empty address, the password has at least six characters and the
      confirmation repeats it. */
  lemma RegisterValid(values: Values, isEmail: string -> bool)
    ensures IsValid(RegisterSchema, values, isEmail) <==>
      && Get(values, "name") != ""
      && Get(values, "email") != "" && isEmail(Get(values, "email"))
      && |Get(values, "password")| >= 6
      && Get(values, "confirmPassword") == Get(values, "password")
  {
    var errors := Validate(RegisterSchema, values, isEmail);
    var p := Get(values, "password");
    RegisterName(values, isEmail);
    EmailRule(RegisterSchema, values, isEmail);
    RegisterPassword(values, isEmail);
    RegisterConfirmPassword(values, isEmail);
    RegisterFields();
    FourFieldVerdict(errors, Get(values, "name") != "",
      Get(values, "email") != "" && isEmail(Get(values, "email")),
      |p| >= 6, Get(values, "confirmPassword") != "" && Get(values, "confirmPassword") == p);
  }

  /** The last step of `RegisterValid`, kept apart from the schema: an error
      map over the four registration fields is empty exactly when each field
      is absent from it. */
  lemma FourFieldVerdict(errors: Errors, name: bool, email: bool, password: bool, confirm: bool)
    requires errors.Keys <= {"name", "email", "password", "confirmPassword"}
    requires "name" !in errors <==> name
    requires "email" !in errors <==> email
    requires "password" !in errors <==> password
    requires "confirmPassword" !in errors <==> confirm
    ensures errors == map[] <==> name && email && password && confirm
  {
    NoKeyIsEmpty(errors, {"name", "email", "password", "confirmPassword"});
  }

  lemma RegisterFields()
    ensures Fields(RegisterSchema) == {"name", "email", "password", "confirmPassword"}
  {
    assert RegisterSchema[0] in RegisterSchema && RegisterSchema[1] in RegisterSchema;
    assert RegisterSchema[2] in RegisterSchema && RegisterSchema[3] in RegisterSchema;
  }

  /** Login: the password has only a required rule, so any non-empty password
      passes whatever its length. */
  lemma LoginPassword(values: Values, isEmail: string -> bool)
    ensures var errors := Validate(LoginSchema, values, isEmail);
      && ("password" in errors <==> Get(values, "password") == "")
      && ("password" in errors ==> errors["password"] == {"Password is required"})
  {
    RulesOfAt(LoginSchema, 1);
    ValidateAt(LoginSchema, values, isEmail, "password");
  }

  /** A login form passes exactly when the email is a non-empty address and
      the password is non-empty. */
  lemma LoginValid(values: Values, isEmail: string -> bool)
    ensures IsValid(LoginSchema, values, isEmail) <==>
      Get(values, "email") != "" && isEmail(Get(values, "email")) && Get(values, "password") != ""
  {
    var errors := Validate(LoginSchema, values, isEmail);
    EmailRule(LoginSchema, values, isEmail);
    LoginPassword(values, isEmail);
    assert Fields(LoginSchema) == {"email", "password"} by {
      assert LoginSchema[0].field == "email" && LoginSchema[1].field == "password";
    }
    if errors != map[] {
      var f :| f in errors;
    }
  }

  /** The forgot-password schema constrains only the email: no other field can
      be reported, and the form passes exactly when the email does. */
  lemma ForgotPasswordOnlyEmail(values: Values, isEmail: string -> bool)
    ensures Validate(ForgotPasswordSchema, values, isEmail).Keys <= {"email"}
    ensures IsValid(ForgotPasswordSchema, values, isEmail) <==>
      Get(values, "email") != "" && isEmail(Get(values, "email"))
  {
    assert Fields(ForgotPasswordSchema) == {"email"} by {
      assert ForgotPasswordSchema[0].field == "email";
    }
    EmailRule(ForgotPasswordSchema, values, isEmail);
  }

  /** An OTP passes exactly when it has six characters, all decimal digits.
      An empty one gets only "OTP is required"; a non-empty one gets the
      length message when it is not six long and the digits message when it
      holds anything but digits. */
  lemma OtpRule(values: Values, isEmail: string -> bool)
    ensures var errors := Validate(OtpSchema, values, isEmail); var o := Get(values, "otp");
      && ("otp" !in errors <==> |o| == 6 && AllDigits(o))
      && (o == "" ==> errors["otp"] == {"OTP is required"})
      && (o != "" && "otp" in errors ==>
            errors["otp"] == (if |o| != 6 then {"OTP must be exactly 6 digits"} else {}) +
                             (if AllDigits(o) then {} else {"OTP must contain only numbers"}))
  {
    var rules := OtpSchema[0].rules;
    RulesOfAt(OtpSchema, 0);
    ViolationsOfThree(rules[0], rules[1], rules[2], Get(values, "otp"), values, isEmail);
    ValidateAt(OtpSchema, values, isEmail, "otp");
  }
}
