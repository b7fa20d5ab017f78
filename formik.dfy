/** The part of a `useFormik` instance the auth screens rely on: the current
    values, the errors of the last validation, the touched fields, and the
    submit gate that runs `onSubmit` only for a form that validates. */
module Formik {
  import opened Common
  import opened Schemas

  class Form {
    const schema: Schema
    /** Yup's email pattern, left abstract. */
    const isEmail: string -> bool
    var values: Values
    var errors: Errors
    var touched: set<string>

    /** `useFormik({ initialValues, validationSchema })`: nothing validated
        or touched yet. */
    constructor (schema: Schema, isEmail: string -> bool, initialValues: Values)
      ensures this.schema == schema && this.isEmail == isEmail
      ensures values == initialValues && errors == map[] && touched == {}
    {
      this.schema := schema;
      this.isEmail := isEmail;
      values := initialValues;
      errors := map[];
      touched := {};
    }

    /** `handleChange`: the field takes the new text and the form is validated again. */
    method Change(field: string, text: string)
      modifies this
      ensures values == old(values)[field := text] && touched == old(touched)
      ensures errors == Validate(schema, values, isEmail)
    {
      values := values[field := text];
      errors := Validate(schema, values, isEmail);
    }

    /** `handleBlur`: the field becomes touched and the form is validated again. */
    method Blur(field: string)
      modifies this
      ensures values == old(values) && touched == old(touched) + {field}
      ensures errors == Validate(schema, values, isEmail)
    {
      touched := touched + {field};
      errors := Validate(schema, values, isEmail);
    }

    /** The first half of `handleSubmit`: every field becomes touched and the
        form is validated; `onSubmit` may run only when `ok`. */
    method SubmitAttempt() returns (ok: bool)
      modifies this
      ensures values == old(values) && touched == old(touched) + values.Keys
      ensures errors == Validate(schema, values, isEmail)
      ensures ok <==> IsValid(schema, values, isEmail)
    {
      touched := touched + values.Keys;
      errors := Validate(schema, values, isEmail);
      ok := errors == map[];
    }

    /** `formik.isValid`: the last validation found no error, so no field
        has an error to show. */
    predicate HasNoErrors()
      reads this
      ensures HasNoErrors() <==> forall f :: f !in errors
    {
      NoKeyIsEmpty(errors, errors.Keys);
      errors == map[]
    }

    /** The error a screen renders under `field` when it waits for the field
        to be touched (`errors.f && touched.f`). */
    function TouchedError(field: string): (r: Option<set<string>>)
      reads this
      ensures r.Some? <==> field in errors && field in touched
      ensures r.Some? ==> r.value == errors[field]
    {
      if field in errors && field in touched then Some(errors[field]) else None
    }

    /** The error a screen renders under `field` when it does not wait for
        touched (`errors.f`). */
    function ImmediateError(field: string): (r: Option<set<string>>)
      reads this
      ensures r.Some? <==> field in errors
      ensures r.Some? ==> r.value == errors[field]
    {
      if field in errors then Some(errors[field]) else None
    }
  }
}
