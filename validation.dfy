/**
 * The struct-tag rules of the validator both models are checked with
 * (`validate.Struct`). Each tagged field is checked tag by tag, in the order the
 * tags are written, and reports the first tag it fails. A nil pointer fails its
 * first tag whatever that tag is; a non-nil pointer passes `required` even when it
 * points to an empty string. String lengths count characters (runes).
 */
module Validation {
  import opened Wrappers

  /** One entry of the validator's error list: the struct field and the tag it failed. */
  datatype FieldError = FieldError(field: string, tag: string)

  /** `validate:"required,min=lo,max=hi"` on a `*string` field. */
  function RequiredMinMax(field: string, v: Option<string>, lo: nat, hi: nat): (errs: seq<FieldError>)
    ensures errs == [] <==> v.Some? && lo <= |v.value| <= hi
    ensures errs != [] ==> errs == [FieldError(field, errs[0].tag)]
    ensures v.None? ==> errs == [FieldError(field, "required")]
  {
    if v.None? then [FieldError(field, "required")]
    else if |v.value| < lo then [FieldError(field, "min")]
    else if |v.value| > hi then [FieldError(field, "max")]
    else []
  }

  /** `validate:"required,min=lo"` on a `*string` field: no upper bound. */
  function RequiredMin(field: string, v: Option<string>, lo: nat): (errs: seq<FieldError>)
    ensures errs == [] <==> v.Some? && lo <= |v.value|
    ensures errs != [] ==> errs == [FieldError(field, errs[0].tag)]
    ensures v.None? ==> errs == [FieldError(field, "required")]
  {
    if v.None? then [FieldError(field, "required")]
    else if |v.value| < lo then [FieldError(field, "min")]
    else []
  }

  /**
   * `validate:"email,required"` on a `*string` field; `isEmail` is the validator's
   * e-mail syntax check. A nil pointer reports `email`, the first tag.
   */
  function EmailRequired(field: string, v: Option<string>, isEmail: string -> bool): (errs: seq<FieldError>)
    ensures errs == [] <==> v.Some? && isEmail(v.value)
    ensures errs != [] ==> errs == [FieldError(field, "email")]
  {
    if v.None? || !isEmail(v.value) then [FieldError(field, "email")] else []
  }

  /** `validate:"required"` on a `*string` field: any non-nil pointer passes, "" included. */
  function Required(field: string, v: Option<string>): (errs: seq<FieldError>)
    ensures errs == [] <==> v.Some?
    ensures errs != [] ==> errs == [FieldError(field, "required")]
  {
    if v.None? then [FieldError(field, "required")] else []
  }
}
