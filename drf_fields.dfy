/** Django REST framework's field validation as the serializers of the
    project use it: the error entries a field reports, a `CharField`'s
    blank, length and NUL checks, a primary-key field's lookup, and the
    text `str()` gives for a serializer's error dict. */
module DrfFields {
  import opened Base
  import opened JsonValues

  /** One entry of a field's error list: the message and its code. */
  datatype Detail = Detail(message: string, code: string)

  /** A field and its error list. */
  datatype FieldErrors = FieldErrors(field: string, details: seq<Detail>)

  /** The result of validating one field. */
  datatype Checked<T> = Clean(value: T) | Invalid(details: seq<Detail>)

  const BlankDetail := Detail("This field may not be blank.", "blank")
  const NullDetail := Detail("This field may not be null.", "null")
  const NullCharDetail := Detail("Null characters are not allowed.", "null_characters_not_allowed")

  function MaxLengthDetail(n: nat): Detail {
    Detail("Ensure this field has no more than " + NatToDecimal(n) + " characters.", "max_length")
  }

  /** A primary-key field given a key with no row. */
  function DoesNotExistDetail(pk: int): Detail {
    Detail("Invalid pk \"" + IntToDecimal(pk) + "\" - object does not exist.", "does_not_exist")
  }

  const NulChar: char := 0 as char

  /** A DRF `CharField` with `trim_whitespace`: a blank value is refused
      unless blanks are allowed, and then becomes ""; any other value is
      stripped and then checked for length and for NUL characters, every
      failing check adding its own entry. */
  function CheckChars(value: string, allowBlank: bool, maxLength: Option<nat>): Checked<string> {
    if IsBlank(value) then (if allowBlank then Clean("") else Invalid([BlankDetail]))
    else
      var v := Strip(value);
      var errs := (if maxLength.Some? && |v| > maxLength.value then [MaxLengthDetail(maxLength.value)] else [])
                + (if NulChar in v then [NullCharDetail] else []);
      if errs == [] then Clean(v) else Invalid(errs)
  }

  /** A field accepts exactly the values that are non-blank (or blank when
      allowed), short enough once stripped and free of NUL characters; what
      it keeps is the stripped text. */
  lemma CheckCharsCases(value: string, allowBlank: bool, maxLength: Option<nat>)
    ensures CheckChars(value, allowBlank, maxLength).Clean? <==>
      if IsBlank(value) then allowBlank
      else (maxLength.None? || |Strip(value)| <= maxLength.value) && NulChar !in Strip(value)
    ensures CheckChars(value, allowBlank, maxLength).Clean? ==> CheckChars(value, allowBlank, maxLength).value == Strip(value)
  {
    StripEmptyIffBlank(value);
  }

  /** A value with no whitespace at either end, no NUL character and
      within the length bound is kept as it is. */
  lemma CheckCharsPlain(value: string, allowBlank: bool, maxLength: Option<nat>)
    requires value != [] && !IsSpace(value[0]) && !IsSpace(value[|value| - 1]) && NulChar !in value
    requires maxLength.None? || |value| <= maxLength.value
    ensures CheckChars(value, allowBlank, maxLength) == Clean(value)
  {
    StripUnchanged(value);
  }

  const InvalidEmailDetail := Detail("Enter a valid email address.", "invalid")

  /** A DRF `EmailField`: a `CharField` whose validators also check the
      address (`emailValid`, Django's `EmailValidator`, run after the NUL
      check). A blank value fails before any validator runs. */
  function CheckEmail(value: string, emailValid: string -> bool): Checked<string> {
    var c := CheckChars(value, false, None);
    if IsBlank(value) || emailValid(Strip(value)) then c
    else Invalid((if c.Invalid? then c.details else []) + [InvalidEmailDetail])
  }

  /** An address is accepted exactly when it is not blank and, stripped,
      holds no NUL character and passes the address check; what is kept is
      the stripped text. A malformed address reports the syntax error last. */
  lemma CheckEmailCases(value: string, emailValid: string -> bool)
    ensures CheckEmail(value, emailValid).Clean? <==>
      !IsBlank(value) && NulChar !in Strip(value) && emailValid(Strip(value))
    ensures CheckEmail(value, emailValid).Clean? ==> CheckEmail(value, emailValid).value == Strip(value)
    ensures !IsBlank(value) && !emailValid(Strip(value)) ==>
      var d := CheckEmail(value, emailValid).details; d != [] && d[|d| - 1] == InvalidEmailDetail
  {
    CheckCharsCases(value, false, None);
  }

  /** The names of the fields of an error dict, in order. */
  function FieldNames(errors: seq<FieldErrors>): (names: seq<string>)
    ensures |names| == |errors|
  {
    seq(|errors|, i requires 0 <= i < |errors| => errors[i].field)
  }

  /** The names of a concatenation are the names of its parts. */
  lemma FieldNamesAppend(a: seq<FieldErrors>, b: seq<FieldErrors>)
    ensures FieldNames(a + b) == FieldNames(a) + FieldNames(b)
  {
  }

  /** A failing field contributes its own name once; a clean one nothing. */
  lemma FieldNamesOf<T>(field: string, c: Checked<T>)
    ensures FieldNames(ErrorsOf(field, c)) == if c.Invalid? then [field] else []
  {
  }

  /** `repr(ErrorDetail)`. */
  function DetailRepr(d: Detail): string {
    "ErrorDetail(string='" + d.message + "', code='" + d.code + "')"
  }

  function FieldRepr(e: FieldErrors): string {
    "'" + e.field + "': [" + Join(seq(|e.details|, i requires 0 <= i < |e.details| => DetailRepr(e.details[i])), ", ") + "]"
  }

  /** `str()` of a serializer's `ValidationError`: the repr of its error dict. */
  function ErrorsText(errors: seq<FieldErrors>): string {
    "{" + Join(seq(|errors|, i requires 0 <= i < |errors| => FieldRepr(errors[i])), ", ") + "}"
  }

  /** The entry of a field that failed, if it did. */
  function ErrorsOf<T>(field: string, c: Checked<T>): seq<FieldErrors> {
    if c.Invalid? then [FieldErrors(field, c.details)] else []
  }
}
