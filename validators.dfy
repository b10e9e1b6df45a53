/**
 * The two framework validators that the Cabin declarations use, `presence`
 * and `numericality`, each as a pure rule over one attribute's value that
 * yields the error it adds, if any.
 */
module Validators {
  import opened Wrappers
  import opened Whitespace

  /**
   * A value submitted for a numeric column, already classified: a number,
   * or text that does not parse as one.
   */
  datatype Num = Numeric(value: real) | NotNumeric(raw: string)

  /** The errors the validators add: `:blank`, `:not_a_number`, `:not_an_integer`, `:greater_than`. */
  datatype ErrorKind = Blank | NotANumber | NotAnInteger | GreaterThan(count: real)

  predicate IsInteger(r: real) {
    r.Floor as real == r
  }

  /** `blank?` of a text attribute: nil, or a blank string. */
  predicate TextIsBlank(v: Option<string>)
    ensures !TextIsBlank(v) <==> v.Some? && exists i :: 0 <= i < |v.value| && !IsWhitespace(v.value[i])
  {
    v.None? || IsBlank(v.value)
  }

  /**
   * `blank?` of a numeric attribute after the column's cast: nil and blank
   * text cast to nil; a number is never blank, and non-blank text that does
   * not parse as a number still casts to a number (its leading numeric part,
   * or 0), so it is not blank either.
   */
  predicate NumIsBlank(v: Option<Num>)
    ensures v.None? ==> NumIsBlank(v)
    ensures v.Some? && v.value.Numeric? ==> !NumIsBlank(v)
    ensures v.Some? && v.value.NotNumeric? ==>
      (!NumIsBlank(v) <==> exists i :: 0 <= i < |v.value.raw| && !IsWhitespace(v.value.raw[i]))
  {
    v.None? || (v.value.NotNumeric? && IsBlank(v.value.raw))
  }

  /** `presence: true` on a text attribute. */
  function TextPresence(v: Option<string>): (e: Option<ErrorKind>)
    ensures e == None <==> v.Some? && exists i :: 0 <= i < |v.value| && !IsWhitespace(v.value[i])
    ensures e == None || e == Some(Blank)
  {
    if TextIsBlank(v) then Some(Blank) else None
  }

  /** `presence: true` on a numeric attribute. */
  function NumPresence(v: Option<Num>): (e: Option<ErrorKind>)
    ensures v.None? ==> e == Some(Blank)
    ensures v.Some? && v.value.Numeric? ==> e == None
    ensures v.Some? && v.value.NotNumeric? ==>
      (e == None <==> exists i :: 0 <= i < |v.value.raw| && !IsWhitespace(v.value.raw[i]))
    ensures e == None || e == Some(Blank)
  {
    if NumIsBlank(v) then Some(Blank) else None
  }

  /**
   * `numericality: { greater_than: bound, only_integer: onlyInteger }`
   * without `allow_nil`. The validator stops at its first failure: a value
   * that is not a number (nil included) gets only NotANumber, a fractional
   * value under `only_integer` only NotAnInteger, and only then is the bound
   * compared.
   */
  function Numericality(v: Option<Num>, bound: real, onlyInteger: bool): (e: Option<ErrorKind>)
    ensures e == None <==>
      v.Some? && v.value.Numeric? && (onlyInteger ==> IsInteger(v.value.value)) && v.value.value > bound
    ensures e == Some(NotANumber) <==> !(v.Some? && v.value.Numeric?)
    ensures e == Some(NotAnInteger) <==>
      v.Some? && v.value.Numeric? && onlyInteger && !IsInteger(v.value.value)
    ensures e == None || e == Some(NotANumber) || e == Some(NotAnInteger) || e == Some(GreaterThan(bound))
  {
    match v
    case None => Some(NotANumber)
    case Some(NotNumeric(_)) => Some(NotANumber)
    case Some(Numeric(r)) =>
      if onlyInteger && !IsInteger(r) then Some(NotAnInteger)
      else if r <= bound then Some(GreaterThan(bound))
      else None
  }
}
