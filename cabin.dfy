/**
 * The Cabin record and its four validation declarations: `name` present;
 * `price_per_night` present and a number greater than 0; `capacity` present
 * and an integer greater than 0; `location` present, with its numericality
 * check switched off. Validate runs every declaration, in declaration order,
 * and collects every error; a cabin is valid when none is collected.
 */
module Cabins {
  import opened Wrappers
  import opened Whitespace
  import opened Validators

  datatype Field = Name | PricePerNight | Capacity | Location

  /** The four business attributes of a cabin; a nil attribute is None. */
  datatype Cabin = Cabin(
    name: Option<string>,
    pricePerNight: Option<Num>,
    capacity: Option<Num>,
    location: Option<string>)

  /** One entry of the record's error collection. */
  datatype Error = Error(attribute: Field, kind: ErrorKind)

  function Kinds(e: Option<ErrorKind>): (r: seq<ErrorKind>) {
    if e.Some? then [e.value] else []
  }

  /**
   * The errors the declarations for attribute `f` add, in the order they
   * run; none exactly when the attribute satisfies its rule.
   */
  function FieldErrors(c: Cabin, f: Field): (r: seq<ErrorKind>)
    ensures r == [] <==> RulePasses(c, f)
  {
    match f
    // name: present
    case Name => Kinds(TextPresence(c.name))
    // price per night: present, a number, greater than 0
    case PricePerNight =>
      Kinds(NumPresence(c.pricePerNight)) + Kinds(Numericality(c.pricePerNight, 0.0, false))
    // capacity: present, an integer, greater than 0
    case Capacity =>
      Kinds(NumPresence(c.capacity)) + Kinds(Numericality(c.capacity, 0.0, true))
    // location: present, no numeric check
    case Location => Kinds(TextPresence(c.location))
  }

  function Tagged(f: Field, ks: seq<ErrorKind>): (r: seq<Error>)
    ensures |r| == |ks|
  {
    if ks == [] then [] else [Error(f, ks[0])] + Tagged(f, ks[1..])
  }

  /** Tagged pairs each kind, in order, with the attribute. */
  lemma {:induction false} TaggedAt(f: Field, ks: seq<ErrorKind>, i: nat)
    requires i < |ks|
    ensures Tagged(f, ks)[i] == Error(f, ks[i])
  {
    if i > 0 {
      TaggedAt(f, ks[1..], i - 1);
    }
  }

  lemma {:induction false} TaggedMembers(g: Field, ks: seq<ErrorKind>, e: Error)
    requires e in Tagged(g, ks)
    ensures e.attribute == g && e.kind in ks
  {
    if e != Tagged(g, ks)[0] {
      TaggedMembers(g, ks[1..], e);
    }
  }

  /**
   * Every declaration runs; nothing short-circuits. An error is only ever
   * recorded on an attribute whose rule does not hold.
   */
  function Validate(c: Cabin): (r: seq<Error>)
    ensures forall e :: e in r ==> !RulePasses(c, e.attribute)
  {
    var r := Tagged(Name, FieldErrors(c, Name))
      + Tagged(PricePerNight, FieldErrors(c, PricePerNight))
      + Tagged(Capacity, FieldErrors(c, Capacity))
      + Tagged(Location, FieldErrors(c, Location));
    assert forall e :: e in r ==> !RulePasses(c, e.attribute) by {
      forall e | e in r ensures !RulePasses(c, e.attribute) {
        if e in Tagged(Name, FieldErrors(c, Name)) {
          TaggedMembers(Name, FieldErrors(c, Name), e);
        } else if e in Tagged(PricePerNight, FieldErrors(c, PricePerNight)) {
          TaggedMembers(PricePerNight, FieldErrors(c, PricePerNight), e);
        } else if e in Tagged(Capacity, FieldErrors(c, Capacity)) {
          TaggedMembers(Capacity, FieldErrors(c, Capacity), e);
        } else {
          TaggedMembers(Location, FieldErrors(c, Location), e);
        }
      }
    }
    r
  }

  /** A cabin is valid exactly when all four rules hold; there is no cross-field rule. */
  predicate Valid(c: Cabin)
    ensures Valid(c) <==>
      RulePasses(c, Name) && RulePasses(c, PricePerNight) && RulePasses(c, Capacity) && RulePasses(c, Location)
  {
    Validate(c) == []
  }

  /** The kinds of the errors recorded on attribute `f`, in order. */
  function ErrorsOn(errs: seq<Error>, f: Field): (r: seq<ErrorKind>) {
    if errs == [] then []
    else (if errs[0].attribute == f then [errs[0].kind] else []) + ErrorsOn(errs[1..], f)
  }

  /**
   * What each declaration promises, stated directly on the attribute
   * rather than through the validators.
   */
  predicate RulePasses(c: Cabin, f: Field) {
    match f
    case Name => c.name.Some? && !IsBlank(c.name.value)
    case PricePerNight =>
      c.pricePerNight.Some? && c.pricePerNight.value.Numeric? && c.pricePerNight.value.value > 0.0
    case Capacity =>
      && c.capacity.Some? && c.capacity.value.Numeric?
      && IsInteger(c.capacity.value.value) && c.capacity.value.value > 0.0
    case Location => c.location.Some? && !IsBlank(c.location.value)
  }

  /** Cabins that agree on every attribute except possibly `f`. */
  predicate AgreeExcept(c: Cabin, d: Cabin, f: Field) {
    && (f != Name ==> c.name == d.name)
    && (f != PricePerNight ==> c.pricePerNight == d.pricePerNight)
    && (f != Capacity ==> c.capacity == d.capacity)
    && (f != Location ==> c.location == d.location)
  }

  // ---------------------------------------------------------------------
  // The error collection, attribute by attribute

  lemma {:induction false} ErrorsOnAppend(a: seq<Error>, b: seq<Error>, f: Field)
    ensures ErrorsOn(a + b, f) == ErrorsOn(a, f) + ErrorsOn(b, f)
  {
    if a != [] {
      assert (a + b)[0] == a[0] && (a + b)[1..] == a[1..] + b;
      ErrorsOnAppend(a[1..], b, f);
    } else {
      assert a + b == b;
    }
  }

  lemma {:induction false} ErrorsOnTagged(g: Field, ks: seq<ErrorKind>, f: Field)
    ensures ErrorsOn(Tagged(g, ks), f) == if g == f then ks else []
  {
    if ks != [] {
      ErrorsOnTagged(g, ks[1..], f);
      assert Tagged(g, ks)[1..] == Tagged(g, ks[1..]);
    }
  }

  lemma ErrorsOnAppend4(a: seq<Error>, b: seq<Error>, d: seq<Error>, e: seq<Error>, f: Field)
    ensures ErrorsOn(a + b + d + e, f) == ErrorsOn(a, f) + ErrorsOn(b, f) + ErrorsOn(d, f) + ErrorsOn(e, f)
  {
    ErrorsOnAppend(a + b + d, e, f);
    ErrorsOnAppend(a + b, d, f);
    ErrorsOnAppend(a, b, f);
  }

  /** The errors recorded on `f` are exactly those its own declarations add. */
  lemma ErrorsOnValidate(c: Cabin, f: Field)
    ensures ErrorsOn(Validate(c), f) == FieldErrors(c, f)
  {
    var kn, kp, kc, kl := FieldErrors(c, Name), FieldErrors(c, PricePerNight), FieldErrors(c, Capacity), FieldErrors(c, Location);
    ErrorsOnAppend4(Tagged(Name, kn), Tagged(PricePerNight, kp), Tagged(Capacity, kc), Tagged(Location, kl), f);
    ErrorsOnTagged(Name, kn, f);
    ErrorsOnTagged(PricePerNight, kp, f);
    ErrorsOnTagged(Capacity, kc, f);
    ErrorsOnTagged(Location, kl, f);
    match f
    case Name => assert kn + [] + [] + [] == kn;
    case PricePerNight => assert [] + kp + [] + [] == kp;
    case Capacity => assert [] + [] + kc + [] == kc;
    case Location => assert [] + [] + [] + kl == kl;
  }

  lemma {:induction false} InErrorsOn(errs: seq<Error>, f: Field, k: ErrorKind)
    ensures Error(f, k) in errs <==> k in ErrorsOn(errs, f)
  {
    if errs != [] {
      InErrorsOn(errs[1..], f, k);
      assert errs == [errs[0]] + errs[1..];
    }
  }

  // ---------------------------------------------------------------------
  // Properties of the whole record

  /** Every violated rule is reported, not only the first, and no passing rule is. */
  lemma EveryViolationReported(c: Cabin, f: Field)
    ensures ErrorsOn(Validate(c), f) != [] <==> !RulePasses(c, f)
  {
    ErrorsOnValidate(c, f);
  }

  /** Changing one attribute changes only the errors recorded on that attribute. */
  lemma ChangeTouchesOnlyItsField(c: Cabin, d: Cabin, f: Field, g: Field)
    requires AgreeExcept(c, d, f) && g != f
    ensures ErrorsOn(Validate(d), g) == ErrorsOn(Validate(c), g)
  {
    ErrorsOnValidate(c, g);
    ErrorsOnValidate(d, g);
  }

  /** A blank name and a negative price are both reported. */
  lemma BlankNameAndNegativePriceBothReported(c: Cabin, r: real)
    requires TextIsBlank(c.name) && c.pricePerNight == Some(Numeric(r)) && r < 0.0
    ensures Error(Name, Blank) in Validate(c)
    ensures Error(PricePerNight, GreaterThan(0.0)) in Validate(c)
  {
  }

  // ---------------------------------------------------------------------
  // name

  lemma NameErrors(c: Cabin)
    ensures ErrorsOn(Validate(c), Name) == if TextIsBlank(c.name) then [Blank] else []
    ensures Error(Name, Blank) in Validate(c) <==> TextIsBlank(c.name)
    ensures TextIsBlank(c.name) ==> !Valid(c)
  {
    ErrorsOnValidate(c, Name);
    InErrorsOn(Validate(c), Name, Blank);
  }

  /** nil, the empty string and any string of white space alone all count as a missing name. */
  lemma MissingNamesRejected(c: Cabin, s: string)
    requires IsBlank(s)
    ensures !Valid(c.(name := None))
    ensures !Valid(c.(name := Some("")))
    ensures !Valid(c.(name := Some(s)))
  {
    NameErrors(c.(name := Some(s)));
  }

  // ---------------------------------------------------------------------
  // price_per_night

  /**
   * A missing price fails both presence and numericality; text that is not
   * a number fails numericality, and presence too when it is blank.
   */
  lemma PriceMissingOrNotANumber(c: Cabin)
    ensures c.pricePerNight.None? ==> ErrorsOn(Validate(c), PricePerNight) == [Blank, NotANumber]
    ensures c.pricePerNight.Some? && c.pricePerNight.value.NotNumeric? ==>
      ErrorsOn(Validate(c), PricePerNight) ==
        if IsBlank(c.pricePerNight.value.raw) then [Blank, NotANumber] else [NotANumber]
  {
    ErrorsOnValidate(c, PricePerNight);
  }

  /** A numeric price is accepted exactly when it is strictly greater than 0. */
  lemma PriceMustExceedZero(c: Cabin, r: real)
    requires c.pricePerNight == Some(Numeric(r))
    ensures ErrorsOn(Validate(c), PricePerNight) == if r > 0.0 then [] else [GreaterThan(0.0)]
  {
    ErrorsOnValidate(c, PricePerNight);
  }

  lemma PriceExamples(c: Cabin)
    ensures ErrorsOn(Validate(c.(pricePerNight := Some(Numeric(0.0)))), PricePerNight) == [GreaterThan(0.0)]
    ensures ErrorsOn(Validate(c.(pricePerNight := Some(Numeric(-10.0)))), PricePerNight) == [GreaterThan(0.0)]
    ensures ErrorsOn(Validate(c.(pricePerNight := Some(Numeric(5.00)))), PricePerNight) == []
    ensures ErrorsOn(Validate(c.(pricePerNight := Some(NotNumeric("abc")))), PricePerNight) == [NotANumber]
  {
    PriceMustExceedZero(c.(pricePerNight := Some(Numeric(0.0))), 0.0);
    PriceMustExceedZero(c.(pricePerNight := Some(Numeric(-10.0))), -10.0);
    PriceMustExceedZero(c.(pricePerNight := Some(Numeric(5.00))), 5.00);
    assert !IsWhitespace("abc"[0]);
    PriceMissingOrNotANumber(c.(pricePerNight := Some(NotNumeric("abc"))));
  }

  // ---------------------------------------------------------------------
  // capacity

  lemma CapacityMissingOrNotANumber(c: Cabin)
    ensures c.capacity.None? ==> ErrorsOn(Validate(c), Capacity) == [Blank, NotANumber]
    ensures c.capacity.Some? && c.capacity.value.NotNumeric? ==>
      ErrorsOn(Validate(c), Capacity) ==
        if IsBlank(c.capacity.value.raw) then [Blank, NotANumber] else [NotANumber]
  {
    ErrorsOnValidate(c, Capacity);
  }

  /**
   * A numeric capacity must be an integer and then strictly greater than 0;
   * a fractional capacity is reported as such and is not compared with 0.
   */
  lemma CapacityMustBePositiveInteger(c: Cabin, r: real)
    requires c.capacity == Some(Numeric(r))
    ensures ErrorsOn(Validate(c), Capacity) ==
      if !IsInteger(r) then [NotAnInteger] else if r <= 0.0 then [GreaterThan(0.0)] else []
  {
    ErrorsOnValidate(c, Capacity);
  }

  lemma CapacityExamples(c: Cabin)
    ensures ErrorsOn(Validate(c.(capacity := Some(Numeric(0.0)))), Capacity) == [GreaterThan(0.0)]
    ensures ErrorsOn(Validate(c.(capacity := Some(Numeric(-1.0)))), Capacity) == [GreaterThan(0.0)]
    ensures ErrorsOn(Validate(c.(capacity := Some(Numeric(3.5)))), Capacity) == [NotAnInteger]
    ensures ErrorsOn(Validate(c.(capacity := Some(Numeric(10.0)))), Capacity) == []
  {
    CapacityMustBePositiveInteger(c.(capacity := Some(Numeric(0.0))), 0.0);
    CapacityMustBePositiveInteger(c.(capacity := Some(Numeric(-1.0))), -1.0);
    assert (3.5).Floor == 3;
    CapacityMustBePositiveInteger(c.(capacity := Some(Numeric(3.5))), 3.5);
    CapacityMustBePositiveInteger(c.(capacity := Some(Numeric(10.0))), 10.0);
  }

  // ---------------------------------------------------------------------
  // location

  /** Location is only checked for presence: any non-blank text passes, and no numeric error is ever recorded on it. */
  lemma LocationOnlyNeedsPresence(c: Cabin)
    ensures ErrorsOn(Validate(c), Location) == if TextIsBlank(c.location) then [Blank] else []
    ensures forall e :: e in Validate(c) && e.attribute == Location ==> e.kind == Blank
  {
    ErrorsOnValidate(c, Location);
    forall e | e in Validate(c) && e.attribute == Location ensures e.kind == Blank {
      InErrorsOn(Validate(c), Location, e.kind);
    }
  }

  // ---------------------------------------------------------------------
  // The reference record

  function Reference(): (c: Cabin) {
    Cabin(Some("Ondrášová"), Some(Numeric(5.00)), Some(Numeric(10.0)), Some("Veľké Uherce, Ondrášová"))
  }

  lemma ReferenceCabinIsValid()
    ensures Valid(Reference())
  {
    var c := Reference();
    assert !IsWhitespace(c.name.value[0]);
    assert !IsWhitespace(c.location.value[0]);
  }
}
