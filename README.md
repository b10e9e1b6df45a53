# Cabin record validation

A model of the validation rules of the `Cabin` record in ChataHub, a cabin
rental application. A cabin has four business attributes: `name`,
`price_per_night` (an exact decimal), `capacity` (an integer) and `location`.
Four declarations in `app/models/cabin.rb` decide whether a cabin may be saved:

- `name` must be present;
- `price_per_night` must be present and a number greater than 0;
- `capacity` must be present, an integer, and greater than 0;
- `location` must be present, with the numeric check explicitly switched off.

The model is pure. Each declaration is a function from the cabin to the
errors it adds. `Cabins.Validate` runs all of them in declaration order and
returns every error as an `(attribute, kind)` pair. This list stands in for
the record's mutable error collection. `Cabins.Valid` holds when the list is
empty.

Files and modules:

- `wrappers.dfy` (`Wrappers`): `Option`. A nil attribute is `None`.
- `whitespace.dfy` (`Whitespace`): the blank test. A string is blank when
  every character has the Unicode White_Space property. This is the
  `[[:space:]]` class that the framework's `blank?` matches. The empty
  string is blank.
- `validators.dfy` (`Validators`): the `presence` and `numericality`
  validators as the declarations use them. Numeric input is already
  classified, either as `Numeric(r)` with `r` an exact `real` or as
  `NotNumeric(raw)`.
- `cabin.dfy` (`Cabins`): the record, the four declarations, `Validate`,
  `Valid`, and the properties.

How the framework's validators behave, as modelled:

- **Presence** rejects `nil` and blank text. On a numeric column the check
  runs after the column's cast. Blank text casts to `nil` and is rejected.
  A number is never blank. Non-blank text that does not parse as a number
  still casts to a number (its leading numeric part, or 0), so it passes the
  presence check.
- **Numericality** is declared without `allow_nil`. A missing price or
  capacity therefore gets two errors: `Blank` from presence and `NotANumber`
  from numericality (`PriceMissingOrNotANumber`,
  `CapacityMissingOrNotANumber`).
- **Numericality** stops at its first failure. The order is: not a number,
  then not an integer (for `only_integer`), then the `greater_than` bound.
  A capacity of 3.5 is reported as `NotAnInteger` only, and is never also
  compared with the bound (`CapacityMustBePositiveInteger`).
- **`numericality: false`** removes that validator entirely. Location is
  only checked for presence.

A string is blank exactly when removing its leading White_Space
characters leaves nothing (`Whitespace.BlankIffTrimsToEmpty`). Trimming
here removes the same White_Space set that the blank test uses. This is
not the same as a `strip` that removes only ASCII white space: a
no-break space alone is blank but survives such a `strip`.

Validation is deterministic because `Validate` is a function of the record
alone. Validating the same record twice therefore gives the same result by
construction.

## Model

| member | source | states |
|---|---|---|
| `Cabins.FieldErrors` | app/models/cabin.rb:15-18 | the four `validates` declarations, one attribute at a time: an attribute's declarations add no error exactly when the attribute satisfies its rule, stated directly on the value |
| `Validators.TextPresence` | app/models/cabin.rb:15 | `presence: true` on text adds no error exactly when the value is non-nil and has a non-white-space character; otherwise it adds `Blank` and nothing else |
| `Validators.NumPresence` | app/models/cabin.rb:16-17 | `presence: true` on a numeric column: nil is blank, a number never is, and non-numeric text is present exactly when it has a non-white-space character |
| `Validators.Numericality` | app/models/cabin.rb:16-17 | no error exactly when the value is a number, integral if `only_integer`, and greater than the bound; `NotANumber` exactly for nil or non-numeric input; `NotAnInteger` exactly for a fractional number under `only_integer`; otherwise only `GreaterThan(bound)` |
| `Cabins.Validate` | app/models/cabin.rb:15-18 | every recorded error is on an attribute whose rule does not hold |
| `Cabins.ErrorsOnValidate` | app/models/cabin.rb:15-18 | the errors recorded on an attribute are exactly those its own declaration adds, in order, and no other declaration adds to them |
| `Cabins.Valid` | app/models/cabin.rb:15-18 | `valid?`: a cabin is valid exactly when all four attribute rules hold; there is no cross-field condition |
| `Cabins.MissingNamesRejected` | spec/models/cabin_spec.rb:34 | a nil name, an empty name, and any name made only of white space each make the cabin invalid |
| `Cabins.EveryViolationReported` | app/models/cabin.rb:15-18 | an attribute has errors exactly when its rule is violated, so every violation is reported and not only the first |
| `Cabins.ChangeTouchesOnlyItsField` | app/models/cabin.rb:15-18 | two cabins that differ only in one attribute have the same errors on every other attribute |
| `Cabins.BlankNameAndNegativePriceBothReported` | app/models/cabin.rb:15-16 | a cabin with a blank name and a negative price has both a `Blank` error on name and a `GreaterThan(0)` error on price |
| `Cabins.NameErrors` | app/models/cabin.rb:15 | name has the single error `Blank` exactly when it is nil or blank, and such a cabin is invalid |
| `Whitespace.IsBlank` | app/models/cabin.rb:15 | `blank?` on a string, computed by scanning from the front, holds exactly when every character has the White_Space property (the empty string included) |
| `Whitespace.BlankIffTrimsToEmpty` | app/models/cabin.rb:15 | a string is blank exactly when removing its leading White_Space characters leaves the empty string |
| `Validators.TextIsBlank` | app/models/cabin.rb:15-18 | `blank?` on a text attribute: a value is present (not blank) exactly when it is non-nil and has a character outside White_Space |
| `Validators.NumIsBlank` | app/models/cabin.rb:16-17 | `blank?` on a numeric attribute after the column's cast: nil is blank, a number never is, and unparsable text is present exactly when it has a character outside White_Space |
| `Cabins.PriceMissingOrNotANumber` | app/models/cabin.rb:16 | a missing price has errors `Blank` and `NotANumber`; non-numeric text has `NotANumber`, preceded by `Blank` when the text is blank |
| `Cabins.PriceMustExceedZero` | app/models/cabin.rb:16 | a numeric price has no error when it is greater than 0 and the single error `GreaterThan(0)` otherwise, so 0 is rejected |
| `Cabins.PriceExamples` | spec/models/cabin_spec.rb:44-54 | prices 0 and -10 are rejected with `GreaterThan(0)`, 5.00 is accepted, and "abc" is rejected with `NotANumber` |
| `Cabins.CapacityMissingOrNotANumber` | app/models/cabin.rb:17 | a missing capacity has errors `Blank` and `NotANumber`; non-numeric text has `NotANumber`, preceded by `Blank` when the text is blank |
| `Cabins.CapacityMustBePositiveInteger` | app/models/cabin.rb:17 | a numeric capacity with a fractional part has only `NotAnInteger`; an integral one has `GreaterThan(0)` when it is not positive and no error otherwise |
| `Cabins.CapacityExamples` | spec/models/cabin_spec.rb:57-61 | capacities 0 and -1 are rejected with `GreaterThan(0)`, 3.5 is rejected with `NotAnInteger`, and 10 is accepted |
| `Cabins.LocationOnlyNeedsPresence` | app/models/cabin.rb:18 | location has the error `Blank` exactly when it is nil or blank, any non-blank text passes, and no other kind of error is ever recorded on location |
| `Cabins.ReferenceCabinIsValid` | spec/models/cabin_spec.rb:18-26 | the cabin ("Ondrášová", 5.00, 10, "Veľké Uherce, Ondrášová") is valid |

## Left out

- Persistence: `id`, `created_at` and `updated_at` are set by the database layer and are not part of validation. The migration is used only to choose the attribute types.
- Casting of submitted form text into numbers: input arrives already classified as `Numeric(r)` or `NotNumeric(raw)`. Floating-point inputs, NaN and infinities are not modelled. Decimals are exact `real`s.
- Cabins.CapacityMustBePositiveInteger: the framework decides whether a number is an integer from the textual form of the raw input, so a capacity submitted as the float 10.0 is rejected. The model decides from the value, which accepts it.
- Localised error messages and the `count` interpolation: errors are (attribute, kind) pairs.
- The empty factory in `spec/factories/cabins.rb`, HTTP handling, and concurrency. Validation has no shared state.
