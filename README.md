# ValueValidators: list, string and title validators

A model of three option-driven value validators of the PHP ValueValidators
library, and proofs about them. The library's behaviour is fixed by the
fixture tables of its PHPUnit tests, so the model is a reference
implementation that agrees with every fixture row. Each row is proved as a
lemma. General properties of ordering, precedence and short-circuiting are
proved beside them.

A caller builds a validator, calls `setOptions` with a PHP array of options
and then calls `validate(value)`. The result is an ordered list of errors.
Each error has a message and an optional code. No errors means the value is
valid. A malformed option makes `validate` throw, and then there is no
result.

- `optional.dfy`, `values.dfy`, `errors.dfy`, `options.dfy`: the data model.
  Values are `null`, integers, booleans, strings, arrays and page titles.
  Option values are `null`, booleans, integers, strings and integer arrays.
  Options are a map, and `Options.FromPairs` gives PHP's meaning to an array
  literal `array(k => v, ...)`. Errors, results and outcomes live in
  `errors.dfy`. An outcome is `Ok(result)` or `ConfigError`, the thrown
  exception.
- `bounds.dfy` (module `BoundsResolver`): the bounds logic that the list and
  string validators share. A range option (`elementcount`, `length`) sets
  both sides. A present `min*`/`max*` option replaces its own side, even
  when its value is `null`, `false` or `0`. `null` and `false` mean
  unbounded. An integer, `0` included, is taken literally. The measured
  count or length is checked against each side on its own. The upper-bound
  error comes before the lower-bound error. Both are coded `length`.
- `list_validator.dfy`, `string_validator.dfy`, `title_validator.dfy`: one
  module per validator. Each has a specification function (`ListOutcome`,
  `StringOutcome`, `TitleErrors`). Each has a class with an `options` field
  and an `errors` field. `SetOptions` stores the options. `Validate` resets
  the errors, appends the error of each check in order, and is proved equal
  to the specification function. A `Run…` method performs one test's call
  sequence on a fresh object.
- `list_fixtures.dfy`, `string_fixtures.dfy`, `title_fixtures.dfy`: the
  fixture rows.

Two fixture facts shape the bounds logic. An upper bound of `0` is
literal: `maxelements 0` and `elementcount [0, 0]` reject `[1]`
(tests/ValueValidators/ListValidatorTest.php:117-121, 144-148). A present
`minelements`/`maxelements` overrides that side of `elementcount`, in either
key order (tests/ValueValidators/ListValidatorTest.php:181-216).

Choices the fixtures leave open. Each is marked in the contracts below.
- A `min*`/`max*` option replaces only its own side. The range still gives
  the other side (`SeparateOptionOverridesRange`).
- A string that fails both the bounds and the pattern gets both kinds of
  error, bound errors first (`StringChecksAccumulate`).
- The type check runs before the options are read. So a non-array with a
  malformed `elementcount` still gets `Not an array`.
- A `min*`/`max*` value of `true`, a string or an array is a usage error. So
  is a `regex` that is not a string. So is a `length` that is neither an
  integer nor a two-element array.
- `hastoexist` is read as a PHP boolean, and an absent key counts as false.
- Negative integers in bound options are taken literally.

## Model

| member | source | states |
|---|---|---|
| `Options.FromPairs` | tests/ValueValidators/ListValidatorTest.php:172-216 | an options array literal has exactly the keys written in it |
| `Options.FromPairsLastWins` | tests/ValueValidators/ListValidatorTest.php:182-216 | the value stored for a key is the one of its last entry in the literal |
| `Options.FromPairsOfTwo` | tests/ValueValidators/ListValidatorTest.php:173-174 | a two-entry options literal stores both entries, the second one last |
| `Options.FromPairsOrderIrrelevant` | tests/ValueValidators/ListValidatorTest.php:192-216 | reordering the distinct-key entries of an options literal gives the same options, so key order never matters |
| `BoundsResolver.RangeBounds` | tests/ValueValidators/ListValidatorTest.php:30-38 | a range option is well formed exactly when it is a two-element array (or, for `length`, an integer `n`, read as `[n, n]`); then its elements are the lower and upper bound |
| `BoundsResolver.SideBound` | tests/ValueValidators/ListValidatorTest.php:85-126 | a separate bound option of `null` or `false` leaves its side unbounded, an integer is the bound itself (0 included), anything else is a usage error |
| `BoundsResolver.Resolve` | tests/ValueValidators/ListValidatorTest.php:20-38 | bounds resolution fails exactly when the range option or a separate bound option is malformed |
| `BoundsResolver.Malformed` | tests/ValueValidators/ListValidatorTest.php:20-38 | a usage error needs a bound option to be present: absent options never make resolution fail |
| `BoundsResolver.ResolvePrecedence` | tests/ValueValidators/ListValidatorTest.php:181-216 | a present min/max option decides its side whatever the range says; otherwise the range decides; with neither the side is unbounded |
| `BoundsResolver.ResolveIgnoresOtherKeys` | tests/ValueValidators/ListValidatorTest.php:44-47 | options other than the three bound keys do not affect the resolved bounds |
| `BoundsResolver.BoundErrors` | tests/ValueValidators/ListValidatorTest.php:128-179 | no bound error exactly when neither side is violated; when two errors arise they are the upper-bound error and then the lower-bound error |
| `BoundsResolver.BoundErrorsMeaning` | tests/ValueValidators/ListValidatorTest.php:128-179 | each side is reported exactly when violated, with the `length` code, at most once; no error exactly when within both bounds; when both fail, upper comes before lower |
| `BoundsResolver.InvertedBoundsRejectAll` | tests/ValueValidators/ListValidatorTest.php:154-171 | a lower bound above the upper bound is not a usage error, but every count draws an error: only the lower one at or below the upper bound, only the upper one at or above the lower bound |
| `BoundsResolver.ZeroUpperBoundIsLiteral` | tests/ValueValidators/ListValidatorTest.php:112-121 | an upper bound of 0 rejects exactly the non-zero counts |
| `BoundsResolver.AppendBoundErrors` | tests/ValueValidators/ListValidatorTest.php:164-179 | checking the upper and then the lower bound appends exactly the bound errors, in order, to the errors so far |
| `ListValidation.ListOutcome` | tests/ValueValidators/ListValidatorTest.php:56-217 | the list validator's outcome throws exactly when the value is an array and a bound option is malformed; otherwise at most two errors, and a valid outcome means the value is an array |
| `ListValidation.ListValidator.constructor` | tests/ValueValidators/ListValidatorTest.php:45 | a new list validator has no options and no errors |
| `ListValidation.ListValidator.SetOptions` | tests/ValueValidators/ListValidatorTest.php:46 | stores the options and checks nothing, so a malformed range only fails at validation |
| `ListValidation.ListValidator.Validate` | tests/ValueValidators/ListValidatorTest.php:47-53 | returns the list validator's outcome for the value under the stored options, and leaves exactly its errors in the object |
| `ListValidation.RunListValidator` | tests/ValueValidators/ListValidatorTest.php:44-54 | construct, set options, validate yields exactly the specified outcome |
| `ListValidation.NotAnArrayShortCircuits` | tests/ValueValidators/ListValidatorTest.php:58-72 | a non-array draws exactly one code-less `Not an array` error, whatever the options |
| `ListValidation.NoOptionsAcceptsEveryArray` | tests/ValueValidators/ListValidatorTest.php:73-82 | every array is valid without options |
| `ListValidation.ListUsageErrorIff` | tests/ValueValidators/ListValidatorTest.php:23-38 | validation throws exactly when the value is an array and a bound option is malformed |
| `ListValidation.ElementCountRange` | tests/ValueValidators/ListValidatorTest.php:128-171 | with `elementcount [low, high]` the upper error appears iff count > high, the lower error iff count < low, valid iff low <= count <= high, upper first |
| `ListValidation.SeparateBoundsActLikeRange` | tests/ValueValidators/ListValidatorTest.php:164-179 | `minelements low, maxelements high` gives the same outcome as `elementcount [low, high]` for every value |
| `ListValidation.SeparateOptionOverridesRange` | tests/ValueValidators/ListValidatorTest.php:181-216 | for any option value, a present `minelements` replaces the range's lower side and keeps its upper side; symmetrically for `maxelements` |
| `ListValidation.ListIgnoresOtherKeys` | tests/ValueValidators/ListValidatorTest.php:44-47 | adding an option the list validator does not know changes nothing |
| `ListFixtures.InvalidRangeRows` | tests/ValueValidators/ListValidatorTest.php:30-38 | each malformed `elementcount` throws during validation |
| `ListFixtures.NotAnArrayRows` | tests/ValueValidators/ListValidatorTest.php:58-72 | the fixture rows for `null`, `0` and `''` |
| `ListFixtures.NoOptionsRows` | tests/ValueValidators/ListValidatorTest.php:73-82 | the fixture rows for arrays without options |
| `ListFixtures.LowerBoundOnlyRows` | tests/ValueValidators/ListValidatorTest.php:84-104 | the `minelements` fixture rows |
| `ListFixtures.UpperBoundOnlyRows` | tests/ValueValidators/ListValidatorTest.php:106-126 | the `maxelements` fixture rows |
| `ListFixtures.LowerAndUpperBoundRows` | tests/ValueValidators/ListValidatorTest.php:128-179 | the `elementcount` and combined min/max fixture rows, with upper-before-lower order |
| `ListFixtures.ConflictingLowerBoundRows` | tests/ValueValidators/ListValidatorTest.php:182-201 | the rows where `minelements` overrides `elementcount`, in both key orders |
| `ListFixtures.ConflictingUpperBoundRows` | tests/ValueValidators/ListValidatorTest.php:202-216 | the rows where `maxelements` overrides `elementcount`, in both key orders |
| `StringValidation.RegexMismatchError` | tests/ValueValidators/StringValidatorTest.php:86-90 | the mismatch message is the fixed prefix followed by the pattern itself, with no code |
| `StringValidation.RegexErrors` | tests/ValueValidators/StringValidatorTest.php:86-95 | the `regex` check adds at most one error, exactly when the pattern does not match; a non-string pattern is a usage error |
| `StringValidation.StringOutcome` | tests/ValueValidators/StringValidatorTest.php:34-97 | the string validator's outcome throws only for a string value; otherwise at most three errors, and a valid outcome means the value is a string |
| `StringValidation.StringValidator.constructor` | tests/ValueValidators/StringValidatorTest.php:24 | a new string validator has no options and no errors |
| `StringValidation.StringValidator.SetOptions` | tests/ValueValidators/StringValidatorTest.php:25 | stores the options |
| `StringValidation.StringValidator.Validate` | tests/ValueValidators/StringValidatorTest.php:26-31 | returns the string validator's outcome for the value under the stored options, and leaves exactly its errors in the object |
| `StringValidation.RunStringValidator` | tests/ValueValidators/StringValidatorTest.php:23-32 | construct, set options, validate yields exactly the specified outcome |
| `StringValidation.NotAStringShortCircuits` | tests/ValueValidators/StringValidatorTest.php:36-40 | a non-string draws exactly one code-less `Not a string` error, whatever the options |
| `StringValidation.NoOptionsAcceptsEveryString` | tests/ValueValidators/StringValidatorTest.php:41-45 | every string, the empty one included, is valid without options |
| `StringValidation.ScalarLengthIsExact` | tests/ValueValidators/StringValidatorTest.php:46-65 | `length n` accepts exactly the strings of length n; shorter ones draw only the lower error, longer ones only the upper error |
| `StringValidation.SeparateLengthBounds` | tests/ValueValidators/StringValidatorTest.php:66-85 | `minlength n` alone draws the lower error iff length < n; `maxlength n` alone draws the upper error iff length > n, also for 0 |
| `StringValidation.RegexOnly` | tests/ValueValidators/StringValidatorTest.php:86-95 | with `regex` alone a string is valid iff it matches, otherwise it draws exactly the mismatch error |
| `StringValidation.StringChecksAccumulate` | tests/ValueValidators/StringValidatorTest.php:26-31 | the errors of a string are exactly its bound errors followed by the mismatch error when the pattern fails; each bound error appears iff its side is violated, whatever the match; at most three errors, the mismatch error last |
| `StringValidation.StringUsageErrorIff` | tests/ValueValidators/StringValidatorTest.php:34-97 | validation throws exactly when the value is a string and a bound option is malformed or `regex` is not a string |
| `StringValidation.StringIgnoresOtherKeys` | tests/ValueValidators/StringValidatorTest.php:25-26 | adding an option the string validator does not know changes nothing |
| `StringFixtures.TypeAndLengthRows` | tests/ValueValidators/StringValidatorTest.php:36-65 | the type-check and scalar `length` fixture rows |
| `StringFixtures.MinMaxLengthRows` | tests/ValueValidators/StringValidatorTest.php:66-85 | the `minlength` and `maxlength` fixture rows |
| `StringFixtures.RegexRows` | tests/ValueValidators/StringValidatorTest.php:86-95 | the `regex` fixture rows, given that `/^$/` matches `''` and not `'1'` |
| `Options.Truthy` | tests/ValueValidators/TitleValidatorTest.php:45-57 | PHP's boolean reading of an option: `null`, `false`, `0` and `''` are false, `true` is true |
| `TitleValidation.HasToExist` | tests/ValueValidators/TitleValidatorTest.php:25 | the page must exist when `hastoexist` is `true`, and never when the key is absent |
| `TitleValidation.TitleErrors` | tests/ValueValidators/TitleValidatorTest.php:43-59 | at most one error, and none exactly when the value is a title that exists or that need not exist |
| `TitleValidation.TitleValidator.constructor` | tests/ValueValidators/TitleValidatorTest.php:24 | a new title validator has no options and no errors |
| `TitleValidation.TitleValidator.SetOptions` | tests/ValueValidators/TitleValidatorTest.php:25 | stores the options |
| `TitleValidation.TitleValidator.Validate` | tests/ValueValidators/TitleValidatorTest.php:26-31 | returns the title validator's errors for the value under the stored options, and leaves them in the object |
| `TitleValidation.RunTitleValidator` | tests/ValueValidators/TitleValidatorTest.php:23-32 | construct, set options, validate yields exactly the specified errors |
| `TitleValidation.AtMostOneTitleError` | tests/ValueValidators/TitleValidatorTest.php:28-31 | each title validation yields at most one error, and none has a code |
| `TitleValidation.NotATitleShortCircuits` | tests/ValueValidators/TitleValidatorTest.php:44-48 | a non-title draws exactly `Not a title`, whatever the options |
| `TitleValidation.TitleRejectedIff` | tests/ValueValidators/TitleValidatorTest.php:49-58 | a title is rejected iff `hastoexist` is set and `exists()` is false, and then with `Title does not exist` alone |
| `TitleValidation.ExistenceIgnoredUnlessRequired` | tests/ValueValidators/TitleValidatorTest.php:35-41 | without `hastoexist` the answer of `exists()` is irrelevant and every title is valid |
| `TitleFixtures.TitleRows` | tests/ValueValidators/TitleValidatorTest.php:43-59 | the three fixture rows, with a mock title whose `exists()` is false |

## Left out

- The PHPUnit harness, data providers and mock builder. The mock title is the value `Title(false)`.
- Regular-expression matching (`preg_match`). It is a `Matcher` parameter. Only the message text and the match/no-match answer are modelled. An invalid pattern, which PHP would report, is not distinguished from a mismatch.
- The real `Title` class and its database-backed `exists()`. A title is the answer `exists()` gives.
- Multibyte string length. A string's length is its number of characters.
- The exception class that a usage error throws. It is the single `ConfigError` outcome.
- Lower-casing of option names. The fixtures use lower-case names only, and the model takes keys as given.
- SeparateOptionOverridesRange: that the other side of the range still applies is a modelling choice. No fixture tests it.
- StringChecksAccumulate: that bound and pattern errors accumulate is a modelling choice. No fixture tests it.
