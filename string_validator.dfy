/**
 * The string validator: the value must be a string, its length must lie
 * within the bounds given by `length` (a single integer `n`, standing for
 * `[n, n]`, or a `[low, high]` range), `minlength` and `maxlength`, and it
 * must match the pattern given by `regex`.
 *
 * Regular-expression matching is a parameter: `matches(pattern, subject)`
 * is the answer of PHP's `preg_match`, whose engine is not modelled.
 */
module StringValidation {
  import opened Optional
  import opened Values
  import opened Options
  import opened Errors
  import opened BoundsResolver

  const NotAStringError := Error("Not a string", None)
  const RegexMismatchPrefix := "String does not match the regular expression "
  const StringKeys := BoundKeys("length", "minlength", "maxlength", PairOrScalar)
  const RegexKey := "regex"

  /** `matches(pattern, subject)`: whether the subject matches the pattern. */
  type Matcher = (string, string) -> bool

  /** The error for a subject that does not match `pattern`: it quotes the pattern and has no code. */
  function RegexMismatchError(pattern: string): (e: Error)
    ensures e.code == None
    ensures |e.message| == |RegexMismatchPrefix| + |pattern|
    ensures e.message[..|RegexMismatchPrefix|] == RegexMismatchPrefix
    ensures e.message[|RegexMismatchPrefix|..] == pattern
  {
    Error(RegexMismatchPrefix + pattern, None)
  }

  /** The error the `regex` option adds, or `None` when the option is not a pattern string. */
  function RegexErrors(opts: Options, subject: string, matches: Matcher): (r: Option<seq<Error>>)
    ensures r.None? <==> RegexKey in opts && !opts[RegexKey].Str?
    ensures r.Some? ==> |r.value| <= 1
    ensures r.Some? && r.value != [] ==>
              RegexKey in opts && !matches(opts[RegexKey].s, subject)
              && r.value == [RegexMismatchError(opts[RegexKey].s)]
    ensures RegexKey in opts && opts[RegexKey].Str? && !matches(opts[RegexKey].s, subject) ==> r.Some? && r.value != []
  {
    if RegexKey !in opts then Some([])
    else
      match opts[RegexKey]
      case Str(pattern) => if matches(pattern, subject) then Some([]) else Some([RegexMismatchError(pattern)])
      case _ => None
  }

  /**
   * The outcome of validating `value` under `opts`: the type check comes
   * first and stops everything else; then the length is checked against
   * the resolved bounds, then the pattern; the errors of both checks are
   * kept, bound errors first.
   */
  function StringOutcome(value: Value, opts: Options, matches: Matcher): (r: Outcome)
    ensures r.ConfigError? ==> value.Str?
    ensures r.Ok? ==> |r.result.errors| <= 3 && (r.result.IsValid() ==> value.Str?)
  {
    if !value.Str? then Ok(Result([NotAStringError]))
    else
      match Resolve(opts, StringKeys)
      case None => ConfigError
      case Some(b) =>
        match RegexErrors(opts, value.s, matches)
        case None => ConfigError
        case Some(regexErrors) => Ok(Result(BoundErrors(|value.s|, b) + regexErrors))
  }

  /** A validator object: options are set once, then `Validate` collects errors. */
  class StringValidator {
    var options: Options
    var errors: seq<Error>

    constructor ()
      ensures options == map[] && errors == []
    {
      options := map[];
      errors := [];
    }

    /** Stores the options; nothing is checked until `Validate`. */
    method SetOptions(opts: Options)
      modifies this`options
      ensures options == opts
    {
      options := opts;
    }

    /**
     * Starts from no errors, appends the errors of each check in order and
     * returns them; a malformed option is a usage error instead.
     */
    method Validate(value: Value, matches: Matcher) returns (r: Outcome)
      modifies this`errors
      ensures r == StringOutcome(value, options, matches)
      ensures r.Ok? ==> errors == r.result.errors
    {
      errors := [];
      if !value.Str? {
        errors := errors + [NotAStringError];
        return Ok(Result(errors));
      }
      var bounds := Resolve(options, StringKeys);
      if bounds.None? {
        return ConfigError;
      }
      errors := AppendBoundErrors(errors, |value.s|, bounds.value);
      if RegexKey in options {
        if !options[RegexKey].Str? {
          return ConfigError;
        }
        var pattern := options[RegexKey].s;
        if !matches(pattern, value.s) {
          errors := errors + [RegexMismatchError(pattern)];
        }
      }
      r := Ok(Result(errors));
    }
  }

  /** The call sequence of one test: a fresh validator, `SetOptions`, `Validate`. */
  method RunStringValidator(value: Value, opts: Options, matches: Matcher) returns (r: Outcome)
    ensures r == StringOutcome(value, opts, matches)
  {
    var validator := new StringValidator();
    validator.SetOptions(opts);
    r := validator.Validate(value, matches);
  }

  /** A value that is not a string draws exactly `Not a string`, whatever the options. */
  lemma NotAStringShortCircuits(value: Value, opts: Options, matches: Matcher)
    requires !value.Str?
    ensures StringOutcome(value, opts, matches).Ok?
    ensures StringOutcome(value, opts, matches).result.errors == [NotAStringError]
    ensures NotAStringError.code == None
  {
  }

  /** A string with no options is always valid. */
  lemma NoOptionsAcceptsEveryString(s: string, matches: Matcher)
    ensures StringOutcome(Value.Str(s), map[], matches) == Ok(Result([]))
  {
  }

  /**
   * A scalar `length n` demands exactly `n` characters: a shorter string
   * draws only the lower-bound error and a longer one only the upper-bound
   * error (`length 0` admits only the empty string).
   */
  lemma ScalarLengthIsExact(s: string, n: int, matches: Matcher)
    ensures var r := StringOutcome(Value.Str(s), map["length" := OptVal.Int(n)], matches);
      && r.Ok?
      && (|s| == n ==> r.result.errors == [])
      && (|s| < n ==> r.result.errors == [LowerBoundError])
      && (|s| > n ==> r.result.errors == [UpperBoundError])
  {
  }

  /**
   * `minlength` alone demands at least that many characters and `maxlength`
   * alone at most that many, `0` included.
   */
  lemma SeparateLengthBounds(s: string, n: int, matches: Matcher)
    ensures StringOutcome(Value.Str(s), map["minlength" := OptVal.Int(n)], matches)
         == Ok(Result(if |s| < n then [LowerBoundError] else []))
    ensures StringOutcome(Value.Str(s), map["maxlength" := OptVal.Int(n)], matches)
         == Ok(Result(if |s| > n then [UpperBoundError] else []))
  {
  }

  /** `regex` alone: a match is valid, a mismatch draws the one error that quotes the pattern. */
  lemma RegexOnly(s: string, pattern: string, matches: Matcher)
    ensures var r := StringOutcome(Value.Str(s), map[RegexKey := OptVal.Str(pattern)], matches);
      && r.Ok?
      && (r.result.errors == [] <==> matches(pattern, s))
      && (!matches(pattern, s) ==> r.result.errors == [RegexMismatchError(pattern)])
  {
  }

  /**
   * The checks accumulate: a string failing the bounds and the pattern
   * draws the bound errors and then the pattern error, so that at most
   * three errors arise and the pattern error is last.
   */
  lemma StringChecksAccumulate(s: string, opts: Options, matches: Matcher)
    requires StringOutcome(Value.Str(s), opts, matches).Ok?
    ensures var errs := StringOutcome(Value.Str(s), opts, matches).result.errors;
      && |errs| <= 3
      && (RegexKey in opts && !matches(opts[RegexKey].s, s) ==>
            errs[|errs| - 1] == RegexMismatchError(opts[RegexKey].s))
      && (forall i :: 0 <= i < |errs| - 1 ==> errs[i] == UpperBoundError || errs[i] == LowerBoundError)
      && (AboveUpper(|s|, Resolve(opts, StringKeys).value) <==> UpperBoundError in errs)
      && (BelowLower(|s|, Resolve(opts, StringKeys).value) <==> LowerBoundError in errs)
      && errs == BoundErrors(|s|, Resolve(opts, StringKeys).value)
                 + (if RegexKey in opts && !matches(opts[RegexKey].s, s)
                    then [RegexMismatchError(opts[RegexKey].s)] else [])
  {
    var b := Resolve(opts, StringKeys).value;
    BoundErrorsMeaning(|s|, b);
  }

  /**
   * Validation throws exactly when the value is a string and a bound
   * option is malformed or the `regex` option is not a string.
   */
  lemma StringUsageErrorIff(value: Value, opts: Options, matches: Matcher)
    ensures StringOutcome(value, opts, matches) == ConfigError
        <==> value.Str? && (Malformed(opts, StringKeys) || (RegexKey in opts && !opts[RegexKey].Str?))
  {
  }

  /** Options the string validator does not know are ignored. */
  lemma StringIgnoresOtherKeys(value: Value, opts: Options, matches: Matcher, k: string, v: OptVal)
    requires k !in {"length", "minlength", "maxlength", RegexKey}
    ensures StringOutcome(value, opts[k := v], matches) == StringOutcome(value, opts, matches)
  {
    ResolveIgnoresOtherKeys(opts, StringKeys, k, v);
  }
}
