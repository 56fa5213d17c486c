/**
 * The list validator: the value must be an array, and its element count
 * must lie within the bounds given by `elementcount` (a `[low, high]`
 * range), `minelements` and `maxelements`.
 */
module ListValidation {
  import opened Optional
  import opened Values
  import opened Options
  import opened Errors
  import opened BoundsResolver

  const NotAnArrayError := Error("Not an array", None)
  const ListKeys := BoundKeys("elementcount", "minelements", "maxelements", PairOnly)

  /**
   * The outcome of validating `value` under `opts`: the type check comes
   * first and stops everything else; then the bounds are resolved (a
   * malformed option throws) and the element count is checked.
   */
  function ListOutcome(value: Value, opts: Options): (r: Outcome)
    ensures r.ConfigError? <==> value.Arr? && Malformed(opts, ListKeys)
    ensures r.Ok? ==> |r.result.errors| <= 2 && (r.result.IsValid() ==> value.Arr?)
  {
    if !value.Arr? then Ok(Result([NotAnArrayError]))
    else
      match Resolve(opts, ListKeys)
      case None => ConfigError
      case Some(b) => Ok(Result(BoundErrors(|value.elems|, b)))
  }

  /** A validator object: options are set once, then `Validate` collects errors. */
  class ListValidator {
    var options: Options
    var errors: seq<Error>

    constructor ()
      ensures options == map[] && errors == []
    {
      options := map[];
      errors := [];
    }

    /** Stores the options; nothing is checked until `Validate`. */
    method SetOptions(opts: Options)
      modifies this`options
      ensures options == opts
    {
      options := opts;
    }

    /**
     * Starts from no errors, appends the errors of each check in order and
     * returns them; a malformed bound option is a usage error instead.
     */
    method Validate(value: Value) returns (r: Outcome)
      modifies this`errors
      ensures r == ListOutcome(value, options)
      ensures r.Ok? ==> errors == r.result.errors
    {
      errors := [];
      if !value.Arr? {
        errors := errors + [NotAnArrayError];
      } else {
        var bounds := Resolve(options, ListKeys);
        if bounds.None? {
          return ConfigError;
        }
        errors := AppendBoundErrors(errors, |value.elems|, bounds.value);
      }
      r := Ok(Result(errors));
    }
  }

  /** The call sequence of one test: a fresh validator, `SetOptions`, `Validate`. */
  method RunListValidator(value: Value, opts: Options) returns (r: Outcome)
    ensures r == ListOutcome(value, opts)
  {
    var validator := new ListValidator();
    validator.SetOptions(opts);
    r := validator.Validate(value);
  }

  /** A value that is not an array draws exactly `Not an array`, whatever the options. */
  lemma NotAnArrayShortCircuits(value: Value, opts: Options)
    requires !value.Arr?
    ensures ListOutcome(value, opts).Ok?
    ensures ListOutcome(value, opts).result.errors == [NotAnArrayError]
    ensures NotAnArrayError.code == None
  {
  }

  /** An array with no options is always valid. */
  lemma NoOptionsAcceptsEveryArray(elems: seq<Value>)
    ensures ListOutcome(Value.Arr(elems), map[]) == Ok(Result([]))
  {
  }

  /** Validation throws exactly when the value is an array and a bound option is malformed. */
  lemma ListUsageErrorIff(value: Value, opts: Options)
    ensures ListOutcome(value, opts) == ConfigError <==> value.Arr? && Malformed(opts, ListKeys)
  {
  }

  /**
   * With `elementcount = [low, high]` alone, the count draws the upper-bound
   * error exactly when it exceeds `high` (also when `high` is 0) and the
   * lower-bound error exactly when it is below `low`, upper first.
   */
  lemma ElementCountRange(elems: seq<Value>, low: int, high: int)
    ensures var r := ListOutcome(Value.Arr(elems), map["elementcount" := OptVal.Arr([low, high])]);
      && r.Ok?
      && (UpperBoundError in r.result.errors <==> |elems| > high)
      && (LowerBoundError in r.result.errors <==> |elems| < low)
      && (r.result.errors == [] <==> low <= |elems| <= high)
      && (|r.result.errors| == 2 ==> r.result.errors == [UpperBoundError, LowerBoundError])
  {
    BoundErrorsMeaning(|elems|, Bounds(Some(low), Some(high)));
  }

  /** `minelements` and `maxelements` together act exactly like `elementcount`. */
  lemma SeparateBoundsActLikeRange(value: Value, low: int, high: int)
    ensures ListOutcome(value, map["minelements" := OptVal.Int(low), "maxelements" := OptVal.Int(high)])
         == ListOutcome(value, map["elementcount" := OptVal.Arr([low, high])])
  {
  }

  /**
   * A present `minelements` replaces the lower side of `elementcount` and
   * keeps its upper side; symmetrically for `maxelements`.  (A malformed
   * side option makes both validations throw.)
   */
  lemma SeparateOptionOverridesRange(value: Value, low: int, high: int, side: OptVal)
    ensures ListOutcome(value, map["elementcount" := OptVal.Arr([low, high]), "minelements" := side])
         == ListOutcome(value, map["minelements" := side, "maxelements" := OptVal.Int(high)])
    ensures ListOutcome(value, map["elementcount" := OptVal.Arr([low, high]), "maxelements" := side])
         == ListOutcome(value, map["minelements" := OptVal.Int(low), "maxelements" := side])
  {
  }

  /** Options the list validator does not know are ignored. */
  lemma ListIgnoresOtherKeys(value: Value, opts: Options, k: string, v: OptVal)
    requires k !in {"elementcount", "minelements", "maxelements"}
    ensures ListOutcome(value, opts[k := v]) == ListOutcome(value, opts)
  {
    ResolveIgnoresOtherKeys(opts, ListKeys, k, v);
  }
}
