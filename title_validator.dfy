/**
 * The title validator: the value must be a page title and, when the
 * `hastoexist` option is set, the page must exist.  The title is asked
 * only `exists()`, and only when `hastoexist` is set.
 */
module TitleValidation {
  import opened Optional
  import opened Values
  import opened Options
  import opened Errors

  const NotATitleError := Error("Not a title", None)
  const TitleMissingError := Error("Title does not exist", None)
  const HasToExistKey := "hastoexist"

  /** Whether the page must exist: the option read as a PHP boolean, false when absent. */
  predicate HasToExist(opts: Options): (b: bool)
    ensures HasToExistKey !in opts ==> !b
    ensures HasToExistKey in opts && opts[HasToExistKey] == OptVal.Bool(true) ==> b
  {
    HasToExistKey in opts && Truthy(opts[HasToExistKey])
  }

  /** The errors of validating `value` under `opts`; no option makes this throw. */
  function TitleErrors(value: Value, opts: Options): (r: seq<Error>)
    ensures |r| <= 1
    ensures r == [] <==> value.Title? && (value.pageExists || !HasToExist(opts))
  {
    if !value.Title? then [NotATitleError]
    else if HasToExist(opts) && !value.pageExists then [TitleMissingError]
    else []
  }

  /** A validator object: options are set once, then `Validate` collects errors. */
  class TitleValidator {
    var options: Options
    var errors: seq<Error>

    constructor ()
      ensures options == map[] && errors == []
    {
      options := map[];
      errors := [];
    }

    /** Stores the options; nothing is checked until `Validate`. */
    method SetOptions(opts: Options)
      modifies this`options
      ensures options == opts
    {
      options := opts;
    }

    /** Starts from no errors, appends the error of the first failing check and returns them. */
    method Validate(value: Value) returns (r: Result)
      modifies this`errors
      ensures r == Result(TitleErrors(value, options))
      ensures errors == r.errors
    {
      errors := [];
      if !value.Title? {
        errors := errors + [NotATitleError];
      } else if HasToExist(options) {
        if !value.pageExists {
          errors := errors + [TitleMissingError];
        }
      }
      r := Result(errors);
    }
  }

  /** The call sequence of one test: a fresh validator, `SetOptions`, `Validate`. */
  method RunTitleValidator(value: Value, opts: Options) returns (r: Result)
    ensures r == Result(TitleErrors(value, opts))
  {
    var validator := new TitleValidator();
    validator.SetOptions(opts);
    r := validator.Validate(value);
  }

  /** Each validation yields at most one error, and none of them carries a code. */
  lemma AtMostOneTitleError(value: Value, opts: Options)
    ensures |TitleErrors(value, opts)| <= 1
    ensures forall e :: e in TitleErrors(value, opts) ==> e.code == None
  {
  }

  /** A value that is not a title draws exactly `Not a title`, whatever the options. */
  lemma NotATitleShortCircuits(value: Value, opts: Options)
    requires !value.Title?
    ensures TitleErrors(value, opts) == [NotATitleError]
  {
  }

  /**
   * A title is rejected exactly when `hastoexist` is set and the page does
   * not exist, and then with `Title does not exist` alone.
   */
  lemma TitleRejectedIff(pageExists: bool, opts: Options)
    ensures TitleErrors(Value.Title(pageExists), opts) != [] <==> HasToExist(opts) && !pageExists
    ensures TitleErrors(Value.Title(pageExists), opts) != [] ==>
              TitleErrors(Value.Title(pageExists), opts) == [TitleMissingError]
  {
  }

  /** Without `hastoexist` the answer of `exists()` plays no part. */
  lemma ExistenceIgnoredUnlessRequired(opts: Options)
    requires !HasToExist(opts)
    ensures TitleErrors(Value.Title(true), opts) == TitleErrors(Value.Title(false), opts) == []
  {
  }
}
