/**
 * The fixture table of the string validator's tests, row by row.  The
 * pattern `/^$/` matches exactly the empty string; `preg_match` is not
 * modelled, so that answer is a precondition on the matcher.
 */
module StringFixtures {
  import opened Optional
  import opened Values
  import opened Options
  import opened Errors
  import opened StringValidation

  lemma TypeAndLengthRows(matches: Matcher)
    ensures StringOutcome(Value.Null, FromPairs([]), matches) == Ok(Result([Error("Not a string", None)]))
    ensures StringOutcome(Value.Str(""), FromPairs([]), matches) == Ok(Result([]))
    ensures StringOutcome(Value.Str(""), FromPairs([("length", OptVal.Int(1))]), matches)
         == Ok(Result([Error("Value exceeding lower bound", Some("length"))]))
    ensures StringOutcome(Value.Str("1"), FromPairs([("length", OptVal.Int(1))]), matches) == Ok(Result([]))
    ensures StringOutcome(Value.Str("1"), FromPairs([("length", OptVal.Int(0))]), matches)
         == Ok(Result([Error("Value exceeding upper bound", Some("length"))]))
    ensures StringOutcome(Value.Str(""), FromPairs([("length", OptVal.Int(0))]), matches) == Ok(Result([]))
  {
  }

  lemma MinMaxLengthRows(matches: Matcher)
    ensures StringOutcome(Value.Str(""), FromPairs([("minlength", OptVal.Int(1))]), matches)
         == Ok(Result([Error("Value exceeding lower bound", Some("length"))]))
    ensures StringOutcome(Value.Str("1"), FromPairs([("minlength", OptVal.Int(1))]), matches) == Ok(Result([]))
    ensures StringOutcome(Value.Str("1"), FromPairs([("maxlength", OptVal.Int(0))]), matches)
         == Ok(Result([Error("Value exceeding upper bound", Some("length"))]))
    ensures StringOutcome(Value.Str(""), FromPairs([("maxlength", OptVal.Int(0))]), matches) == Ok(Result([]))
  {
  }

  lemma RegexRows(matches: Matcher)
    requires !matches("/^$/", "1") && matches("/^$/", "")
    ensures StringOutcome(Value.Str("1"), FromPairs([("regex", OptVal.Str("/^$/"))]), matches)
         == Ok(Result([Error("String does not match the regular expression /^$/", None)]))
    ensures StringOutcome(Value.Str(""), FromPairs([("regex", OptVal.Str("/^$/"))]), matches) == Ok(Result([]))
  {
    assert RegexMismatchPrefix + "/^$/" == "String does not match the regular expression /^$/";
  }
}
