/**
 * The fixture tables of the list validator's tests, row by row: each
 * option array is written as the literal it is in the test.
 */
module ListFixtures {
  import opened Optional
  import opened Values
  import opened Options
  import opened Errors
  import opened BoundsResolver
  import opened ListValidation

  const Empty := Value.Arr([])
  const One := Value.Arr([Value.Int(1)])
  const OneTwo := Value.Arr([Value.Int(1), Value.Int(2)])

  /** A malformed `elementcount` throws during validation of an empty array. */
  lemma InvalidRangeRows()
    ensures ListOutcome(Empty, FromPairs([("elementcount", OptVal.Null)])) == ConfigError
    ensures ListOutcome(Empty, FromPairs([("elementcount", OptVal.Int(0))])) == ConfigError
    ensures ListOutcome(Empty, FromPairs([("elementcount", OptVal.Str(""))])) == ConfigError
    ensures ListOutcome(Empty, FromPairs([("elementcount", OptVal.Arr([]))])) == ConfigError
    ensures ListOutcome(Empty, FromPairs([("elementcount", OptVal.Arr([0]))])) == ConfigError
    ensures ListOutcome(Empty, FromPairs([("elementcount", OptVal.Arr([0, 0, 0]))])) == ConfigError
  {
  }

  lemma NotAnArrayRows()
    ensures ListOutcome(Value.Null, FromPairs([])) == Ok(Result([NotAnArrayError]))
    ensures ListOutcome(Value.Int(0), FromPairs([])) == Ok(Result([NotAnArrayError]))
    ensures ListOutcome(Value.Str(""), FromPairs([])) == Ok(Result([NotAnArrayError]))
  {
  }

  lemma NoOptionsRows()
    ensures ListOutcome(Empty, FromPairs([])) == Ok(Result([]))
    ensures ListOutcome(One, FromPairs([])) == Ok(Result([]))
  {
  }

  lemma LowerBoundOnlyRows()
    ensures ListOutcome(Empty, FromPairs([("minelements", OptVal.Null)])) == Ok(Result([]))
    ensures ListOutcome(Empty, FromPairs([("minelements", OptVal.Int(0))])) == Ok(Result([]))
    ensures ListOutcome(Empty, FromPairs([("minelements", OptVal.Int(1))]))
         == Ok(Result([Error("Value exceeding lower bound", Some("length"))]))
    ensures ListOutcome(One, FromPairs([("minelements", OptVal.Int(1))])) == Ok(Result([]))
  {
  }

  lemma UpperBoundOnlyRows()
    ensures ListOutcome(Empty, FromPairs([("maxelements", OptVal.Null)])) == Ok(Result([]))
    ensures ListOutcome(Empty, FromPairs([("maxelements", OptVal.Int(0))])) == Ok(Result([]))
    ensures ListOutcome(One, FromPairs([("maxelements", OptVal.Int(0))]))
         == Ok(Result([Error("Value exceeding upper bound", Some("length"))]))
    ensures ListOutcome(One, FromPairs([("maxelements", OptVal.Int(1))])) == Ok(Result([]))
  {
  }

  lemma LowerAndUpperBoundRows()
    ensures ListOutcome(Empty, FromPairs([("elementcount", OptVal.Arr([0, 0]))])) == Ok(Result([]))
    ensures ListOutcome(One, FromPairs([("elementcount", OptVal.Arr([2, 2]))])) == Ok(Result([LowerBoundError]))
    ensures ListOutcome(OneTwo, FromPairs([("elementcount", OptVal.Arr([2, 2]))])) == Ok(Result([]))
    ensures ListOutcome(One, FromPairs([("elementcount", OptVal.Arr([0, 0]))])) == Ok(Result([UpperBoundError]))
    ensures ListOutcome(Empty, FromPairs([("elementcount", OptVal.Arr([2, 0]))])) == Ok(Result([LowerBoundError]))
    ensures ListOutcome(OneTwo, FromPairs([("elementcount", OptVal.Arr([2, 0]))])) == Ok(Result([UpperBoundError]))
    ensures ListOutcome(One, FromPairs([("elementcount", OptVal.Arr([2, 0]))]))
         == Ok(Result([UpperBoundError, LowerBoundError]))
    ensures ListOutcome(One, FromPairs([("minelements", OptVal.Int(2)), ("maxelements", OptVal.Int(0))]))
         == Ok(Result([UpperBoundError, LowerBoundError]))
  {
    FromPairsOfTwo(("minelements", OptVal.Int(2)), ("maxelements", OptVal.Int(0)));
  }

  /** A present `minelements` replaces the lower side of `elementcount`, in either key order. */
  lemma ConflictingLowerBoundRows()
    ensures ListOutcome(Empty, FromPairs([("elementcount", OptVal.Arr([1, 1])), ("minelements", OptVal.Null)])) == Ok(Result([]))
    ensures ListOutcome(Empty, FromPairs([("elementcount", OptVal.Arr([1, 1])), ("minelements", OptVal.Bool(false))]))
         == Ok(Result([]))
    ensures ListOutcome(Empty, FromPairs([("elementcount", OptVal.Arr([1, 1])), ("minelements", OptVal.Int(0))]))
         == Ok(Result([]))
    ensures ListOutcome(Empty, FromPairs([("minelements", OptVal.Int(0)), ("elementcount", OptVal.Arr([1, 1]))]))
         == Ok(Result([]))
  {
    FromPairsOfTwo(("elementcount", OptVal.Arr([1, 1])), ("minelements", OptVal.Null));
    FromPairsOfTwo(("elementcount", OptVal.Arr([1, 1])), ("minelements", OptVal.Bool(false)));
    FromPairsOfTwo(("elementcount", OptVal.Arr([1, 1])), ("minelements", OptVal.Int(0)));
    FromPairsOfTwo(("minelements", OptVal.Int(0)), ("elementcount", OptVal.Arr([1, 1])));
  }

  /** A present `maxelements` replaces the upper side of `elementcount`, in either key order. */
  lemma ConflictingUpperBoundRows()
    ensures ListOutcome(One, FromPairs([("elementcount", OptVal.Arr([0, 0])), ("maxelements", OptVal.Bool(false))]))
         == Ok(Result([]))
    ensures ListOutcome(One, FromPairs([("elementcount", OptVal.Arr([0, 0])), ("maxelements", OptVal.Int(1))]))
         == Ok(Result([]))
    ensures ListOutcome(One, FromPairs([("maxelements", OptVal.Int(1)), ("elementcount", OptVal.Arr([0, 0]))]))
         == Ok(Result([]))
  {
    FromPairsOfTwo(("elementcount", OptVal.Arr([0, 0])), ("maxelements", OptVal.Bool(false)));
    FromPairsOfTwo(("elementcount", OptVal.Arr([0, 0])), ("maxelements", OptVal.Int(1)));
    FromPairsOfTwo(("maxelements", OptVal.Int(1)), ("elementcount", OptVal.Arr([0, 0])));
  }
}
