/**
 * The fixture table of the title validator's tests, row by row.  The test's
 * mock title answers `false` to `exists()`.
 */
module TitleFixtures {
  import opened Optional
  import opened Values
  import opened Options
  import opened Errors
  import opened TitleValidation

  const MockTitle := Value.Title(false)

  lemma TitleRows()
    ensures TitleErrors(Value.Null, FromPairs([("hastoexist", OptVal.Bool(false))])) == [Error("Not a title", None)]
    ensures TitleErrors(MockTitle, FromPairs([("hastoexist", OptVal.Bool(false))])) == []
    ensures TitleErrors(MockTitle, FromPairs([("hastoexist", OptVal.Bool(true))]))
         == [Error("Title does not exist", None)]
  {
  }
}
