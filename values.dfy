/**
 * The PHP values a validator is asked to check.
 *
 * Only the shapes the validators distinguish are kept: `null`, integers,
 * booleans, strings, arrays (lists of values) and a reference to a wiki
 * page title.  A title is opaque to the validators except for the one
 * capability they use, `exists()`, so it is modelled by the answer that
 * capability gives.
 */
module Values {

  datatype Value =
    | Null
    | Int(i: int)
    | Bool(b: bool)
    | Str(s: string)
    | Arr(elems: seq<Value>)
    | Title(pageExists: bool)
}
