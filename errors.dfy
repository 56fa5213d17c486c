/**
 * Validation errors, the result that collects them, and the outcome of one
 * `validate` call, which is either a result or a usage error (PHP throws an
 * exception for a malformed option, so no result is produced at all).
 */
module Errors {
  import opened Optional

  /** One validation failure: a message and an optional classification code. */
  datatype Error = Error(message: string, code: Option<string>)

  /** The errors of one `validate` call, in the order the checks produced them. */
  datatype Result = Result(errors: seq<Error>) {

    /** A result is valid exactly when it holds no error. */
    predicate IsValid() {
      errors == []
    }
  }

  datatype Outcome = Ok(result: Result) | ConfigError
}
