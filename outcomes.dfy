/** Go's `error` result: nil (`Pass`) or a failure value (`Fail`). */
module Outcomes {

  datatype Outcome<+E> = Pass | Fail(error: E)
}
