/** The error returns of the operator: nil, errRetryReconciliation, anything else. */
module Errors {
  datatype Err = Nil | Retry | Other
}
