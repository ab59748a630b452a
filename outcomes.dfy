/** The driver's fatal conditions as a closed error type, replacing the
    process exit of the C++ driver, and the two wrappers built on it. */
module Outcomes {

  datatype SolverError =
    | InvalidMode(mode: string)   // a mode selector string outside its accepted set
    | NumericalDivergence         // the power method's residual exceeded its divergence bound
    | InvalidResult               // a NaN (or, in the constrained driver, vanishing) compliance

  datatype Option<+T> = None | Some(value: T)

  datatype Result<+T> = Ok(value: T) | Err(error: SolverError)
}
