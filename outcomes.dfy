/** The error conditions the scripts can run into, and a result type for them. */
module Outcomes {

  datatype Error =
    | DivisionByZero   // a step size of zero in the step-count division
    | GridMismatch     // row-wise comparison of arrays with different numbers of rows
    | EmptyMean        // the mean of an empty series
    | NegativeSamples  // linspace asked for a negative number of points

  datatype Result<T> = Ok(value: T) | Err(error: Error)
}
