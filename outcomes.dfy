/** Option and Result wrappers, and the errors that abort a reconciliation run. */
module Outcomes {

  datatype Option<+T> = None | Some(value: T)

  /**
 * The ways a run of the calculator stops with an exception that the model
 * covers. Empty or numeric cells, a failing matcher request and 64-bit
 * overflow also stop the script; they are outside the model.
 */
  datatype Error =
    | MalformedCell           // int() rejected a currency cell of the billing table
    | SynthesisRowCount       // not exactly one "Modified primer synthesis ..." row
    | PurificationRowCount    // not exactly one "... oligo purification HPLC" row
    | InvalidAmount           // order amount other than 1 or 0.2
    | MalformedMatchResponse  // the matcher's reply is not an integer
    | MatchIndexOutOfRange    // the matcher's index does not select a candidate

  /** Success value or the error that aborted the computation; usable with `:-`. */
  datatype Result<+T> = Ok(value: T) | Err(error: Error) {
    predicate IsFailure() {
      Err?
    }

    function PropagateFailure<U>(): Result<U>
      requires Err?
    {
      Err(error)
    }

    function Extract(): T
      requires Ok?
    {
      value
    }
  }
}
