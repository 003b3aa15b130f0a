/**
 * The outcomes of the modelled Python calls: each error names the Python
 * exception that the corresponding line of `BaysBernoulli` raises.
 */
module Errors {

  datatype PyError =
    | SyntaxError        // unknown prior name in the constructor
    | ValueError         // add_data without both group tags; a Bernoulli draw with bad arguments
    | AttributeError     // add_experiment(..., "A") while `self.data` is still None
    | IndexError         // column indexing `[:, 0]` of an empty or missing ledger
    | ZeroDivisionError  // post_pred when alpha + beta == 0
    | UnboundLocalError  // make_cum_post_para with a tag other than "A" or "B"

  datatype Option<+T> = None | Some(value: T)

  datatype Result<+T> = Ok(value: T) | Err(error: PyError)

  /** The outcome of a call whose only effect is on the object's fields. */
  datatype Outcome = Pass | Fail(error: PyError)
}
