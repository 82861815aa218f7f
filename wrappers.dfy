/** Optional values and effect outcomes shared by the dialogue model. */
module Wrappers {

  /** An optional value: `msg.text()` and the "no endpoint matched" outcome of routing. */
  datatype Option<+T> = None | Some(value: T)

  /** The result of an effect or of a handler that returns no value: `Ok(())` or an error. */
  datatype Outcome<+E> = Pass | Fail(error: E)
}
