/** Values standing for what the client gets back from code it does not own. */
module Outcomes {

  /** An optional value; `None` plays the part of JavaScript's `null`. */
  datatype Option<+T> = None | Some(value: T)

  /** What an awaited call into the chain connector, the gas helpers or the
      datatoken produced: a value, or a thrown exception (whose contents the
      client never inspects beyond logging them). */
  datatype Outcome<+T> = Ok(value: T) | Err
}
