/** The optional-value type used across the model: a missing stored entry,
    a lookup that found nothing, a number that failed to parse. */
module Wrappers {

  datatype Option<+T> = None | Some(value: T)
}
