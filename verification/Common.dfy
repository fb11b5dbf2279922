/** Definitions shared by every component. */
module Common {

  /** A value that may be missing: a nil pointer, a nil channel, an absent map entry. */
  datatype Option<+T> = None | Some(value: T)

  /** The (value, error) pair a Go function returns. */
  datatype Result<+T, +E> = Ok(value: T) | Err(error: E)

  /** The number of model plugin types, which are numbered from 0. */
  const NUM_PLUGIN_TYPES: int := 7

  predicate ValidType(t: int) {
    0 <= t < NUM_PLUGIN_TYPES
  }
}
