/** Result shapes of the Python code: `Optional[...]` returns and raised exceptions. */
module Outcomes {

  /** Python's `Optional[T]`: `None` or a value. */
  datatype Option<+T> = None | Some(value: T)

  /** The exceptions the classifier code can raise, by kind. */
  datatype Fault =
    | AssertionError(message: string)  // `assert False` in a method a backend does not support
    | UnboundLocalError                // a label with no recognised prefix leaves `fruit_name` unassigned
    | KeyError(key: string)            // a training label missing from the inverted label map
    | ValueError                       // `random.randrange(0, 0)`: an empty range
    | LibraryError                     // h5py, Keras, PIL or scikit-learn raising outside a `try`

  /** A Python call either returns a value or raises. */
  datatype Outcome<+T> = Returned(value: T) | Raised(fault: Fault)
}
