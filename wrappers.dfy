/** The optional value the model uses for absent command-line arguments and missing choices. */
module Wrappers {

  datatype Option<+T> = None | Some(value: T)
}
