/** The optional-value datatype shared by the other modules (std::optional in the library). */
module Wrappers {

  datatype Option<+T> = None | Some(value: T)
}
