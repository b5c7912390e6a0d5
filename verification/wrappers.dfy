/** The optional-value datatype used throughout the model: it stands for
    std::optional and for a shared_ptr that may be null. */
module Wrappers {

  datatype Option<+T> = None | Some(value: T)
}
