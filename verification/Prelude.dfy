/** Vocabulary shared by every model in this project. */
module Prelude {
  datatype Option<+T> = None | Some(value: T)
}
