/** Kotlin's nullable values (`T?`), shared by the modules of this model. */
module Nullable {

  datatype Option<T> = None | Some(value: T)
}
