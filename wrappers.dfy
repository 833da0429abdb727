/** Optional values: Java's `null`-able references and `Optional<T>`. */
module Wrappers {

  datatype Option<+T> = None | Some(value: T)
}
