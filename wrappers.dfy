/** Kotlin's nullable types (`String?`, `Uri?`, `Intent?`) are modelled as Option. */
module Wrappers {

  datatype Option<+T> = None | Some(value: T)
}
