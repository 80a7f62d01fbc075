/** A value that may be absent: Kotlin's nullable types (`Rect?`, `String?`). */
module Options {

  datatype Option<+T> = None | Some(value: T)
}
