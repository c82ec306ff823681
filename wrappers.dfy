/** The nullable values of the Java source: a `String` that may be `null`
    is an `Option<string>`. */
module Wrappers {

  datatype Option<+T> = None | Some(value: T)
}
