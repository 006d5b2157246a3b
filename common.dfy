/** Values shared by every layer: Go's optional values (nil or not) and Go's `error`. */
module Common {

  /** A Go pointer or interface that may be nil. */
  datatype Option<+T> = None | Some(value: T)

  /** A Go `error` value; only its message is observable to this layer. */
  datatype Error = Error(message: string)
}
