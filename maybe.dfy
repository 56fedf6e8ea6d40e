/** Optional values, shared by the server and the client model. */
module Maybe {
  /** A value that may be absent, such as a JavaScript property that is `undefined`. */
  datatype Option<+T> = None | Some(value: T)
}
