/** The optional value used for JavaScript's `undefined`/`null` and for absent object keys. */
module Optional {
  datatype Option<+T> = None | Some(value: T)
}
