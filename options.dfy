/** The usual optional value: JavaScript's `null`/`undefined` on one side, a value on the other. */
module Options {

  datatype Option<+T> = None | Some(value: T)
}
