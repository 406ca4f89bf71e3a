/** The optional values the other modules share: JavaScript's `undefined` and
    `null`, Go's nil pointers and empty strings. */
module Options {

  datatype Option<+T> = None | Some(value: T)
}
