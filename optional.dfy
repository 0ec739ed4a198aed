/** A value that may be absent: the model of TypeScript's `T | undefined`
    (an optional field, the result of `Array.prototype.find`, a null option). */
module Optional {

  datatype Option<+T> = None | Some(value: T)
}
