/** An optional value: a TypeScript field that may be `undefined` or `null`. */
module Optional {
  datatype Option<+T> = None | Some(value: T)
}
