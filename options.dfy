/** An optional value: stands for JavaScript's `null` / `undefined` where the screens use it. */
module Options {
  datatype Option<+T> = None | Some(value: T)
}
