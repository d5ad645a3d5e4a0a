/** Optional values: the model's stand-in for JavaScript's `undefined`/`null` fields. */
module Options {

  datatype Option<+T> = None | Some(value: T)
}
