/** Optional values: the model's stand-in for a value that may be `null` or `undefined`. */
module Options {

  datatype Option<+T> = None | Some(value: T)
}
