/** Optional values: `null`, `undefined` and absent fields of the app's records. */
module Wrappers {

  datatype Option<+T> = None | Some(value: T)
}
