/** Small shared value types: a value that may be absent (`null` or `undefined` in the source). */
module Wrappers {

  datatype Option<+T> = None | Some(value: T)
}
