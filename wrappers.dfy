/** Optional values: a document that a query may or may not find. */
module Wrappers {

  datatype Option<+T> = None | Some(value: T)

}
