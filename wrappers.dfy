/** Optional values: a status code an error may lack, a resource name that may not parse. */
module Wrappers {

  datatype Option<+T> = None | Some(value: T)
}
