/** Optional values, used for the host's "maybe a buffer" and for table lookups. */
module Wrappers {

  /** Either nothing or one value; a pointer the host may leave null is a value of this type. */
  datatype Option<+T> = None | Some(value: T)
}
