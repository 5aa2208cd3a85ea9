/** Optional values: nil pointers, missing map entries and operations that may panic. And a choice of key. */
module Wrappers {
  datatype Option<+T> = None | Some(value: T)

  /** Go's range over a map visits the keys in no particular order. */
  method AnyOf<T>(keys: set<T>) returns (c: T)
    requires keys != {}
    ensures c in keys
  {
    c :| c in keys;
  }
}
