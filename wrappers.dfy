/** Optional values, standing for the nullable pointers and "not found"
    results of the modelled C++ code. */
module Wrappers {

  datatype Option<+T> = None | Some(value: T)

}
