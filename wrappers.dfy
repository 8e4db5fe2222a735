/** Optional values, used wherever the modelled code may find nothing (a missing storage key,
    a decoder that rejects its input). */
module Wrappers {

  datatype Option<+T> = None | Some(value: T)
}
