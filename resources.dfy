/** An optional value, for the Python functions that may return None. */
module Wrappers {
  datatype Option<T> = None | Some(value: T)
}

/**
 * The five resource kinds.  The enumeration's own module is not part of this
 * model; its five members are the ones every hand is initialised with.
 */
module CatanResources {
  datatype Resource = Wheat | Stone | Mud | Wood | Sheep
}
