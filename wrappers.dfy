/** Optional values. On the consumer side `None` stands for an SQL null; on the
    producer side it stands for a key that a dictionary does not hold. */
module Wrappers {

  datatype Option<+T> = None | Some(value: T)
}
