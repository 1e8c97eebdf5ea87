/** Optional values. `None` stands for a value that is not (yet) known,
    such as the not-a-number placeholder a cost carries between a shrink
    step and the evaluation of the shrunk vertices. */
module Wrappers {

  datatype Option<+T> = None | Some(value: T)
}
