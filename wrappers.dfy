/** Optional values: `None` stands for a result the source does not produce
    (pandas' NaN for the mean of an empty column, the ValueError raised by
    `idxmin`/`idxmax` on an empty column). */
module Wrappers {

  datatype Option<+T> = None | Some(value: T)
}
