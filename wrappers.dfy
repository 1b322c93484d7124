/** Optional values. In the chart model `None` stands for JavaScript's
    `undefined`, the value of an array element read past the array's end. */
module Wrappers {

  datatype Option<+T> = None | Some(value: T)
}
