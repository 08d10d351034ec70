/** The optional-value datatype used wherever the chart library works with
    Swift optionals (`T?`). */
module Wrappers {

  datatype Option<+T> = None | Some(value: T)
}
