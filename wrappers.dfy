/** The optional values the page keeps: a box's free-form rectangle, the
    drag session (`null` when idle), the cached container measurement. */
module Wrappers {

  datatype Option<+T> = None | Some(value: T)
}
