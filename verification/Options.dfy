/** The optional value used wherever the Python code uses `None`. */
module Options {
  datatype Option<+T> = None | Some(value: T)
  {
    /** Python's `self or other` on an optional identity. */
    function Or(other: Option<T>): Option<T> { if Some? then this else other }
  }
}
