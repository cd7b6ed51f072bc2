/** Small shared vocabulary: an optional value, standing for Python's `None`. */
module Common {

  /** `None` is Python's `None`; `Some(v)` is a present value. */
  datatype Option<+T> = None | Some(value: T)

  /** No element of `s` occurs twice (the keys of a Python dict, a roster). */
  predicate Distinct<T(==)>(s: seq<T>)
  {
    forall i, j :: 0 <= i < j < |s| ==> s[i] != s[j]
  }
}
