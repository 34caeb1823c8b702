/** Shared vocabulary of the form wizard model: optional values, results,
    step keys and the raw field data a form is bound to. */
module Common {

  /** Python's `None` or a value. */
  datatype Option<+T> = None | Some(value: T)

  /** A computation that either yields a value or fails with an error. */
  datatype Result<+T, +E> = Success(value: T) | Failure(error: E)

  /** A step identifier: the (unicode) name of a step. */
  type Key = string

  /** Raw submitted field values (a flattened POST dictionary), also used
      for initial data and extra context. */
  type Data = map<string, string>

  /** No element occurs twice. */
  predicate Distinct<T(==)>(s: seq<T>) {
    forall i, j :: 0 <= i < j < |s| ==> s[i] != s[j]
  }

  /** Looks `k` up in a dictionary, `dict.get(k, default)`. */
  function GetOr<K, V>(m: map<K, V>, k: K, default: V): V {
    if k in m then m[k] else default
  }
}
