/** Looking a row up by one of its columns. */
module Tables {
  import opened Wrappers

  /** The position of a row with the given value in a column, among the first n rows. */
  function Find<T, K(==)>(rows: seq<T>, column: T -> K, value: K, n: nat): (r: Option<nat>)
    requires n <= |rows|
    ensures r.Some? ==> r.value < n && column(rows[r.value]) == value
    ensures r.None? ==> forall i :: 0 <= i < n ==> column(rows[i]) != value
  {
    if n == 0 then None
    else if column(rows[n - 1]) == value then Some(n - 1)
    else Find(rows, column, value, n - 1)
  }
}
