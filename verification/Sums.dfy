/** Sums over the rows of a table. */
module Sums {

  function Sum<T>(rows: seq<T>, f: T -> int): int {
    if rows == [] then 0 else Sum(rows[..|rows| - 1], f) + f(rows[|rows| - 1])
  }

  lemma SumAppend<T>(rows: seq<T>, row: T, f: T -> int)
    ensures Sum(rows + [row], f) == Sum(rows, f) + f(row)
  {
    assert (rows + [row])[..|rows|] == rows;
  }

  lemma {:induction false} SumUpdate<T>(rows: seq<T>, n: nat, row: T, f: T -> int)
    requires n < |rows|
    ensures Sum(rows[n := row], f) == Sum(rows, f) - f(rows[n]) + f(row)
  {
    var last := |rows| - 1;
    if n < last {
      SumUpdate(rows[..last], n, row, f);
      assert rows[n := row][..last] == rows[..last][n := row];
    } else {
      assert rows[n := row][..last] == rows[..last];
    }
  }
}
