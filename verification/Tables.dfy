/** Rows of an append-only table, oldest first: lookups and weighted sums. */
module Tables {
  datatype Option<+T> = None | Some(value: T)

  /** The newest row that passes a test, as `.first()` finds it under the ordering `-created_at`. */
  function Latest<T>(rows: seq<T>, test: T -> bool): (found: Option<nat>)
    ensures found.Some? ==> found.value < |rows| && test(rows[found.value])
    ensures found.Some? ==> forall i :: found.value < i < |rows| ==> !test(rows[i])
    ensures found.None? ==> forall i :: 0 <= i < |rows| ==> !test(rows[i])
  {
    if |rows| == 0 then None
    else if test(rows[|rows| - 1]) then Some(|rows| - 1)
    else Latest(rows[..|rows| - 1], test)
  }

  /** The sum of a weight over all rows, as the database's `Sum` and `count` compute it. */
  function Sum<T>(rows: seq<T>, weight: T -> int): int {
    if |rows| == 0 then 0 else Sum(rows[..|rows| - 1], weight) + weight(rows[|rows| - 1])
  }

  lemma SumAppend<T>(rows: seq<T>, row: T, weight: T -> int)
    ensures Sum(rows + [row], weight) == Sum(rows, weight) + weight(row)
  {
    assert (rows + [row])[..|rows|] == rows;
  }

  lemma {:induction false} SumUpdate<T>(rows: seq<T>, i: nat, row: T, weight: T -> int)
    requires i < |rows|
    ensures Sum(rows[i := row], weight) == Sum(rows, weight) - weight(rows[i]) + weight(row)
  {
    var last := |rows| - 1;
    if i < last {
      assert rows[i := row][..last] == rows[..last][i := row];
      SumUpdate(rows[..last], i, row, weight);
    } else {
      assert rows[i := row][..last] == rows[..last];
    }
  }

  lemma {:induction false} SumZero<T>(rows: seq<T>, weight: T -> int)
    requires forall i :: 0 <= i < |rows| ==> weight(rows[i]) == 0
    ensures Sum(rows, weight) == 0
  {
    if |rows| > 0 {
      SumZero(rows[..|rows| - 1], weight);
    }
  }

  lemma {:induction false} SumNonNegative<T>(rows: seq<T>, weight: T -> int)
    requires forall i :: 0 <= i < |rows| ==> weight(rows[i]) >= 0
    ensures Sum(rows, weight) >= 0
  {
    if |rows| > 0 {
      SumNonNegative(rows[..|rows| - 1], weight);
    }
  }

  /** When only one row can weigh anything, the sum is that row's weight. */
  lemma {:induction false} SumOnly<T>(rows: seq<T>, i: nat, weight: T -> int)
    requires i < |rows|
    requires forall j :: 0 <= j < |rows| && j != i ==> weight(rows[j]) == 0
    ensures Sum(rows, weight) == weight(rows[i])
  {
    if i == |rows| - 1 {
      SumZero(rows[..i], weight);
    } else {
      SumOnly(rows[..|rows| - 1], i, weight);
    }
  }

  /** Two tables whose rows weigh the same in order have the same sum. */
  lemma {:induction false} SumSame<T>(a: seq<T>, b: seq<T>, weight: T -> int)
    requires |a| == |b|
    requires forall i :: 0 <= i < |a| ==> weight(a[i]) == weight(b[i])
    ensures Sum(a, weight) == Sum(b, weight)
  {
    if |a| > 0 {
      SumSame(a[..|a| - 1], b[..|b| - 1], weight);
    }
  }
}
