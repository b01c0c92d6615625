/** How sums of estimates over the attempts table react to a change of the table or of the
    set of rows that is summed. */
module Sums {
  import opened LedgerSpec

  ghost predicate PositiveEstimates(rows: seq<Attempt>) {
    forall i, k :: 0 <= i < |rows| && k in rows[i].estimate ==> rows[i].estimate[k] > 0.0
  }

  /** The estimates, which no transaction changes. */
  ghost predicate SameEstimates(rows: seq<Attempt>, rows': seq<Attempt>) {
    |rows| == |rows'| && forall i :: 0 <= i < |rows| ==> rows[i].estimate == rows'[i].estimate
  }

  lemma {:induction false} SumCong(rows: seq<Attempt>, rows': seq<Attempt>, ids: set<nat>, ids': set<nat>, k: string)
    requires SameEstimates(rows, rows')
    requires forall i :: 0 <= i < |rows| ==> (i in ids <==> i in ids')
    ensures SumOf(rows, ids, k) == SumOf(rows', ids', k)
  {
    if rows != [] {
      var n := |rows| - 1;
      SumCong(rows[..n], rows'[..n], ids, ids', k);
    }
  }

  lemma {:induction false} SumInsert(rows: seq<Attempt>, ids: set<nat>, i: nat, k: string)
    requires i < |rows| && i !in ids
    ensures SumOf(rows, ids + {i}, k) == SumOf(rows, ids, k) + Est(rows[i], k)
  {
    var n := |rows| - 1;
    if i == n {
      SumCong(rows[..n], rows[..n], ids + {i}, ids, k);
    } else {
      SumInsert(rows[..n], ids, i, k);
    }
  }

  lemma SumRemove(rows: seq<Attempt>, ids: set<nat>, i: nat, k: string)
    requires i < |rows| && i in ids
    ensures SumOf(rows, ids, k) == SumOf(rows, ids - {i}, k) + Est(rows[i], k)
  {
    SumInsert(rows, ids - {i}, i, k);
    assert ids - {i} + {i} == ids;
  }

  lemma SumAppend(rows: seq<Attempt>, row: Attempt, ids: set<nat>, k: string)
    ensures SumOf(rows + [row], ids, k) == SumOf(rows, ids, k) + if |rows| in ids then Est(row, k) else 0.0
  {
    assert (rows + [row])[..|rows|] == rows;
  }

  lemma {:induction false} SumNonNegative(rows: seq<Attempt>, ids: set<nat>, k: string)
    requires PositiveEstimates(rows)
    ensures SumOf(rows, ids, k) >= 0.0
  {
    if rows != [] {
      SumNonNegative(rows[..|rows| - 1], ids, k);
    }
  }

  lemma {:induction false} SumMonotone(rows: seq<Attempt>, ids: set<nat>, more: set<nat>, k: string)
    requires PositiveEstimates(rows)
    requires ids <= more
    ensures SumOf(rows, ids, k) <= SumOf(rows, more, k)
  {
    if rows != [] {
      SumMonotone(rows[..|rows| - 1], ids, more, k);
    }
  }

  lemma {:induction false} SumUnion(rows: seq<Attempt>, a: set<nat>, b: set<nat>, k: string)
    requires a !! b
    ensures SumOf(rows, a + b, k) == SumOf(rows, a, k) + SumOf(rows, b, k)
  {
    if rows != [] {
      SumUnion(rows[..|rows| - 1], a, b, k);
    }
  }
}
