/** The one query shape the service relies on: ORDER BY a column, LIMIT n. */
module Sql {

  /** `rows` is an answer to "the first `n` keys of `column`, in column order". Ties may fall either way. */
  ghost predicate IsFirst<K>(column: map<K, int>, n: nat, rows: seq<K>)
  {
    && |rows| == (if n <= |column| then n else |column|)
    && (forall j :: 0 <= j < |rows| ==> rows[j] in column)
    && (forall j, k :: 0 <= j < k < |rows| ==> rows[j] != rows[k] && column[rows[j]] <= column[rows[k]])
    && (forall j, k :: 0 <= j < |rows| && k in column && k !in rows ==> column[rows[j]] <= column[k])
  }

  method Smallest<K(==)>(column: map<K, int>) returns (least: K)
    requires column != map[]
    ensures least in column && forall k :: k in column ==> column[least] <= column[k]
  {
    least :| least in column;
    var rest := column.Keys - {least};
    while rest != {}
      invariant least in column && rest <= column.Keys
      invariant forall k :: k in column && k !in rest ==> column[least] <= column[k]
      decreases rest
    {
      var k :| k in rest;
      if column[k] < column[least] {
        least := k;
      }
      rest := rest - {k};
    }
  }

  method OrderByLimit<K(==)>(column: map<K, int>, n: nat) returns (rows: seq<K>)
    ensures IsFirst(column, n, rows)
  {
    rows := [];
    var rest := column;
    while |rows| < n && rest != map[]
      invariant |rows| <= n && rest.Keys <= column.Keys && |rest| + |rows| == |column|
      invariant forall k :: k in rest ==> rest[k] == column[k]
      invariant forall k :: k in column ==> (k in rest <==> k !in rows)
      invariant forall j :: 0 <= j < |rows| ==> rows[j] in column
      invariant forall j, k :: 0 <= j < k < |rows| ==> rows[j] != rows[k] && column[rows[j]] <= column[rows[k]]
      invariant forall j, k :: 0 <= j < |rows| && k in rest ==> column[rows[j]] <= column[k]
      decreases |rest|
    {
      var least := Smallest(rest);
      assert (rest - {least}).Keys == rest.Keys - {least};
      rest := rest - {least};
      rows := rows + [least];
    }
    if rest == map[] {
      assert |rows| == |column|;
    }
  }
}
