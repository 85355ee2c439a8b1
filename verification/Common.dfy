/** Vocabulary shared by every component: optional values, results, identifiers and time. */
module Common {

  datatype Option<+T> = None | Some(value: T)

  datatype Result<+T, +E> = Ok(value: T) | Err(error: E)

  /** A row's primary key. The service draws UUIDv7 values; only their freshness matters here. */
  type Id = nat

  /** Microseconds, the resolution of the database clock. */
  type Time = nat

  const SECOND: nat := 1_000_000

  type I64 = n: int | -0x8000_0000_0000_0000 <= n < 0x8000_0000_0000_0000

  /** Checked arithmetic: the exact result, or none if it does not fit. */
  function Checked(exact: int): Option<I64> {
    if -0x8000_0000_0000_0000 <= exact < 0x8000_0000_0000_0000 then Some(exact) else None
  }

  /** The sum of a finite map's values, in any order. */
  ghost function Sum(m: map<Id, int>): int
    decreases m.Keys
  {
    if m == map[] then 0
    else
      var k :| k in m;
      m[k] + Sum(m - {k})
  }

  /** Any key can be taken out of the sum first, so the sum does not depend on the order. */
  lemma {:induction false} SumSplit(m: map<Id, int>, k: Id)
    requires k in m
    ensures Sum(m) == m[k] + Sum(m - {k})
    decreases m.Keys
  {
    var p :| p in m && Sum(m) == m[p] + Sum(m - {p});
    if p != k {
      SumSplit(m - {p}, k);
      SumSplit(m - {k}, p);
      assert m - {p} - {k} == m - {k} - {p};
    }
  }

  lemma SumInsert(m: map<Id, int>, k: Id, v: int)
    requires k !in m
    ensures Sum(m[k := v]) == v + Sum(m)
  {
    SumSplit(m[k := v], k);
    assert m[k := v] - {k} == m;
  }
}
