/** Sums over the rows of a table, where a table is a finite map. */
module Sums {

  ghost function Sum<K(!new), R>(table: map<K, R>, f: (K, R) -> real): real
    decreases |table|
  {
    if table == map[] then 0.0
    else
      var k :| k in table;
      f(k, table[k]) + Sum(table - {k}, f)
  }

  /** The sum does not depend on the order in which rows are visited. */
  lemma {:induction false} SumRemove<K(!new), R>(table: map<K, R>, f: (K, R) -> real, k: K)
    requires k in table
    ensures Sum(table, f) == f(k, table[k]) + Sum(table - {k}, f)
    decreases |table|
  {
    var j :| j in table && Sum(table, f) == f(j, table[j]) + Sum(table - {j}, f);
    if j != k {
      SumRemove(table - {j}, f, k);
      SumRemove(table - {k}, f, j);
      assert table - {j} - {k} == table - {k} - {j};
    }
  }

  ghost function RowOr<K(!new), R>(table: map<K, R>, f: (K, R) -> real, k: K): real {
    if k in table then f(k, table[k]) else 0.0
  }

  /** Writing one row changes the sum by the difference of that row's terms. */
  lemma SumPut<K(!new), R>(table: map<K, R>, f: (K, R) -> real, k: K, row: R)
    ensures Sum(table[k := row], f) == Sum(table, f) - RowOr(table, f, k) + f(k, row)
  {
    SumRemove(table[k := row], f, k);
    if k in table {
      SumRemove(table, f, k);
      assert table[k := row] - {k} == table - {k};
    } else {
      assert table[k := row] - {k} == table;
    }
  }

  lemma {:induction false} SumLe<K(!new), R>(table: map<K, R>, f: (K, R) -> real, g: (K, R) -> real)
    requires forall k :: k in table ==> f(k, table[k]) <= g(k, table[k])
    ensures Sum(table, f) <= Sum(table, g)
    decreases |table|
  {
    if table != map[] {
      var k :| k in table;
      SumRemove(table, f, k);
      SumRemove(table, g, k);
      SumLe(table - {k}, f, g);
    }
  }

  lemma {:induction false} SumNonNegative<K(!new), R>(table: map<K, R>, f: (K, R) -> real)
    requires forall k :: k in table ==> f(k, table[k]) >= 0.0
    ensures Sum(table, f) >= 0.0
    decreases |table|
  {
    if table != map[] {
      var k :| k in table;
      SumRemove(table, f, k);
      SumNonNegative(table - {k}, f);
    }
  }

  lemma {:induction false} SumZero<K(!new), R>(table: map<K, R>, f: (K, R) -> real)
    requires forall k :: k in table ==> f(k, table[k]) == 0.0
    ensures Sum(table, f) == 0.0
    decreases |table|
  {
    if table != map[] {
      var k :| k in table;
      SumRemove(table, f, k);
      SumZero(table - {k}, f);
    }
  }

  /** The table restricted to the rows still to be visited. */
  ghost function Rest<K(!new), R>(table: map<K, R>, todo: set<K>): map<K, R>
    requires todo <= table.Keys
  {
    map k | k in todo :: table[k]
  }

  /** Visiting row k moves its term from the remainder to the accumulator. */
  lemma SumVisit<K(!new), R>(table: map<K, R>, f: (K, R) -> real, todo: set<K>, k: K)
    requires todo <= table.Keys && k in todo
    ensures Sum(Rest(table, todo), f) == f(k, table[k]) + Sum(Rest(table, todo - {k}), f)
  {
    SumRemove(Rest(table, todo), f, k);
    assert Rest(table, todo) - {k} == Rest(table, todo - {k});
  }

  lemma RestAll<K(!new), R>(table: map<K, R>)
    ensures Rest(table, table.Keys) == table
    ensures Rest(table, {}) == map[]
  {
  }
}
