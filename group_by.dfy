/** pandas' `df.groupby(key)["Amount"].sum()`: one entry per distinct present
    key, holding the sum of the amounts of the rows with that key. Rows whose key
    is missing are dropped, as pandas does by default. */
module GroupBy {
  import opened Transactions

  /** The distinct present keys of the rows. */
  function KeysOf<K>(rows: seq<Transaction>, key: Transaction -> Option<K>): set<K>
  {
    set t | t in rows && key(t).Some? :: key(t).value
  }

  /** Reference definition of one group's sum: the amounts of the rows whose key is `k`. */
  function SumWhere<K(==)>(rows: seq<Transaction>, key: Transaction -> Option<K>, k: K): real
  {
    if rows == [] then 0.0
    else (if key(rows[0]) == Some(k) then rows[0].amount else 0.0) + SumWhere(rows[1..], key, k)
  }

  /** The amounts of all rows whose key is present. */
  function SumPresent<K>(rows: seq<Transaction>, key: Transaction -> Option<K>): real
  {
    if rows == [] then 0.0
    else (if key(rows[0]).Some? then rows[0].amount else 0.0) + SumPresent(rows[1..], key)
  }

  function GroupSum<K(==,!new)>(rows: seq<Transaction>, key: Transaction -> Option<K>): (m: map<K, real>)
    ensures m.Keys == KeysOf(rows, key)
    ensures forall k :: k in m ==> m[k] == SumWhere(rows, key, k)
  {
    if rows == [] then map[]
    else
      SumWhereAbsent(rows[1..], key);
      AddRow(GroupSum(rows[1..], key), rows[0], key)
  }

  /** Adds one row's amount to the group of its key; a row without a key changes nothing. */
  function AddRow<K>(m: map<K, real>, t: Transaction, key: Transaction -> Option<K>): map<K, real>
  {
    match key(t)
    case None => m
    case Some(k) => m[k := t.amount + (if k in m then m[k] else 0.0)]
  }

  /** A key no row carries sums to 0: pandas' `fillna(0)` for absent groups. */
  lemma {:induction false} SumWhereAbsent<K(!new)>(rows: seq<Transaction>, key: Transaction -> Option<K>)
    ensures forall k :: k !in KeysOf(rows, key) ==> SumWhere(rows, key, k) == 0.0
  {
    if rows != [] {
      SumWhereAbsent(rows[1..], key);
      assert KeysOf(rows[1..], key) <= KeysOf(rows, key) by {
        forall t | t in rows[1..] ensures t in rows {}
      }
    }
  }

  /** The sum of the values of a map (of a pandas Series). */
  ghost function MapTotal<K>(m: map<K, real>): real
    decreases |m|
  {
    if |m| == 0 then 0.0
    else
      var k :| k in m;
      assert |m - {k}| == |m| - 1 by { assert (m - {k}).Keys == m.Keys - {k}; }
      m[k] + MapTotal(m - {k})
  }

  /** The key MapTotal takes apart first. */
  lemma MapTotalUnfold<K>(m: map<K, real>) returns (j: K)
    requires |m| > 0
    ensures j in m && MapTotal(m) == m[j] + MapTotal(m - {j})
  {
    j :| j in m && MapTotal(m) == m[j] + MapTotal(m - {j});
  }

  /** MapTotal does not depend on which key it takes apart first. */
  lemma {:induction false} MapTotalRemove<K>(m: map<K, real>, k: K)
    requires k in m
    ensures MapTotal(m) == m[k] + MapTotal(m - {k})
    decreases |m|
  {
    assert |m| > 0 by { assert k in m.Keys; }
    var j := MapTotalUnfold(m);
    if j != k {
      var mj, mk := m - {j}, m - {k};
      assert mj.Keys == m.Keys - {j};
      assert mk.Keys == m.Keys - {k};
      MapTotalRemove(mj, k);
      MapTotalRemove(mk, j);
      assert mj - {k} == mk - {j};
    }
  }

  lemma MapTotalUpdate<K>(m: map<K, real>, k: K, v: real)
    ensures MapTotal(m[k := v]) == MapTotal(m) + v - (if k in m then m[k] else 0.0)
  {
    MapTotalRemove(m[k := v], k);
    assert m[k := v] - {k} == m - {k};
    if k in m {
      MapTotalRemove(m, k);
    } else {
      assert m - {k} == m;
    }
  }

  /** The group sums add up to the total over the rows whose key is present. */
  lemma {:induction false} GroupSumTotal<K(!new)>(rows: seq<Transaction>, key: Transaction -> Option<K>)
    ensures MapTotal(GroupSum(rows, key)) == SumPresent(rows, key)
  {
    if rows != [] {
      GroupSumTotal(rows[1..], key);
      AddRowTotal(GroupSum(rows[1..], key), rows[0], key);
    }
  }

  /** Adding a row adds its amount to the map's total when its key is present. */
  lemma AddRowTotal<K>(m: map<K, real>, t: Transaction, key: Transaction -> Option<K>)
    ensures MapTotal(AddRow(m, t, key)) == MapTotal(m) + (if key(t).Some? then t.amount else 0.0)
  {
    if key(t).Some? {
      var k := key(t).value;
      MapTotalUpdate(m, k, t.amount + (if k in m then m[k] else 0.0));
    }
  }

  /** A key that is present on every row drops nothing: its groups add up to the total. */
  lemma {:induction false} SumPresentTotal<K>(rows: seq<Transaction>, key: Transaction -> Option<K>)
    requires forall t :: t in rows ==> key(t).Some?
    ensures SumPresent(rows, key) == TotalSales(rows)
  {
    if rows != [] {
      SumPresentTotal(rows[1..], key);
    }
  }

  /** With non-negative amounts, a group's sum is positive exactly when one of its
      rows has a positive amount. */
  lemma {:induction false} SumWherePositive<K>(rows: seq<Transaction>, key: Transaction -> Option<K>, k: K)
    requires forall t :: t in rows ==> t.amount >= 0.0
    ensures SumWhere(rows, key, k) >= 0.0
    ensures SumWhere(rows, key, k) > 0.0 <==> exists t :: t in rows && key(t) == Some(k) && t.amount > 0.0
  {
    if rows != [] {
      SumWherePositive(rows[1..], key, k);
      if key(rows[0]) == Some(k) && rows[0].amount > 0.0 {
        assert rows[0] in rows;
      }
    }
  }
}
