/** The Data Overview page: the two KPIs and the daily and per-category sales. */
module Kpi {
  import opened Transactions
  import opened GroupBy

  function DateKey(t: Transaction): Option<Day> { t.date }

  function CategoryKey(t: Transaction): Option<Category> { Some(t.category) }

  /** `df["CustomerID"].nunique()`: never more customers than rows, and none only
      for an empty table. */
  function UniqueCustomers(rows: seq<Transaction>): (n: nat)
    ensures n <= |rows|
    ensures n == 0 <==> rows == []
  {
    CustomersBound(rows);
    |Customers(rows)|
  }

  lemma {:induction false} CustomersBound(rows: seq<Transaction>)
    ensures |Customers(rows)| <= |rows|
    ensures rows != [] ==> rows[0].customerId in Customers(rows)
  {
    if rows != [] {
      CustomersBound(rows[1..]);
      assert Customers(rows) <= {rows[0].customerId} + Customers(rows[1..]) by {
        forall c | c in Customers(rows)
          ensures c in {rows[0].customerId} + Customers(rows[1..])
        {
          var t :| t in rows && t.customerId == c;
          if t != rows[0] {
            assert t in rows[1..];
          }
        }
      }
      var bound := {rows[0].customerId} + Customers(rows[1..]);
      assert |bound| <= 1 + |Customers(rows[1..])|;
      SubsetCard(Customers(rows), bound);
      assert rows[0] in rows;
    }
  }

  lemma SubsetCard<T>(a: set<T>, b: set<T>)
    requires a <= b
    ensures |a| <= |b|
  {
    assert b == a + (b - a);
  }

  /** `df.groupby("Date")["Amount"].sum()`: one entry per distinct present date;
      rows whose date is missing (NaT) fall out. */
  function DailySales(rows: seq<Transaction>): (ts: map<Day, real>)
    ensures forall d :: d in ts <==> exists t :: t in rows && t.date == Some(d)
    ensures forall d :: d in ts ==> ts[d] == SumWhere(rows, DateKey, d)
  {
    GroupSum(rows, DateKey)
  }

  /** `df.groupby("Category")["Amount"].sum()`: one entry per distinct category. */
  function CategorySales(rows: seq<Transaction>): (m: map<Category, real>)
    ensures forall c :: c in m <==> exists t :: t in rows && t.category == c
    ensures forall c :: c in m ==> m[c] == SumWhere(rows, CategoryKey, c)
  {
    GroupSum(rows, CategoryKey)
  }

  /** The daily sums add up to the sales of the rows that have a date. */
  lemma DailySalesTotal(rows: seq<Transaction>)
    ensures MapTotal(DailySales(rows)) == SumPresent(rows, DateKey)
    ensures (forall t :: t in rows ==> t.date.Some?) ==> MapTotal(DailySales(rows)) == TotalSales(rows)
  {
    GroupSumTotal(rows, DateKey);
    if forall t :: t in rows ==> t.date.Some? {
      SumPresentTotal(rows, DateKey);
    }
  }

  /** Every row has a category, so the category sums add up to total sales. */
  lemma CategorySalesTotal(rows: seq<Transaction>)
    ensures MapTotal(CategorySales(rows)) == TotalSales(rows)
  {
    GroupSumTotal(rows, CategoryKey);
    SumPresentTotal(rows, CategoryKey);
  }

  datatype Overview = Overview(
    totalSales: real,
    uniqueCustomers: nat,
    dailySales: Option<map<Day, real>>,       // shown only when the Date column exists
    categorySales: Option<map<Category, real>>)  // shown only when the Category column exists

  /** The Data Overview page: KPIs always, each chart only when its column exists. */
  function DataOverview(t: Table): (o: Overview)
    ensures o.totalSales == TotalSales(t.rows)
    ensures o.uniqueCustomers == |Customers(t.rows)| <= |t.rows|
    ensures o.dailySales.Some? <==> DateColumn in t.columns
    ensures o.dailySales.Some? ==> o.dailySales.value == DailySales(t.rows)
    ensures o.categorySales.Some? <==> CategoryColumn in t.columns
    ensures o.categorySales.Some? ==> o.categorySales.value == CategorySales(t.rows)
  {
    Overview(
      TotalSales(t.rows),
      UniqueCustomers(t.rows),
      if Gate(t.columns, DailyTrend).None? then Some(DailySales(t.rows)) else None,
      if Gate(t.columns, CategoryBreakdown).None? then Some(CategorySales(t.rows)) else None)
  }
}
