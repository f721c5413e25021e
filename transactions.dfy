/** The transaction table the dashboard analyses, the column checks that gate
    each analysis, and the plain sums and filters the analyses are built from. */
module Transactions {

  datatype Option<T> = None | Some(value: T)

  datatype Result<T, E> = Ok(value: T) | Err(error: E)

  /** A calendar day, counted in days since 1970-01-01 (so 2023-01-01 is 19358). */
  type Day = int
  type OrderId = string
  type CustomerId = string
  type Category = string

  /** One row of the table. A date that failed to parse is missing (NaT), not dropped. */
  datatype Transaction = Transaction(
    orderId: OrderId,
    date: Option<Day>,
    customerId: CustomerId,
    amount: real,
    category: Category)

  /** The columns whose presence the dashboard tests before an analysis.
      CustomerID and Amount are read unconditionally and are always present here. */
  datatype Column = OrderIdColumn | DateColumn | CategoryColumn

  /** The uploaded (or sample) table: which optional columns it has, and its rows. */
  datatype Table = Table(columns: set<Column>, rows: seq<Transaction>)

  datatype Analysis = DailyTrend | CategoryBreakdown | RfmSegmentation | MarketBasket | SalesForecast

  datatype AnalysisError =
    | MissingColumns(analysis: Analysis, missing: set<Column>)  // a warning; the analysis is skipped
    | KeyError(column: Column)                                   // pandas raises: nothing catches it
    | ForecastError(cause: string)                               // caught around the ARIMA fit

  /** The columns each analysis tests for before it runs. */
  function Required(a: Analysis): set<Column>
  {
    match a
    case DailyTrend => {DateColumn}
    case CategoryBreakdown => {CategoryColumn}
    case RfmSegmentation => {DateColumn, OrderIdColumn}
    case MarketBasket => {CategoryColumn, OrderIdColumn}
    case SalesForecast => {DateColumn}
  }

  /** The schema check in front of an analysis: None lets it run, otherwise the
      warning names every required column that is absent. */
  function Gate(columns: set<Column>, a: Analysis): (r: Option<AnalysisError>)
    ensures r.None? <==> Required(a) <= columns
    ensures r.Some? ==> r.value.MissingColumns? && r.value.analysis == a
    ensures r.Some? ==> r.value.missing != {}
    ensures r.Some? ==> forall col :: col in r.value.missing <==> col in Required(a) && col !in columns
  {
    if Required(a) <= columns then None
    else
      SomeMissing(Required(a), columns);
      Some(MissingColumns(a, Required(a) - columns))
  }

  lemma SomeMissing(required: set<Column>, columns: set<Column>)
    requires !(required <= columns)
    ensures required - columns != {}
  {
    var col :| col in required && col !in columns;
    assert col in required - columns;
  }

  /** Sum of the Amount column; pandas gives 0 for an empty table. With no negative
      amount the total is non-negative and no single amount exceeds it. */
  function TotalSales(rows: seq<Transaction>): (r: real)
    ensures (forall t :: t in rows ==> t.amount >= 0.0) ==> r >= 0.0
    ensures (forall t :: t in rows ==> t.amount >= 0.0) ==> forall t :: t in rows ==> t.amount <= r
  {
    if rows == [] then 0.0
    else
      assert rows == [rows[0]] + rows[1..];
      rows[0].amount + TotalSales(rows[1..])
  }

  lemma {:induction false} TotalSalesAppend(a: seq<Transaction>, b: seq<Transaction>)
    ensures TotalSales(a + b) == TotalSales(a) + TotalSales(b)
  {
    if a == [] {
      assert a + b == b;
    } else {
      assert (a + b)[1..] == a[1..] + b;
      TotalSalesAppend(a[1..], b);
    }
  }

  /** The set of distinct CustomerID values. */
  function Customers(rows: seq<Transaction>): set<CustomerId>
  {
    set t | t in rows :: t.customerId
  }

  /** The rows of one customer, in table order (the group pandas hands to `agg`). */
  function RowsOf(rows: seq<Transaction>, c: CustomerId): (g: seq<Transaction>)
    ensures forall t {:trigger t in g} :: t in g <==> t in rows && t.customerId == c
    ensures forall t {:trigger multiset(g)[t]} :: multiset(g)[t] == if t.customerId == c then multiset(rows)[t] else 0
    ensures |g| <= |rows|
  {
    if rows == [] then []
    else
      assert rows == [rows[0]] + rows[1..];
      if rows[0].customerId == c then [rows[0]] + RowsOf(rows[1..], c)
      else RowsOf(rows[1..], c)
  }

  /** Largest present date, skipping missing ones as pandas' `max` skips NaT;
      None when no row has a date. */
  function MaxDate(rows: seq<Transaction>): (r: Option<Day>)
    ensures r.None? <==> forall t :: t in rows ==> t.date.None?
    ensures r.Some? ==> exists t :: t in rows && t.date == r
    ensures r.Some? ==> forall t :: t in rows && t.date.Some? ==> t.date.value <= r.value
  {
    if rows == [] then None
    else
      var rest := MaxDate(rows[1..]);
      match rows[0].date
      case None => rest
      case Some(d) =>
        if rest.Some? && rest.value > d then rest else Some(d)
  }

  /** The latest date of a part of the table is no later than the table's, and
      equals it when the part holds a row of the table's latest date. */
  lemma MaxDateOfPart(rows: seq<Transaction>, part: seq<Transaction>)
    requires forall t :: t in part ==> t in rows
    ensures MaxDate(part).Some? ==> MaxDate(rows).Some? && MaxDate(part).value <= MaxDate(rows).value
  {
    var last := MaxDate(part);
    if last.Some? {
      var u :| u in part && u.date == last;
      assert u in rows && u.date.Some?;
    }
  }

  lemma MaxDateOfPartAt(rows: seq<Transaction>, part: seq<Transaction>, t: Transaction)
    requires forall x :: x in part ==> x in rows
    requires t in part && t.date.Some? && t.date == MaxDate(rows)
    ensures MaxDate(part) == MaxDate(rows)
  {
    var last, latest := MaxDate(part), MaxDate(rows);
    assert last.Some? && t.date.value <= last.value;
    var u :| u in part && u.date == last;
    assert u in rows && u.date.Some?;
    assert u.date.value <= latest.value;
    assert last.value == latest.value;
  }

  /** A present date that no other date exceeds is the maximum. */
  lemma MaxDateIs(rows: seq<Transaction>, d: Day)
    requires exists t :: t in rows && t.date == Some(d)
    requires forall t :: t in rows && t.date.Some? ==> t.date.value <= d
    ensures MaxDate(rows) == Some(d)
  {
    var latest := MaxDate(rows);
    var u :| u in rows && u.date == latest;
    assert u.date.Some? && u.date.value <= d;
  }
}
