/** The RFM Segmentation page: recency, frequency and monetary value per customer,
    measured against a snapshot one day after the latest date in the table. */
module Rfm {
  import opened Transactions
  import opened GroupBy

  /** One row of the RFM table. Recency is None where pandas produces NaN: when the
      snapshot is NaT (no date in the table) or the customer has no date. */
  datatype RfmRecord = RfmRecord(recency: Option<int>, frequency: nat, monetary: real)

  function CustomerKey(t: Transaction): Option<CustomerId> { Some(t.customerId) }

  /** `df["Date"].max() + timedelta(days=1)`: the day after the latest present date. */
  function Snapshot(rows: seq<Transaction>): (s: Option<Day>)
    ensures s.None? <==> forall t :: t in rows ==> t.date.None?
    ensures s.Some? ==> forall t :: t in rows && t.date.Some? ==> t.date.value < s.value
    ensures s.Some? ==> exists t :: t in rows && t.date == Some(s.value - 1)
  {
    match MaxDate(rows)
    case None => None
    case Some(d) => Some(d + 1)
  }

  /** `(snapshot_date - x.max()).days`, where NaT on either side gives NaN. */
  function Recency(snapshot: Option<Day>, last: Option<Day>): (r: Option<int>)
    ensures r.Some? <==> snapshot.Some? && last.Some?
    ensures r.Some? ==> last.value + r.value == snapshot.value
  {
    if snapshot.Some? && last.Some? then Some(snapshot.value - last.value) else None
  }

  /** The `agg` of one customer's group: recency from the group's latest date,
      frequency as the count of its OrderIDs, monetary as the sum of its amounts. */
  function CustomerRecord(rows: seq<Transaction>, c: CustomerId): (r: RfmRecord)
    ensures r.frequency == |RowsOf(rows, c)|
    ensures r.monetary == SumWhere(rows, CustomerKey, c)
    ensures r.recency.Some? <==> Snapshot(rows).Some? && exists t :: t in rows && t.customerId == c && t.date.Some?
    ensures r.recency.Some? ==> DaysBefore(rows, c, Snapshot(rows).value, r.recency.value)
  {
    CustomerSum(rows, c);
    GroupRecency(rows, c);
    var g := RowsOf(rows, c);
    RfmRecord(Recency(Snapshot(rows), MaxDate(g)), |g|, TotalSales(g))
  }

  /** Some row of customer `c` is dated `days` days before `snapshot`, and none of
      the customer's rows is dated later than that. */
  ghost predicate DaysBefore(rows: seq<Transaction>, c: CustomerId, snapshot: Day, days: int)
  {
    && (exists t :: t in rows && t.customerId == c && t.date == Some(snapshot - days))
    && forall t :: t in rows && t.customerId == c && t.date.Some? ==> t.date.value <= snapshot - days
  }

  /** The recency of a customer's group measures from the customer's latest date. */
  lemma GroupRecency(rows: seq<Transaction>, c: CustomerId)
    ensures var r := Recency(Snapshot(rows), MaxDate(RowsOf(rows, c)));
      r.Some? <==> Snapshot(rows).Some? && exists t :: t in rows && t.customerId == c && t.date.Some?
    ensures var r := Recency(Snapshot(rows), MaxDate(RowsOf(rows, c)));
      r.Some? ==> DaysBefore(rows, c, Snapshot(rows).value, r.value)
  {
    var last := MaxDate(RowsOf(rows, c));
    GroupLastDate(rows, c);
    if last.Some? && Snapshot(rows).Some? {
      assert Snapshot(rows).value - Recency(Snapshot(rows), last).value == last.value;
    }
  }

  /** A customer's group has a latest date exactly when one of the customer's rows
      is dated, and then that date is the customer's latest. */
  lemma GroupLastDate(rows: seq<Transaction>, c: CustomerId)
    ensures MaxDate(RowsOf(rows, c)).Some? <==> exists t :: t in rows && t.customerId == c && t.date.Some?
    ensures MaxDate(RowsOf(rows, c)).Some? ==> DaysBefore(rows, c, MaxDate(RowsOf(rows, c)).value, 0)
  {
    var g := RowsOf(rows, c);
    if t :| t in rows && t.customerId == c && t.date.Some? {
      assert t in g;
    }
    if MaxDate(g).Some? {
      var last := MaxDate(g).value;
      var u :| u in g && u.date == Some(last);
      assert u in rows && u.customerId == c && u.date == Some(last - 0);
      forall t | t in rows && t.customerId == c && t.date.Some?
        ensures t.date.value <= last - 0
      {
        assert t in g;
      }
    }
  }

  /** `df.groupby("CustomerID").agg(...)`: one record per distinct customer. */
  function RfmTable(rows: seq<Transaction>): (r: map<CustomerId, RfmRecord>)
    ensures r.Keys == Customers(rows)
    ensures forall c :: c in r ==> r[c].frequency == |RowsOf(rows, c)| >= 1
    ensures forall c :: c in r ==> r[c].monetary == SumWhere(rows, CustomerKey, c)
  {
    forall c | c in Customers(rows)
      ensures |RowsOf(rows, c)| >= 1
    {
      var t :| t in rows && t.customerId == c;
      assert t in RowsOf(rows, c);
    }
    map c | c in Customers(rows) :: CustomerRecord(rows, c)
  }

  /** Recency's value: the snapshot lies exactly `recency` days after one of the
      customer's dates, and none of the customer's dates is later than that one. */
  lemma RecencyValue(rows: seq<Transaction>, c: CustomerId)
    requires c in RfmTable(rows) && RfmTable(rows)[c].recency.Some?
    ensures Snapshot(rows).Some?
    ensures DaysBefore(rows, c, Snapshot(rows).value, RfmTable(rows)[c].recency.value)
  {
    assert RfmTable(rows)[c] == CustomerRecord(rows, c);
  }

  /** Summing a customer's group is summing the table's rows with that CustomerID. */
  lemma {:induction false} CustomerSum(rows: seq<Transaction>, c: CustomerId)
    ensures TotalSales(RowsOf(rows, c)) == SumWhere(rows, CustomerKey, c)
  {
    if rows != [] {
      CustomerSum(rows[1..], c);
      if rows[0].customerId == c {
        TotalSalesAppend([rows[0]], RowsOf(rows[1..], c));
      }
    }
  }

  /** The number of rows with CustomerID `c`, counted one row at a time. */
  function CountOf(rows: seq<Transaction>, c: CustomerId): nat
  {
    if rows == [] then 0 else (if rows[0].customerId == c then 1 else 0) + CountOf(rows[1..], c)
  }

  /** Frequency (`"OrderID": "count"`) is the number of the customer's rows. */
  lemma {:induction false} FrequencyIsCount(rows: seq<Transaction>, c: CustomerId)
    ensures |RowsOf(rows, c)| == CountOf(rows, c)
    ensures c in RfmTable(rows) ==> RfmTable(rows)[c].frequency == CountOf(rows, c)
  {
    if rows != [] {
      FrequencyIsCount(rows[1..], c);
    }
  }

  /** Recency is missing exactly when the customer has no present date. */
  lemma RecencyMissing(rows: seq<Transaction>, c: CustomerId)
    requires c in Customers(rows)
    ensures RfmTable(rows)[c].recency.None? <==> forall t :: t in rows && t.customerId == c ==> t.date.None?
  {
    assert RfmTable(rows)[c] == CustomerRecord(rows, c);
    var g := RowsOf(rows, c);
    MaxDateOfPart(rows, g);
    if MaxDate(g).None? {
      forall t | t in rows && t.customerId == c ensures t.date.None? {
        assert t in g;
      }
    }
  }

  /** A present recency is at least one day: the snapshot lies after every date. */
  lemma RecencyAtLeastOne(rows: seq<Transaction>, c: CustomerId)
    requires c in Customers(rows)
    ensures RfmTable(rows)[c].recency.Some? ==> RfmTable(rows)[c].recency.value >= 1
  {
    assert RfmTable(rows)[c] == CustomerRecord(rows, c);
    MaxDateOfPart(rows, RowsOf(rows, c));
  }

  /** Recency is exactly one day for the customers who bought on the latest date. */
  lemma RecencyOneAtLatest(rows: seq<Transaction>, c: CustomerId)
    requires c in Customers(rows)
    ensures RfmTable(rows)[c].recency == Some(1)
        <==> exists t :: t in rows && t.customerId == c && t.date.Some? && t.date == MaxDate(rows)
  {
    var last := MaxDate(RowsOf(rows, c));
    assert RfmTable(rows)[c].recency == Recency(Snapshot(rows), last);
    MaxDateOfPart(rows, RowsOf(rows, c));
    RecencyIsOne(rows, last);
    LastDateAtLatest(rows, c);
  }

  lemma RecencyIsOne(rows: seq<Transaction>, last: Option<Day>)
    requires last.Some? ==> MaxDate(rows).Some?
    ensures Recency(Snapshot(rows), last) == Some(1) <==> last.Some? && last == MaxDate(rows)
  {
  }

  /** A customer's last date is the table's latest date exactly when one of the
      customer's rows carries that date. */
  lemma LastDateAtLatest(rows: seq<Transaction>, c: CustomerId)
    ensures MaxDate(RowsOf(rows, c)).Some? && MaxDate(RowsOf(rows, c)) == MaxDate(rows)
        <==> exists t :: t in rows && t.customerId == c && t.date.Some? && t.date == MaxDate(rows)
  {
    var g := RowsOf(rows, c);
    var latest, last := MaxDate(rows), MaxDate(g);
    if last.Some? && last == latest {
      var u :| u in g && u.date == last;
      assert u in rows && u.customerId == c && u.date.Some? && u.date == latest;
    }
    if t :| t in rows && t.customerId == c && t.date.Some? && t.date == latest {
      assert t in g;
      MaxDateOfPartAt(rows, g, t);
    }
  }

  /** Grouping by CustomerID drops nothing: its keys are exactly the customers. */
  lemma CustomerKeys(rows: seq<Transaction>)
    ensures KeysOf(rows, CustomerKey) == Customers(rows)
  {
    forall c | c in KeysOf(rows, CustomerKey) ensures c in Customers(rows) {
      var t :| t in rows && CustomerKey(t).Some? && CustomerKey(t).value == c;
    }
    forall c | c in Customers(rows) ensures c in KeysOf(rows, CustomerKey) {
      var t :| t in rows && t.customerId == c;
      assert CustomerKey(t).Some?;
    }
  }

  /** The monetary column is the per-customer group sum of Amount. */
  lemma MonetaryIsGroupSum(rows: seq<Transaction>)
    ensures (map c | c in RfmTable(rows) :: RfmTable(rows)[c].monetary) == GroupSum(rows, CustomerKey)
  {
    CustomerKeys(rows);
  }

  /** The monetary column adds up to the Total Sales KPI. */
  lemma MonetaryTotal(rows: seq<Transaction>)
    ensures MapTotal(map c | c in RfmTable(rows) :: RfmTable(rows)[c].monetary) == TotalSales(rows)
  {
    MonetaryIsGroupSum(rows);
    GroupSumTotal(rows, CustomerKey);
    SumPresentTotal(rows, CustomerKey);
  }

  /** The RFM page as the source writes it: it tests for the Date column only,
      but its `agg` also reads OrderID, so a table without OrderID raises. */
  function RfmPageAsWritten(t: Table): (r: Result<map<CustomerId, RfmRecord>, AnalysisError>)
    ensures DateColumn !in t.columns ==> r == Err(MissingColumns(RfmSegmentation, {DateColumn}))
    ensures DateColumn in t.columns && OrderIdColumn !in t.columns ==> r == Err(KeyError(OrderIdColumn))
    ensures r.Ok? <==> DateColumn in t.columns && OrderIdColumn in t.columns
    ensures r.Ok? ==> r.value == RfmTable(t.rows)
  {
    if DateColumn !in t.columns then Err(MissingColumns(RfmSegmentation, {DateColumn}))
    else if OrderIdColumn !in t.columns then Err(KeyError(OrderIdColumn))
    else Ok(RfmTable(t.rows))
  }

  /** A table with Date but without OrderID makes the as-written page raise. */
  lemma RfmPageAsWrittenRaises()
    ensures RfmPageAsWritten(Table({DateColumn, CategoryColumn}, [])) == Err(KeyError(OrderIdColumn))
  {
  }

  /** The RFM page with its column check covering every column it reads: it only
      ever warns, and it agrees with the as-written page wherever that one does not raise. */
  function RfmPage(t: Table): (r: Result<map<CustomerId, RfmRecord>, AnalysisError>)
    ensures r.Ok? <==> DateColumn in t.columns && OrderIdColumn in t.columns
    ensures r.Ok? ==> r.value == RfmTable(t.rows)
    ensures r.Err? ==> r.error.MissingColumns? && r.error.analysis == RfmSegmentation
    ensures RfmPageAsWritten(t) != Err(KeyError(OrderIdColumn)) ==> r.Ok? == RfmPageAsWritten(t).Ok?
    ensures RfmPageAsWritten(t).Ok? ==> r == RfmPageAsWritten(t)
  {
    match Gate(t.columns, RfmSegmentation)
    case Some(e) => Err(e)
    case None => Ok(RfmTable(t.rows))
  }
}
