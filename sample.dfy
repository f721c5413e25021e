/** The nine-row sample dataset the dashboard falls back to when no file is
    uploaded, and the figures every page shows for it. */
module Sample {
  import opened Transactions
  import opened Kpi
  import opened Rfm
  import opened Basket
  import opened Forecast

  /** Day 19358 since 1970-01-01 is 2023-01-01. */
  const FirstDay: Day := 19358

  function SampleRows(): (rows: seq<Transaction>)
    ensures |rows| == 9
  {
    [ Transaction("1", Some(FirstDay + 0), "C001", 200.0, "Electronics"),
      Transaction("2", Some(FirstDay + 1), "C002", 150.0, "Fashion"),
      Transaction("3", Some(FirstDay + 2), "C003", 300.0, "Home"),
      Transaction("4", Some(FirstDay + 3), "C002", 250.0, "Electronics"),
      Transaction("5", Some(FirstDay + 4), "C001", 100.0, "Fashion"),
      Transaction("6", Some(FirstDay + 5), "C004", 400.0, "Electronics"),
      Transaction("7", Some(FirstDay + 6), "C003", 200.0, "Fashion"),
      Transaction("8", Some(FirstDay + 7), "C001", 350.0, "Home"),
      Transaction("9", Some(FirstDay + 8), "C002", 220.0, "Electronics") ]
  }

  /** All five columns, as `pd.read_csv` reads the sample's header line. */
  function SampleTable(): Table
  {
    Table({OrderIdColumn, DateColumn, CategoryColumn}, SampleRows())
  }

  lemma SampleTotalSales()
    ensures TotalSales(SampleRows()) == 2170.0
  {
  }

  lemma SampleUniqueCustomers()
    ensures UniqueCustomers(SampleRows()) == 4
  {
    var rows := SampleRows();
    assert Customers(rows) == {"C001", "C002", "C003", "C004"} by {
      assert rows[0].customerId == "C001" && rows[1].customerId == "C002";
      assert rows[2].customerId == "C003" && rows[5].customerId == "C004";
    }
  }

  /** The snapshot is 2023-01-10, one day after the last order. */
  lemma SampleSnapshot()
    ensures Snapshot(SampleRows()) == Some(FirstDay + 9)
  {
    var rows := SampleRows();
    assert rows[8] in rows;
    MaxDateIs(rows, FirstDay + 8);
  }

  /** C001 ordered on 2023-01-01, 01-05 and 01-08: last seen two days before the
      snapshot, three orders, 650 spent. */
  lemma SampleRfmC001()
    ensures "C001" in RfmTable(SampleRows())
    ensures RfmTable(SampleRows())["C001"] == RfmRecord(Some(2), 3, 650.0)
  {
    var rows := SampleRows();
    assert rows[0] in rows;
    RecordOfC001();
  }

  lemma RecordOfC001()
    ensures CustomerRecord(SampleRows(), "C001") == RfmRecord(Some(2), 3, 650.0)
  {
    GroupFiguresOfC001();
    SampleSnapshot();
  }

  lemma GroupFiguresOfC001()
    ensures |RowsOf(SampleRows(), "C001")| == 3
    ensures TotalSales(RowsOf(SampleRows(), "C001")) == 650.0
    ensures MaxDate(RowsOf(SampleRows(), "C001")) == Some(FirstDay + 7)
  {
    DistinctCustomers();
    FiguresOfC001(SampleRows());
  }

  lemma FiguresOfC001(rows: seq<Transaction>)
    requires |rows| == 9
    requires rows[0].customerId == rows[4].customerId == rows[7].customerId == "C001"
    requires rows[1].customerId != "C001" && rows[2].customerId != "C001" && rows[3].customerId != "C001"
    requires rows[5].customerId != "C001" && rows[6].customerId != "C001" && rows[8].customerId != "C001"
    requires rows[0].amount + rows[4].amount + rows[7].amount == 650.0
    requires rows[0].date == Some(FirstDay) && rows[4].date == Some(FirstDay + 4) && rows[7].date == Some(FirstDay + 7)
    ensures |RowsOf(rows, "C001")| == 3
    ensures TotalSales(RowsOf(rows, "C001")) == 650.0
    ensures MaxDate(RowsOf(rows, "C001")) == Some(FirstDay + 7)
  {
    GroupOfC001(rows);
    var g := [rows[0], rows[4], rows[7]];
    assert g[2] in g;
    MaxDateIs(g, FirstDay + 7);
    TotalOfThree(rows[0], rows[4], rows[7]);
  }

  lemma TotalOfThree(a: Transaction, b: Transaction, c: Transaction)
    ensures TotalSales([a, b, c]) == a.amount + b.amount + c.amount
  {
    var g := [a, b, c];
    assert g[1..] == [b, c] && g[1..][1..] == [c] && g[1..][1..][1..] == [];
    assert TotalSales([c]) == c.amount;
    assert TotalSales([b, c]) == b.amount + c.amount;
  }

  /** Any seven fitted values are shown against 2023-01-10 through 2023-01-16. */
  lemma SampleForecastDays(values: ForecastValues)
    ensures ForecastPage(SampleTable(), Fitted(values)).Ok?
    ensures ForecastPage(SampleTable(), Fitted(values)).value.index == seq(7, i => FirstDay + 9 + i)
  {
    SampleSnapshot();
    ForecastAfterLastDay(SampleTable(), values, FirstDay + 8);
  }

  /** Without its Date column a table still has its KPIs, its category sales and its
      basket matrix, but no daily trend, no RFM table and no forecast. */
  lemma WithoutDate(rows: seq<Transaction>, fit: FitOutcome)
    ensures var t := Table({OrderIdColumn, CategoryColumn}, rows);
      && DataOverview(t).totalSales == TotalSales(rows)
      && DataOverview(t).dailySales.None?
      && DataOverview(t).categorySales == Some(CategorySales(rows))
      && RfmPage(t) == Err(MissingColumns(RfmSegmentation, {DateColumn}))
      && BasketPage(t) == Ok(BasketMatrix(rows))
      && ForecastPage(t, fit) == Err(MissingColumns(SalesForecast, {DateColumn}))
  {
    var t := Table({OrderIdColumn, CategoryColumn}, rows);
    assert Required(RfmSegmentation) - t.columns == {DateColumn};
  }

  lemma RowsOfStep(rows: seq<Transaction>, k: nat, c: CustomerId)
    requires k < |rows|
    ensures RowsOf(rows[k..], c) == (if rows[k].customerId == c then [rows[k]] else []) + RowsOf(rows[k + 1..], c)
  {
    assert rows[k..][1..] == rows[k + 1..];
  }

  lemma DistinctCustomers()
    ensures "C001" != "C002" && "C001" != "C003" && "C001" != "C004"
    ensures "C002" != "C003" && "C002" != "C004" && "C003" != "C004"
  {
    assert "C001"[3] == '1' && "C002"[3] == '2' && "C003"[3] == '3' && "C004"[3] == '4';
  }

  /** C001's rows of the sample are its first, fifth and eighth. */
  lemma GroupOfC001(rows: seq<Transaction>)
    requires |rows| == 9
    requires rows[0].customerId == rows[4].customerId == rows[7].customerId == "C001"
    requires rows[1].customerId != "C001" && rows[2].customerId != "C001" && rows[3].customerId != "C001"
    requires rows[5].customerId != "C001" && rows[6].customerId != "C001" && rows[8].customerId != "C001"
    ensures RowsOf(rows, "C001") == [rows[0], rows[4], rows[7]]
  {
    assert rows[9..] == [];
    RowsOfStep(rows, 8, "C001");
    assert RowsOf(rows[8..], "C001") == [];
    RowsOfStep(rows, 7, "C001");
    assert RowsOf(rows[7..], "C001") == [rows[7]];
    RowsOfStep(rows, 6, "C001");
    assert RowsOf(rows[6..], "C001") == [rows[7]];
    RowsOfStep(rows, 5, "C001");
    assert RowsOf(rows[5..], "C001") == [rows[7]];
    RowsOfStep(rows, 4, "C001");
    assert RowsOf(rows[4..], "C001") == [rows[4], rows[7]];
    RowsOfStep(rows, 3, "C001");
    assert RowsOf(rows[3..], "C001") == [rows[4], rows[7]];
    RowsOfStep(rows, 2, "C001");
    assert RowsOf(rows[2..], "C001") == [rows[4], rows[7]];
    RowsOfStep(rows, 1, "C001");
    assert RowsOf(rows[1..], "C001") == [rows[4], rows[7]];
  }
}
