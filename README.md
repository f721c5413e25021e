# E-commerce sales analytics dashboard — Dafny model

This project models the analytics computations of a Streamlit dashboard over one transaction table (`app.py`).
Each row of the table has an OrderID, a Date, a CustomerID, an Amount and a Category.
The dashboard has four pages:

- **Data Overview**: the Total Sales and Unique Customers KPIs, daily sales and sales per category.
- **RFM Segmentation**: recency, frequency and monetary value per customer, measured against a snapshot one day after the latest date.
- **Market Basket Analysis**: an order × category 0/1 matrix, then a directed graph from every antecedent item to every consequent item of every association rule, weighted by the rule's lift.
- **Sales Forecasting**: the daily sales series, followed by a seven-day forecast indexed by the seven days after the last day of the series.

Each page tests for the optional columns Date, Category and OrderID that its analysis needs; none tests for CustomerID or Amount. The Data Overview page leaves out a chart whose column is missing. The RFM, Market Basket and Sales Forecasting pages show a warning instead of their result. As written, the RFM page does not test for every column it reads and fails instead (see "## Findings"); the model's RFM page is the corrected one.

Modules:

- `Transactions` (`transactions.dfy`): the row type, dates, the column check, Total Sales, the distinct customers, one customer's rows and the latest date.
- `GroupBy` (`group_by.dfy`): pandas' `groupby(key)["Amount"].sum()` as `GroupSum`, with an independent per-key reference sum (`SumWhere`) and the total of a map's values.
- `Kpi` (`kpi.dfy`): the Data Overview page.
- `Rfm` (`rfm.dfy`): the RFM page.
- `Basket` (`basket.dfy`): the incidence matrix of the Market Basket page.
- `Cooccurrence` (`cooccurrence.dfy`): the rule network.
  - It is an imperative model: a `DiGraph` class whose `AddEdge` updates its node set and weight map in place.
  - `BuildGraph` runs the three nested loops and is proved equal to the function `EdgeWeights`.
  - `EdgeWeights` states last-write-wins over the rule order.
- `Forecast` (`forecast.dfy`): the forecast page's date index and its outcomes.
- `Sample` (`sample.dfy`): the nine-row sample dataset and the figures it gives, plus how the pages behave without a Date column.

Representation choices:

- Dates are whole days counted from 1970-01-01; day 19358 is 2023-01-01.
  - A date that `pd.to_datetime(errors="coerce")` could not parse (NaT) is `None`.
  - Like pandas, groupby and `max` skip it.
- Amounts are exact `real`s.
- OrderIDs are strings: `read_csv` gives integers for a numeric column and strings otherwise, and the model only compares OrderIDs, so a numeric ID stands for its decimal text.
- A recency that pandas would make NaN is `None`: either no row has a date, or the customer has no dated row.

Two consequences of the code worth noting:

- Recency is at least 1, never 0, because the snapshot is the day after the latest date (`Rfm.RecencyAtLeastOne`).
- Daily sales group on the parsed timestamp; with whole-day dates that is the calendar day.

## Model

| member | source | states |
|---|---|---|
| Transactions.Gate | app.py:91 | The column test of a page (lines 60, 66, 91, 145): no error exactly when every required column is present; otherwise a MissingColumns error naming the page and exactly the absent required columns. For the RFM page it tests the corrected set, Date and OrderID; the Date-only test of line 75 is `Rfm.RfmPageAsWritten` |
| Transactions.TotalSalesAppend | app.py:56 | Total Sales of two concatenated tables is the sum of their totals |
| Transactions.TotalSales | app.py:56 | The Total Sales KPI, `df["Amount"].sum()`: with no negative amount it is non-negative and no single amount exceeds it; `TotalSalesAppend` splits it over concatenation |
| Transactions.RowsOf | app.py:78 | A customer's group holds exactly the table's rows with that CustomerID, each as many times as in the table, and is no longer than the table |
| Transactions.MaxDate | app.py:77 | `df["Date"].max()`: absent exactly when no row has a date; otherwise the date of some row and no earlier than any present date |
| Transactions.MaxDateOfPart | app.py:79 | The latest date of a customer's group never exceeds the table's latest date |
| Transactions.MaxDateOfPartAt | app.py:79 | A group that holds a row of the table's latest date has that latest date |
| Transactions.MaxDateIs | app.py:77 | A present date that no date exceeds is the maximum |
| GroupBy.GroupSum | app.py:62 | One key per distinct present key value, each holding the sum of the amounts of the rows with that key; rows with a missing key are dropped |
| GroupBy.SumWhereAbsent | app.py:99 | A key that no row carries sums to 0, which is what `fillna(0)` puts in absent cells |
| GroupBy.GroupSumTotal | app.py:62 | The group sums add up to the amounts of the rows whose key is present |
| GroupBy.SumPresentTotal | app.py:68 | When every row has the key, those amounts are Total Sales |
| GroupBy.SumWherePositive | app.py:100 | With non-negative amounts, a group sum is non-negative, and positive exactly when one of its rows has a positive amount |
| Kpi.UniqueCustomers | app.py:57 | `nunique` of CustomerID: never more than the number of rows, and 0 only for an empty table |
| Kpi.CustomersBound | app.py:57 | There are no more distinct customers than rows, and the first row's customer is one of them |
| Kpi.DailySales | app.py:62 | A date is a key exactly when some row has it; its value is the sum of that date's amounts |
| Kpi.CategorySales | app.py:68 | A category is a key exactly when some row has it; its value is the sum of that category's amounts |
| Kpi.DailySalesTotal | app.py:62 | The daily sums add up to the sales of the dated rows, which is Total Sales when every row has a date |
| Kpi.CategorySalesTotal | app.py:68 | The category sums add up to Total Sales |
| Kpi.DataOverview | app.py:56-69 | The KPIs are always shown: Total Sales, and Unique Customers as the number of distinct CustomerIDs; the daily trend appears exactly when Date exists and the category chart exactly when Category exists, each equal to its groupby |
| Rfm.Snapshot | app.py:77 | Absent exactly when no row has a date; otherwise after every present date, and exactly one day after some row's date |
| Rfm.Recency | app.py:79 | `(snapshot_date - x.max()).days`: present exactly when both dates are, and then the number of days from the last date to the snapshot |
| Rfm.CustomerRecord | app.py:78-82 | One customer's `agg`: frequency is the size of the customer's group, monetary the customer's reference sum of amounts, and recency is present exactly when there is a snapshot and the customer has a dated row, in which case some row of the customer is dated `recency` days before the snapshot and none later |
| Rfm.RfmTable | app.py:78-82 | One record per distinct CustomerID; frequency is the customer's row count, at least 1; monetary is the customer's sum of amounts; recency's value is stated by `Rfm.RecencyValue` |
| Rfm.RecencyValue | app.py:77-79 | A present recency lies after a snapshot: some row of the customer is dated exactly `recency` days before the snapshot, and none of the customer's rows is dated later |
| Rfm.FrequencyIsCount | app.py:80 | Frequency equals the number of the customer's rows, counted independently of the group |
| Rfm.CustomerSum | app.py:81 | Summing a customer's group equals the per-customer reference sum over the whole table |
| Rfm.RecencyMissing | app.py:79 | Recency is missing exactly when none of the customer's rows has a date |
| Rfm.RecencyAtLeastOne | app.py:77-79 | Every present recency is at least 1 day |
| Rfm.RecencyOneAtLatest | app.py:77-79 | Recency is exactly 1 if and only if the customer has a row on the table's latest date |
| Rfm.LastDateAtLatest | app.py:79 | A customer's last date is the table's latest date if and only if one of the customer's rows has that date |
| Rfm.CustomerKeys | app.py:78 | Grouping by CustomerID drops no row: its keys are exactly the distinct customers |
| Rfm.MonetaryIsGroupSum | app.py:81 | The Monetary column is `df.groupby("CustomerID")["Amount"].sum()` |
| Rfm.MonetaryTotal | app.py:81 | Monetary summed over all customers is Total Sales |
| Rfm.RfmPageAsWritten | app.py:75-85 | The RFM page as written: without Date a column warning; with Date but without OrderID the `agg` raises a KeyError; with both, the RFM table |
| Rfm.RfmPageAsWrittenRaises | app.py:75-80 | As written, a table with Date but without OrderID passes the column test and then fails with a KeyError on OrderID |
| Rfm.RfmPage | app.py:75-85 | Corrected page: a table exactly when both Date and OrderID exist, equal to the RFM table; otherwise a column warning; it agrees with the as-written page wherever that one does not raise |
| Basket.Unstack | app.py:99 | `unstack().fillna(0)`: rows are the orders of the pairs, columns their categories, and each cell is the pair's sum or 0 |
| Basket.Presence | app.py:100 | `applymap`: the same shape, 1 where the cell is positive and 0 elsewhere |
| Basket.BasketMatrix | app.py:99-100 | One row per distinct OrderID and one column per distinct Category; every cell is 0 or 1, and 1 exactly when the pair's summed amount is positive |
| Basket.UnstackedSums | app.py:99 | The unstacked table spans every order by every category, each cell being the pair's sum |
| Basket.PairAxes | app.py:99 | The (order, category) pairs present project onto exactly the table's orders and categories |
| Basket.AbsentPairIsZero | app.py:99-100 | An order with no row in a category has 0 in that cell |
| Basket.CellIsPresence | app.py:99-100 | With non-negative amounts, a cell is 1 exactly when the order has a row of that category with a positive amount |
| Basket.BasketPage | app.py:91-100 | The matrix is built exactly when both Category and OrderID exist; otherwise a column warning for the basket page |
| Cooccurrence.DiGraph.constructor | app.py:127 | `nx.DiGraph()` starts with no nodes and no edges |
| Cooccurrence.DiGraph.AddEdge | app.py:132 | `add_edge` adds both endpoints and sets the edge's weight, replacing any earlier weight; nothing else changes |
| Cooccurrence.BuildGraph | app.py:127-132 | The loops build a graph whose weights are `EdgeWeights(rules)` and whose nodes are exactly the endpoints of its edges (`Valid`) |
| Cooccurrence.AddRule | app.py:130-132 | One rule's loop overwrites the weight of every (antecedent, consequent) pair with the rule's lift and keeps every other edge |
| Cooccurrence.AddTargets | app.py:131-132 | One antecedent's loop joins it to every consequent with the given weight and keeps every other edge |
| Cooccurrence.EdgeFromSomeRule | app.py:129-132 | An edge exists if and only if some rule has its source among the antecedents and its target among the consequents |
| Cooccurrence.LastWriteWins | app.py:129-132 | An edge's weight is the lift of the last rule, in iteration order, that pairs its endpoints |
| Cooccurrence.WeightsAtLeast | app.py:115-132 | When every rule's lift is at least a threshold, so is every edge weight |
| Cooccurrence.NodesAreRuleItems | app.py:127-132 | With no empty rule side, the graph's nodes are exactly the items the rules mention |
| Forecast.ForecastIndex | app.py:160-161 | Seven dates, the i-th being the last date plus 1 + i days |
| Forecast.ForecastIndexFollows | app.py:160-161 | The first forecast date is the day after the last date; each later one is one day after the previous; all lie within seven days after the last date |
| Forecast.LastIndex | app.py:160 | `ts.index[-1]` is the table's latest present date: a key of the daily series and no earlier than any key; there is none exactly when the series is empty |
| Forecast.ForecastPage | app.py:145-173 | Without Date: the column warning. Otherwise a forecast exactly when the fit succeeded and some row has a date, showing the daily series and the seven days after the latest date; every other case is the `except` branch's error, carrying the fit's message when the fit failed |
| Forecast.ForecastAfterLastDay | app.py:148-162 | With a Date column, a latest date and seven fitted values, the page shows the daily series, the seven days after that date and the values |
| Forecast.ForecastFollowsHistory | app.py:159-161 | The forecast has seven dates; the day before the first is a day of the series, and every day of the series precedes every forecast date |
| Sample.SampleRows | app.py:21-30 | The nine sample rows |
| Sample.SampleTotalSales | app.py:56 | The sample's Total Sales is 2170 |
| Sample.SampleUniqueCustomers | app.py:57 | The sample has 4 unique customers |
| Sample.SampleSnapshot | app.py:77 | The sample's snapshot is 2023-01-10 |
| Sample.SampleRfmC001 | app.py:77-82 | C001's record is recency 2, frequency 3, monetary 650 |
| Sample.SampleForecastDays | app.py:160-161 | Any seven fitted values on the sample are indexed 2023-01-10 to 2023-01-16 |
| Sample.WithoutDate | app.py:60-85 | Without a Date column, a table keeps its KPIs, its category sales and its basket matrix, but gets no daily trend, and column warnings instead of the RFM table and the forecast |

## Left out

- The Streamlit interface is not modelled: sidebar, upload widget, page radio, sliders, metric formatting, `df.head()`, tables and charts. It is presentation only.
- CSV reading and `pd.to_datetime` are not modelled. A table is given as columns plus rows, and a date that did not parse is `None`.
- `apriori` and `association_rules` (mlxtend) are foreign code. The rules are an input sequence to `BuildGraph`.
- The two warnings for no frequent itemsets and no rules are not modelled. They decide only whether the graph is drawn.
- The forecast series is modelled as the seven fitted values placed on `forecast_index`. The source builds it with `pd.Series(forecast, index=forecast_index)`, which aligns the forecast Series on those dates. The model assumes statsmodels indexed the forecast by the same seven days. When it cannot, for example when the daily series has gaps and no daily frequency can be inferred, the source shows missing values instead.
- The forecast values themselves are not modelled. ARIMA fitting is floating-point numerics in statsmodels. What the fit returned, or the message it raised, is the `FitOutcome` parameter of `ForecastPage`.
- `spring_layout` and all drawing are not modelled. The layout is randomised and the rest is rendering.
- Floating-point rounding of the amount sums is not modelled. Amounts are exact reals.
- Time of day is not modelled. Dates are whole days: the sample's dates, and dates read without a time, are midnights.
- Missing CustomerID, Amount, OrderID and Category values in a row are not modelled; only a missing Date is. Frequency is therefore the customer's row count, which is what OrderID `count` gives when no OrderID is missing.
- The text of the warnings is not modelled. In particular, the basket page's warning (line 139) always names both OrderID and Category, while `Gate` names only the absent ones.
- A table without a CustomerID or Amount column is not modelled. The pages read those two columns without testing for them.
- A table without a Category column still carries a category in each row. No page reads it then.
- The iteration order of a rule's antecedent and consequent sets is not modelled. Every pair of one rule gets the same lift, so the order cannot change the graph.
- Networkx attributes other than nodes and edge weights are not modelled.

## Findings

| source | as written | input that shows it | evidently intended | confidence | as-written member | corrected member |
|---|---|---|---|---|---|---|
| app.py:75-80 | The RFM page tests only for the Date column, but its `agg` also reads the OrderID column | A table with Date but without an OrderID column: the page raises a KeyError instead of showing a warning (`Rfm.RfmPageAsWrittenRaises`) | One of two readings: test for OrderID as well, as the basket page does at line 91, and warn when it is missing (the reading modelled); the other is to count the customer's rows without reading OrderID, so that the page runs without it | not executed | Rfm.RfmPageAsWritten | Rfm.RfmPage |
