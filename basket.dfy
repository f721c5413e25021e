/** The Market Basket page's incidence matrix: one row per order, one column per
    category, 1 where the order spent something in the category and 0 elsewhere. */
module Basket {
  import opened Transactions
  import opened GroupBy

  type Pair = (OrderId, Category)

  function PairKey(t: Transaction): Option<Pair> { Some((t.orderId, t.category)) }

  function Orders(rows: seq<Transaction>): set<OrderId>
  {
    set t | t in rows :: t.orderId
  }

  function Categories(rows: seq<Transaction>): set<Category>
  {
    set t | t in rows :: t.category
  }

  /** `.unstack().fillna(0)`: orders become the index and categories the columns
      of a full table, with 0 in every cell whose pair had no rows. */
  function Unstack(sums: map<Pair, real>): (table: map<OrderId, map<Category, real>>)
    ensures table.Keys == set p | p in sums :: p.0
    ensures forall o :: o in table ==> table[o].Keys == set p | p in sums :: p.1
    ensures forall o, c :: o in table && c in table[o] ==> table[o][c] == if (o, c) in sums then sums[(o, c)] else 0.0
  {
    var index := set p | p in sums :: p.0;
    var columns := set p | p in sums :: p.1;
    map o | o in index :: map c | c in columns :: if (o, c) in sums then sums[(o, c)] else 0.0
  }

  /** `.applymap(lambda x: 1 if x > 0 else 0)` */
  function Presence(table: map<OrderId, map<Category, real>>): (b: map<OrderId, map<Category, int>>)
    ensures b.Keys == table.Keys
    ensures forall o :: o in b ==> b[o].Keys == table[o].Keys
    ensures forall o, c :: o in b && c in b[o] ==> b[o][c] == if table[o][c] > 0.0 then 1 else 0
  {
    map o | o in table :: map c | c in table[o] :: if table[o][c] > 0.0 then 1 else 0
  }

  /** `df.groupby(["OrderID", "Category"])["Amount"].sum().unstack().fillna(0)`
      followed by the 0/1 mapping. */
  function BasketMatrix(rows: seq<Transaction>): (b: map<OrderId, map<Category, int>>)
    ensures b.Keys == Orders(rows)
    ensures forall o :: o in b ==> b[o].Keys == Categories(rows)
    ensures forall o, c :: o in b && c in b[o] ==> b[o][c] == 0 || b[o][c] == 1
    ensures forall o, c :: o in b && c in b[o] ==> (b[o][c] == 1 <==> SumWhere(rows, PairKey, (o, c)) > 0.0)
  {
    UnstackedSums(rows);
    Presence(Unstack(GroupSum(rows, PairKey)))
  }

  /** The unstacked pair sums: orders by categories, each cell the pair's sum. */
  lemma UnstackedSums(rows: seq<Transaction>)
    ensures var table := Unstack(GroupSum(rows, PairKey));
      && table.Keys == Orders(rows)
      && (forall o :: o in table ==> table[o].Keys == Categories(rows))
      && (forall o, c :: o in table && c in table[o] ==> table[o][c] == SumWhere(rows, PairKey, (o, c)))
  {
    PairAxes(rows);
    SumWhereAbsent(rows, PairKey);
  }

  /** The pairs present in the table project onto exactly its orders and its categories. */
  lemma PairAxes(rows: seq<Transaction>)
    ensures (set p | p in KeysOf(rows, PairKey) :: p.0) == Orders(rows)
    ensures (set p | p in KeysOf(rows, PairKey) :: p.1) == Categories(rows)
  {
    var keys := KeysOf(rows, PairKey);
    forall o | o in Orders(rows) ensures o in (set p | p in keys :: p.0) {
      var t :| t in rows && t.orderId == o;
      assert PairKey(t).value in keys;
    }
    forall c | c in Categories(rows) ensures c in (set p | p in keys :: p.1) {
      var t :| t in rows && t.category == c;
      assert PairKey(t).value in keys;
    }
    forall p | p in keys ensures p.0 in Orders(rows) && p.1 in Categories(rows) {
      var t :| t in rows && PairKey(t).Some? && PairKey(t).value == p;
    }
  }

  /** A pair with no rows is 0: absent combinations are filled with 0 before the mapping. */
  lemma AbsentPairIsZero(rows: seq<Transaction>, o: OrderId, c: Category)
    requires o in Orders(rows) && c in Categories(rows)
    requires forall t :: t in rows ==> t.orderId != o || t.category != c
    ensures BasketMatrix(rows)[o][c] == 0
  {
    SumWhereAbsent(rows, PairKey);
    assert (o, c) !in KeysOf(rows, PairKey);
  }

  /** With non-negative amounts, a cell is 1 exactly when the order has a row of
      that category with a positive amount. */
  lemma CellIsPresence(rows: seq<Transaction>, o: OrderId, c: Category)
    requires forall t :: t in rows ==> t.amount >= 0.0
    requires o in Orders(rows) && c in Categories(rows)
    ensures BasketMatrix(rows)[o][c] == 1
        <==> exists t :: t in rows && t.orderId == o && t.category == c && t.amount > 0.0
  {
    SumWherePositive(rows, PairKey, (o, c));
  }

  /** The Market Basket page: it needs both the Category and the OrderID column. */
  function BasketPage(t: Table): (r: Result<map<OrderId, map<Category, int>>, AnalysisError>)
    ensures r.Ok? <==> CategoryColumn in t.columns && OrderIdColumn in t.columns
    ensures r.Ok? ==> r.value == BasketMatrix(t.rows)
    ensures r.Err? ==> r.error.MissingColumns? && r.error.analysis == MarketBasket
  {
    match Gate(t.columns, MarketBasket)
    case Some(e) => Err(e)
    case None => Ok(BasketMatrix(t.rows))
  }
}
