/** Seven days of transactions, counted by day, by hour and by product. */
module Analytics {
  import opened Options
  import opened Arithmetic
  import opened Sorting

  /** A timestamp in UTC, or one without a zone, which is read as local. */
  datatype Stamp = Aware(seconds: int) | Naive(seconds: int)

  const JAKARTA_OFFSET: int := 25_200
  const DAY: int := 86_400
  const HOUR: int := 3_600

  function LocalSeconds(at: Stamp): int {
    match at
    case Aware(seconds) => seconds + JAKARTA_OFFSET
    case Naive(seconds) => seconds
  }

  function LocalDay(at: Stamp): int { LocalSeconds(at) / DAY }

  function LocalHour(at: Stamp): (hour: int)
    ensures 0 <= hour < 24
  {
    LocalSeconds(at) % DAY / HOUR
  }

  datatype Line = Line(product: int, at: Stamp, transaction: int, quantity: int, total: int)
  datatype Product = Product(id: int, name: int, createdAt: Stamp)

  const THRESHOLD: int := 7

  // -------------------------------------------------------------------- the tables

  datatype Kind = ByDay | ByHour | ByProduct

  function KeyOf(kind: Kind, line: Line): int {
    match kind
    case ByDay => LocalDay(line.at)
    case ByHour => LocalHour(line.at)
    case ByProduct => line.product
  }

  function KeysOf(kind: Kind, lines: seq<Line>): (r: seq<int>)
    ensures |r| == |lines| && forall i :: 0 <= i < |r| ==> r[i] == KeyOf(kind, lines[i])
  {
    seq(|lines|, i requires 0 <= i < |lines| => KeyOf(kind, lines[i]))
  }

  function RevenueOf(kind: Kind, lines: seq<Line>, key: int): int {
    if lines == [] then 0
    else
      var n := |lines| - 1;
      RevenueOf(kind, lines[..n], key) + if KeyOf(kind, lines[n]) == key then lines[n].total else 0
  }

  function QuantityOf(lines: seq<Line>, product: int): int {
    if lines == [] then 0
    else
      var n := |lines| - 1;
      QuantityOf(lines[..n], product) + if lines[n].product == product then lines[n].quantity else 0
  }

  function TransactionsOf(kind: Kind, lines: seq<Line>, key: int): set<int> {
    if lines == [] then {}
    else
      var n := |lines| - 1;
      TransactionsOf(kind, lines[..n], key)
      + if KeyOf(kind, lines[n]) == key then {lines[n].transaction} else {}
  }

  function Total(lines: seq<Line>): int {
    if lines == [] then 0 else Total(lines[..|lines| - 1]) + lines[|lines| - 1].total
  }

  function Transactions(lines: seq<Line>): set<int> {
    if lines == [] then {} else Transactions(lines[..|lines| - 1]) + {lines[|lines| - 1].transaction}
  }

  datatype Cell = Cell(transactions: set<int>, revenue: int)
  datatype Sold = Sold(quantity: int, revenue: int)

  /** A dictionary holds a cell for each key that occurs, with that key's lines in it. */
  ghost predicate Tabulates(table: map<int, Cell>, kind: Kind, lines: seq<Line>) {
    forall key ::
      && (key in table <==> key in KeysOf(kind, lines))
      && (key in table ==> table[key] == Cell(TransactionsOf(kind, lines, key), RevenueOf(kind, lines, key)))
  }

  ghost predicate TabulatesProducts(table: map<int, Sold>, lines: seq<Line>) {
    forall key ::
      && (key in table <==> key in KeysOf(ByProduct, lines))
      && (key in table ==> table[key] == Sold(QuantityOf(lines, key), RevenueOf(ByProduct, lines, key)))
  }

  lemma {:induction false} AbsentKey(kind: Kind, lines: seq<Line>, key: int)
    requires key !in KeysOf(kind, lines)
    ensures TransactionsOf(kind, lines, key) == {} && RevenueOf(kind, lines, key) == 0
    ensures kind == ByProduct ==> QuantityOf(lines, key) == 0
  {
    if lines != [] {
      var n := |lines| - 1;
      assert KeysOf(kind, lines)[n] in KeysOf(kind, lines);
      assert forall i :: 0 <= i < n ==> KeysOf(kind, lines[..n])[i] == KeysOf(kind, lines)[i];
      AbsentKey(kind, lines[..n], key);
    }
  }

  /** `setdefault`, then the updated pair: one more line in its cell. */
  function AddTo(table: map<int, Cell>, key: int, line: Line): map<int, Cell> {
    var cell := if key in table then table[key] else Cell({}, 0);
    table[key := Cell(cell.transactions + {line.transaction}, cell.revenue + line.total)]
  }

  lemma AddToTabulates(table: map<int, Cell>, kind: Kind, lines: seq<Line>, line: Line)
    requires Tabulates(table, kind, lines)
    ensures Tabulates(AddTo(table, KeyOf(kind, line), line), kind, lines + [line])
  {
    var own, all := KeyOf(kind, line), lines + [line];
    var next := AddTo(table, own, line);
    assert all[..|lines|] == lines;
    assert KeysOf(kind, all) == KeysOf(kind, lines) + [own];
    forall key ensures key in next <==> key in KeysOf(kind, all) {}
    forall key | key in next
      ensures next[key] == Cell(TransactionsOf(kind, all, key), RevenueOf(kind, all, key))
    {
      if key == own && key !in table { AbsentKey(kind, lines, key); }
    }
  }

  function AddSold(table: map<int, Sold>, line: Line): map<int, Sold> {
    var sold := if line.product in table then table[line.product] else Sold(0, 0);
    table[line.product := Sold(sold.quantity + line.quantity, sold.revenue + line.total)]
  }

  lemma AddSoldTabulates(table: map<int, Sold>, lines: seq<Line>, line: Line)
    requires TabulatesProducts(table, lines)
    ensures TabulatesProducts(AddSold(table, line), lines + [line])
  {
    var own, all := line.product, lines + [line];
    var next := AddSold(table, line);
    assert all[..|lines|] == lines;
    assert KeysOf(ByProduct, all) == KeysOf(ByProduct, lines) + [own];
    forall key ensures key in next <==> key in KeysOf(ByProduct, all) {}
    forall key | key in next
      ensures next[key] == Sold(QuantityOf(all, key), RevenueOf(ByProduct, all, key))
    {
      if key == own && key !in table { AbsentKey(ByProduct, lines, key); }
    }
  }

  /** The one loop that fills the three dictionaries. `order` is the insertion order of the
      product dictionary. */
  method Accumulate(lines: seq<Line>)
    returns (daily: map<int, Cell>, hourly: map<int, Cell>, sold: map<int, Sold>, order: seq<int>)
    ensures Tabulates(daily, ByDay, lines) && Tabulates(hourly, ByHour, lines) && TabulatesProducts(sold, lines)
    ensures (forall key :: key in order <==> key in sold) && Once(order)
  {
    daily, hourly, sold, order := map[], map[], map[], [];
    for n := 0 to |lines|
      invariant Tabulates(daily, ByDay, lines[..n]) && Tabulates(hourly, ByHour, lines[..n])
      invariant TabulatesProducts(sold, lines[..n])
      invariant (forall key :: key in order <==> key in sold) && Once(order)
    {
      var line := lines[n];
      assert lines[..n + 1] == lines[..n] + [line];
      AddToTabulates(daily, ByDay, lines[..n], line);
      AddToTabulates(hourly, ByHour, lines[..n], line);
      AddSoldTabulates(sold, lines[..n], line);
      daily := AddTo(daily, KeyOf(ByDay, line), line);
      hourly := AddTo(hourly, KeyOf(ByHour, line), line);
      if line.product !in sold { order := order + [line.product]; }
      sold := AddSold(sold, line);
    }
    assert lines[..|lines|] == lines;
  }

  predicate Once(s: seq<int>) {
    forall i, j :: 0 <= i < j < |s| ==> s[i] != s[j]
  }

  // --------------------------------------------------------------- daily and hourly

  datatype Row = Row(key: int, transactionCount: nat, revenue: int)

  function Rows(kind: Kind, lines: seq<Line>, keys: seq<int>): seq<Row> {
    if keys == [] then []
    else
      var n := |keys| - 1;
      Rows(kind, lines, keys[..n])
      + [Row(keys[n], |TransactionsOf(kind, lines, keys[n])|, RevenueOf(kind, lines, keys[n]))]
  }

  /** `sorted(table.items())`, given the sorted keys. */
  method ListRows(table: map<int, Cell>, kind: Kind, lines: seq<Line>, keys: seq<int>) returns (rows: seq<Row>)
    requires Tabulates(table, kind, lines) && forall i :: 0 <= i < |keys| ==> keys[i] in table
    ensures rows == Rows(kind, lines, keys)
  {
    rows := [];
    for k := 0 to |keys|
      invariant rows == Rows(kind, lines, keys[..k])
    {
      assert keys[..k + 1][..k] == keys[..k];
      rows := rows + [Row(keys[k], |table[keys[k]].transactions|, table[keys[k]].revenue)];
    }
    assert keys[..|keys|] == keys;
  }

  function SumRevenue(rows: seq<Row>): int {
    if rows == [] then 0 else SumRevenue(rows[..|rows| - 1]) + rows[|rows| - 1].revenue
  }

  function SumTransactions(rows: seq<Row>): nat {
    if rows == [] then 0 else SumTransactions(rows[..|rows| - 1]) + rows[|rows| - 1].transactionCount
  }

  /** Revenue over a list of keys. */
  function RevenueOver(kind: Kind, lines: seq<Line>, keys: seq<int>): int {
    if keys == [] then 0
    else RevenueOver(kind, lines, keys[..|keys| - 1]) + RevenueOf(kind, lines, keys[|keys| - 1])
  }

  lemma {:induction false} RowsSumRevenue(kind: Kind, lines: seq<Line>, keys: seq<int>)
    ensures SumRevenue(Rows(kind, lines, keys)) == RevenueOver(kind, lines, keys)
  {
    if keys != [] {
      var n := |keys| - 1;
      RowsSumRevenue(kind, lines, keys[..n]);
      var front := Rows(kind, lines, keys[..n]);
      assert (front + [Rows(kind, lines, keys)[|front|]])[..|front|] == front;
    }
  }

  lemma {:induction false} RevenueOverNext(kind: Kind, lines: seq<Line>, keys: seq<int>)
    requires lines != [] && Once(keys)
    ensures var n := |lines| - 1;
      RevenueOver(kind, lines, keys)
      == RevenueOver(kind, lines[..n], keys) + if KeyOf(kind, lines[n]) in keys then lines[n].total else 0
  {
    if keys != [] {
      var last := |keys| - 1;
      RevenueOverNext(kind, lines, keys[..last]);
      assert keys == keys[..last] + [keys[last]];
    }
  }

  /** Lines whose key is not listed are the only ones whose revenue is not counted. */
  function TotalOutside(kind: Kind, lines: seq<Line>, keys: seq<int>): int {
    if lines == [] then 0
    else
      var n := |lines| - 1;
      TotalOutside(kind, lines[..n], keys) + if KeyOf(kind, lines[n]) in keys then 0 else lines[n].total
  }

  lemma {:induction false} RevenueEmpty(kind: Kind, keys: seq<int>)
    ensures RevenueOver(kind, [], keys) == 0
  {
    if keys != [] { RevenueEmpty(kind, keys[..|keys| - 1]); }
  }

  lemma {:induction false} RevenuePartition(kind: Kind, lines: seq<Line>, keys: seq<int>)
    requires Once(keys)
    ensures RevenueOver(kind, lines, keys) + TotalOutside(kind, lines, keys) == Total(lines)
  {
    if lines == [] {
      RevenueEmpty(kind, keys);
    } else {
      RevenueOverNext(kind, lines, keys);
      RevenuePartition(kind, lines[..|lines| - 1], keys);
    }
  }

  lemma {:induction false} NothingOutside(kind: Kind, lines: seq<Line>, keys: seq<int>)
    requires forall i :: 0 <= i < |lines| ==> KeyOf(kind, lines[i]) in keys
    ensures TotalOutside(kind, lines, keys) == 0
  {
    if lines != [] { NothingOutside(kind, lines[..|lines| - 1], keys); }
  }

  lemma AllKeysListed(kind: Kind, lines: seq<Line>)
    ensures var keys := Keys(KeysOf(kind, lines));
      Once(keys) && forall i :: 0 <= i < |lines| ==> KeyOf(kind, lines[i]) in keys
  {
    KeysAscending(KeysOf(kind, lines));
    forall i | 0 <= i < |lines| ensures KeyOf(kind, lines[i]) in Keys(KeysOf(kind, lines)) {
      assert KeysOf(kind, lines)[i] in KeysOf(kind, lines);
    }
  }

  /** Daily and hourly revenues each add up to the total of the window's lines. */
  lemma RevenueIsConserved(kind: Kind, lines: seq<Line>)
    ensures SumRevenue(Rows(kind, lines, Keys(KeysOf(kind, lines)))) == Total(lines)
  {
    var keys := Keys(KeysOf(kind, lines));
    AllKeysListed(kind, lines);
    RowsSumRevenue(kind, lines, keys);
    RevenuePartition(kind, lines, keys);
    NothingOutside(kind, lines, keys);
  }

  // ------------------------------------------------------------ transaction counts

  /** No transaction has lines under two keys. */
  ghost predicate OneKeyEach(kind: Kind, lines: seq<Line>) {
    forall i, j :: (0 <= i < |lines| && 0 <= j < |lines| && lines[i].transaction == lines[j].transaction)
                   ==> KeyOf(kind, lines[i]) == KeyOf(kind, lines[j])
  }

  predicate HasLine(kind: Kind, lines: seq<Line>, key: int, transaction: int) {
    exists i :: 0 <= i < |lines| && KeyOf(kind, lines[i]) == key && lines[i].transaction == transaction
  }

  lemma {:induction false} TransactionsMean(kind: Kind, lines: seq<Line>, key: int, t: int)
    ensures t in TransactionsOf(kind, lines, key) <==> HasLine(kind, lines, key, t)
    ensures t in Transactions(lines) <==> exists i :: 0 <= i < |lines| && lines[i].transaction == t
  {
    if lines != [] {
      var n := |lines| - 1;
      TransactionsMean(kind, lines[..n], key, t);
      if HasLine(kind, lines[..n], key, t) {
        var i :| 0 <= i < n && KeyOf(kind, lines[..n][i]) == key && lines[..n][i].transaction == t;
        assert lines[i] == lines[..n][i];
      }
      if i :| 0 <= i < |lines| && KeyOf(kind, lines[i]) == key && lines[i].transaction == t {
        if i < n { assert lines[..n][i] == lines[i]; }
      }
      if i :| 0 <= i < n && lines[..n][i].transaction == t { assert lines[i].transaction == t; }
      if i :| 0 <= i < n && lines[i].transaction == t { assert lines[..n][i].transaction == t; }
    }
  }

  function Union(kind: Kind, lines: seq<Line>, keys: seq<int>): set<int> {
    if keys == [] then {}
    else Union(kind, lines, keys[..|keys| - 1]) + TransactionsOf(kind, lines, keys[|keys| - 1])
  }

  function CountOver(kind: Kind, lines: seq<Line>, keys: seq<int>): nat {
    if keys == [] then 0
    else CountOver(kind, lines, keys[..|keys| - 1]) + |TransactionsOf(kind, lines, keys[|keys| - 1])|
  }

  lemma {:induction false} RowsSumTransactions(kind: Kind, lines: seq<Line>, keys: seq<int>)
    ensures SumTransactions(Rows(kind, lines, keys)) == CountOver(kind, lines, keys)
  {
    if keys != [] {
      var n := |keys| - 1;
      RowsSumTransactions(kind, lines, keys[..n]);
      var front := Rows(kind, lines, keys[..n]);
      assert (front + [Rows(kind, lines, keys)[|front|]])[..|front|] == front;
    }
  }

  lemma {:induction false} InUnion(kind: Kind, lines: seq<Line>, keys: seq<int>, t: int)
    ensures t in Union(kind, lines, keys) <==> exists k :: 0 <= k < |keys| && t in TransactionsOf(kind, lines, keys[k])
  {
    if keys != [] {
      var n := |keys| - 1;
      InUnion(kind, lines, keys[..n], t);
      if k :| 0 <= k < n && t in TransactionsOf(kind, lines, keys[..n][k]) {
        assert t in TransactionsOf(kind, lines, keys[k]);
      }
      if k :| 0 <= k < |keys| && t in TransactionsOf(kind, lines, keys[k]) {
        if k < n { assert t in TransactionsOf(kind, lines, keys[..n][k]); }
      }
    }
  }

  lemma UnionSize<T>(a: set<T>, b: set<T>)
    ensures |a + b| <= |a| + |b|
    ensures |a + b| == |a| + |b| <==> a !! b
  {
    assert a + b == a + (b - a) && a !! (b - a);
    assert |a + b| == |a| + |b - a|;
    assert b == (b - a) + (b * a) && (b - a) !! (b * a);
    assert |b| == |b - a| + |b * a|;
    if !(a !! b) {
      var x :| x in a && x in b;
      assert x in b * a;
    } else {
      assert b * a == {};
    }
  }

  /** Counting per key counts a transaction once exactly when no two keys share it. */
  lemma {:induction false} CountsAgree(kind: Kind, lines: seq<Line>, keys: seq<int>)
    ensures |Union(kind, lines, keys)| <= CountOver(kind, lines, keys)
    ensures CountOver(kind, lines, keys) == |Union(kind, lines, keys)| <==> Disjoint(kind, lines, keys)
  {
    if keys != [] {
      var n := |keys| - 1;
      var front, last := keys[..n], TransactionsOf(kind, lines, keys[n]);
      CountsAgree(kind, lines, front);
      UnionSize(Union(kind, lines, front), last);
      DisjointNext(kind, lines, keys);
    }
  }

  ghost predicate Disjoint(kind: Kind, lines: seq<Line>, keys: seq<int>) {
    forall i, j :: 0 <= i < j < |keys| ==> TransactionsOf(kind, lines, keys[i]) !! TransactionsOf(kind, lines, keys[j])
  }

  lemma DisjointNext(kind: Kind, lines: seq<Line>, keys: seq<int>)
    requires keys != []
    ensures var n := |keys| - 1;
      Disjoint(kind, lines, keys)
      <==> Disjoint(kind, lines, keys[..n]) && Union(kind, lines, keys[..n]) !! TransactionsOf(kind, lines, keys[n])
  {
    var n := |keys| - 1;
    var front, last := keys[..n], TransactionsOf(kind, lines, keys[n]);
    if Disjoint(kind, lines, keys) {
      forall t | t in Union(kind, lines, front) ensures t !in last {
        InUnion(kind, lines, front, t);
        var k :| 0 <= k < n && t in TransactionsOf(kind, lines, front[k]);
        assert TransactionsOf(kind, lines, keys[k]) !! last;
      }
      assert Disjoint(kind, lines, front);
    }
    if Disjoint(kind, lines, front) && Union(kind, lines, front) !! last {
      forall i, j | 0 <= i < j < |keys|
        ensures TransactionsOf(kind, lines, keys[i]) !! TransactionsOf(kind, lines, keys[j])
      {
        if j < n {
          assert front[i] == keys[i] && front[j] == keys[j];
        } else {
          forall t | t in TransactionsOf(kind, lines, keys[i]) ensures t !in last {
            InUnion(kind, lines, front, t);
            assert front[i] == keys[i];
          }
        }
      }
    }
  }

  lemma OneKeyIsDisjoint(kind: Kind, lines: seq<Line>, keys: seq<int>)
    requires Once(keys) && OneKeyEach(kind, lines)
    ensures Disjoint(kind, lines, keys)
  {
    forall i, j | 0 <= i < j < |keys|
      ensures TransactionsOf(kind, lines, keys[i]) !! TransactionsOf(kind, lines, keys[j])
    {
      forall t | t in TransactionsOf(kind, lines, keys[i]) ensures t !in TransactionsOf(kind, lines, keys[j]) {
        TransactionsMean(kind, lines, keys[i], t);
        TransactionsMean(kind, lines, keys[j], t);
      }
    }
  }

  lemma DisjointIsOneKey(kind: Kind, lines: seq<Line>, keys: seq<int>, x: nat, y: nat)
    requires Disjoint(kind, lines, keys) && x < |lines| && y < |lines|
    requires KeyOf(kind, lines[x]) in keys && KeyOf(kind, lines[y]) in keys
    requires lines[x].transaction == lines[y].transaction
    ensures KeyOf(kind, lines[x]) == KeyOf(kind, lines[y])
  {
    var t := lines[x].transaction;
    var i :| 0 <= i < |keys| && keys[i] == KeyOf(kind, lines[x]);
    var j :| 0 <= j < |keys| && keys[j] == KeyOf(kind, lines[y]);
    assert HasLine(kind, lines, keys[i], t) && HasLine(kind, lines, keys[j], t);
    TransactionsMean(kind, lines, keys[i], t);
    TransactionsMean(kind, lines, keys[j], t);
    assert !(TransactionsOf(kind, lines, keys[i]) !! TransactionsOf(kind, lines, keys[j]));
  }

  lemma DisjointExactly(kind: Kind, lines: seq<Line>, keys: seq<int>)
    requires Once(keys) && forall i :: 0 <= i < |lines| ==> KeyOf(kind, lines[i]) in keys
    ensures Disjoint(kind, lines, keys) <==> OneKeyEach(kind, lines)
  {
    if OneKeyEach(kind, lines) { OneKeyIsDisjoint(kind, lines, keys); }
    if Disjoint(kind, lines, keys) {
      forall x, y | 0 <= x < |lines| && 0 <= y < |lines| && lines[x].transaction == lines[y].transaction
        ensures KeyOf(kind, lines[x]) == KeyOf(kind, lines[y])
      {
        DisjointIsOneKey(kind, lines, keys, x, y);
      }
    }
  }

  lemma UnionIsAll(kind: Kind, lines: seq<Line>, keys: seq<int>, t: int)
    requires forall i :: 0 <= i < |lines| ==> KeyOf(kind, lines[i]) in keys
    ensures t in Union(kind, lines, keys) <==> t in Transactions(lines)
  {
    InUnion(kind, lines, keys, t);
    TransactionsMean(kind, lines, 0, t);
    if t in Transactions(lines) {
      var i :| 0 <= i < |lines| && lines[i].transaction == t;
      var k :| 0 <= k < |keys| && keys[k] == KeyOf(kind, lines[i]);
      assert HasLine(kind, lines, keys[k], t);
      TransactionsMean(kind, lines, keys[k], t);
    }
    if k :| 0 <= k < |keys| && t in TransactionsOf(kind, lines, keys[k]) {
      TransactionsMean(kind, lines, keys[k], t);
    }
  }

  lemma CountsConservedExactly(kind: Kind, lines: seq<Line>, keys: seq<int>)
    requires Once(keys) && forall i :: 0 <= i < |lines| ==> KeyOf(kind, lines[i]) in keys
    ensures |Transactions(lines)| <= SumTransactions(Rows(kind, lines, keys))
    ensures SumTransactions(Rows(kind, lines, keys)) == |Transactions(lines)| <==> OneKeyEach(kind, lines)
  {
    RowsSumTransactions(kind, lines, keys);
    CountsAgree(kind, lines, keys);
    DisjointExactly(kind, lines, keys);
    forall t ensures t in Union(kind, lines, keys) <==> t in Transactions(lines) {
      UnionIsAll(kind, lines, keys, t);
    }
    assert Union(kind, lines, keys) == Transactions(lines);
  }

  ghost predicate CountsTransactions(kind: Kind, lines: seq<Line>, rows: seq<Row>) {
    && |Transactions(lines)| <= SumTransactions(rows)
    && (SumTransactions(rows) == |Transactions(lines)| <==> OneKeyEach(kind, lines))
  }

  /** The per-key transaction counts add up to the distinct transactions exactly when no
      transaction's lines fall under two keys; otherwise they count more. */
  lemma TransactionsConservedExactly(kind: Kind, lines: seq<Line>)
    ensures CountsTransactions(kind, lines, Rows(kind, lines, Keys(KeysOf(kind, lines))))
  {
    AllKeysListed(kind, lines);
    CountsConservedExactly(kind, lines, Keys(KeysOf(kind, lines)));
  }

  // ------------------------------------------------------------------- products

  datatype ProductSale = ProductSale(id: int, name: int, quantity: int, revenue: int, exposureDays: int)

  /** `product_by_id`: the last product of an id. */
  function ProductById(products: seq<Product>, id: int): Option<Product> {
    if products == [] then None
    else
      var n := |products| - 1;
      if products[n].id == id then Some(products[n]) else ProductById(products[..n], id)
  }

  function Exposure(created: int, start: int, end: int): int {
    var from := if created > start then created else start;
    if end - from + 1 > 0 then end - from + 1 else 0
  }

  /** Over a seven-day window a product is eligible exactly when it was in the catalogue on
      the first day, and no product was exposed for longer. */
  lemma EligibleExactly(created: int, start: int, end: int)
    requires end == start + THRESHOLD - 1
    ensures Exposure(created, start, end) >= THRESHOLD <==> created <= start
    ensures 0 <= Exposure(created, start, end) <= THRESHOLD
  {
  }

  function SaleOf(product: Product, lines: seq<Line>, start: int, end: int): ProductSale {
    ProductSale(product.id, product.name, QuantityOf(lines, product.id), RevenueOf(ByProduct, lines, product.id),
                Exposure(LocalDay(product.createdAt), start, end))
  }

  /** The sold products that are in the catalogue, in first-sale order. */
  function Sales(products: seq<Product>, lines: seq<Line>, order: seq<int>, start: int, end: int): seq<ProductSale> {
    if order == [] then []
    else
      var n := |order| - 1;
      var product := ProductById(products, order[n]);
      Sales(products, lines, order[..n], start, end)
      + if product.None? then [] else [SaleOf(product.value, lines, start, end)]
  }

  function SumSales(sales: seq<ProductSale>): int {
    if sales == [] then 0 else sales[0].revenue + SumSales(sales[1..])
  }

  lemma {:induction false} SumSalesAppend(a: seq<ProductSale>, b: seq<ProductSale>)
    ensures SumSales(a + b) == SumSales(a) + SumSales(b)
  {
    if a == [] {
      assert a + b == b;
    } else {
      assert (a + b)[1..] == a[1..] + b;
      SumSalesAppend(a[1..], b);
    }
  }

  function KnownOnly(products: seq<Product>, order: seq<int>): (r: seq<int>)
    ensures forall id :: id in r <==> id in order && ProductById(products, id).Some?
  {
    if order == [] then []
    else
      var n := |order| - 1;
      assert order == order[..n] + [order[n]];
      KnownOnly(products, order[..n]) + if ProductById(products, order[n]).None? then [] else [order[n]]
  }

  lemma {:induction false} KnownOnce(products: seq<Product>, order: seq<int>)
    requires Once(order)
    ensures Once(KnownOnly(products, order))
  {
    if order != [] {
      var n := |order| - 1;
      KnownOnce(products, order[..n]);
      var front := KnownOnly(products, order[..n]);
      forall i | 0 <= i < |front| ensures front[i] != order[n] {
        assert front[i] in front;
      }
    }
  }

  lemma {:induction false} ProductIdKept(products: seq<Product>, id: int)
    ensures ProductById(products, id).Some? ==> ProductById(products, id).value.id == id
  {
    if products != [] { ProductIdKept(products[..|products| - 1], id); }
  }

  lemma RevenueOverAppend(lines: seq<Line>, keys: seq<int>, key: int)
    ensures RevenueOver(ByProduct, lines, keys + [key])
            == RevenueOver(ByProduct, lines, keys) + RevenueOf(ByProduct, lines, key)
  {
    assert (keys + [key])[..|keys|] == keys;
  }

  lemma SumSalesLast(front: seq<ProductSale>, sale: ProductSale)
    ensures SumSales(front + [sale]) == SumSales(front) + sale.revenue
  {
    SumSalesAppend(front, [sale]);
    assert SumSales([sale]) == sale.revenue;
  }

  lemma {:induction false} SalesSum(products: seq<Product>, lines: seq<Line>, order: seq<int>, start: int, end: int)
    ensures SumSales(Sales(products, lines, order, start, end))
            == RevenueOver(ByProduct, lines, KnownOnly(products, order))
  {
    if order != [] {
      var n := |order| - 1;
      SalesSum(products, lines, order[..n], start, end);
      var front, known := Sales(products, lines, order[..n], start, end), KnownOnly(products, order[..n]);
      var product := ProductById(products, order[n]);
      if product.Some? {
        ProductIdKept(products, order[n]);
        SumSalesLast(front, SaleOf(product.value, lines, start, end));
        RevenueOverAppend(lines, known, order[n]);
      } else {
        assert Sales(products, lines, order, start, end) == front && KnownOnly(products, order) == known;
      }
    }
  }

  /** Product revenues add up to the window's total less the lines of unknown products; so
      to the whole total when every product is known. */
  lemma ProductRevenueIsConserved(products: seq<Product>, lines: seq<Line>, order: seq<int>, start: int, end: int)
    requires Once(order) && forall key :: key in order <==> key in KeysOf(ByProduct, lines)
    ensures SumSales(Sales(products, lines, order, start, end))
            + TotalOutside(ByProduct, lines, KnownOnly(products, order)) == Total(lines)
    ensures AllKnown(products, lines) ==>
              SumSales(Sales(products, lines, order, start, end)) == Total(lines)
  {
    KnownOnce(products, order);
    SalesSum(products, lines, order, start, end);
    RevenuePartition(ByProduct, lines, KnownOnly(products, order));
    if AllKnown(products, lines) {
      forall i | 0 <= i < |lines| ensures KeyOf(ByProduct, lines[i]) in KnownOnly(products, order) {
        assert KeysOf(ByProduct, lines)[i] in KeysOf(ByProduct, lines);
      }
      NothingOutside(ByProduct, lines, KnownOnly(products, order));
    }
  }

  /** The order by which the top and bottom are chosen. */
  predicate Below(a: ProductSale, b: ProductSale) {
    a.quantity < b.quantity || (a.quantity == b.quantity && a.name < b.name)
  }

  /** `max(..., default=None)`: the first of the greatest. */
  function Top(sales: seq<ProductSale>): (r: Option<ProductSale>)
    ensures r.None? <==> sales == []
    ensures r.Some? ==> r.value in sales && forall i :: 0 <= i < |sales| ==> !Below(r.value, sales[i])
  {
    if sales == [] then None
    else
      var n := |sales| - 1;
      var front := Top(sales[..n]);
      assert sales == sales[..n] + [sales[n]];
      if front.None? || Below(front.value, sales[n]) then Some(sales[n]) else front
  }

  function Bottom(sales: seq<ProductSale>): (r: Option<ProductSale>)
    ensures r.None? <==> sales == []
    ensures r.Some? ==> r.value in sales && forall i :: 0 <= i < |sales| ==> !Below(sales[i], r.value)
  {
    if sales == [] then None
    else
      var n := |sales| - 1;
      var front := Bottom(sales[..n]);
      assert sales == sales[..n] + [sales[n]];
      if front.None? || Below(sales[n], front.value) then Some(sales[n]) else front
  }

  function Eligible(sales: seq<ProductSale>): (r: seq<ProductSale>)
    ensures forall x :: x in r <==> x in sales && x.exposureDays >= THRESHOLD
  {
    if sales == [] then []
    else (if sales[0].exposureDays >= THRESHOLD then [sales[0]] else []) + Eligible(sales[1..])
  }

  /** The sort key `(-quantity, name)`. */
  predicate ListedBefore(a: ProductSale, b: ProductSale) {
    a.quantity > b.quantity || (a.quantity == b.quantity && a.name <= b.name)
  }

  lemma {:induction false} SumInsert(x: ProductSale, s: seq<ProductSale>)
    ensures SumSales(Insert(x, s, ListedBefore)) == x.revenue + SumSales(s)
  {
    if s != [] && !ListedBefore(x, s[0]) {
      SumInsert(x, s[1..]);
      assert ([s[0]] + Insert(x, s[1..], ListedBefore))[1..] == Insert(x, s[1..], ListedBefore);
    } else {
      assert ([x] + s)[1..] == s;
    }
  }

  /** Sorting the list leaves its total as it was. */
  lemma {:induction false} SumSorted(s: seq<ProductSale>)
    ensures SumSales(Sort(s, ListedBefore)) == SumSales(s)
  {
    if s != [] {
      SumSorted(s[1..]);
      SumInsert(s[0], Sort(s[1..], ListedBefore));
    }
  }

  lemma FirstIsListed(sales: seq<ProductSale>, x: ProductSale)
    requires x in sales
    ensures Sort(sales, ListedBefore) != [] && Sort(sales, ListedBefore)[0] in sales
    ensures ListedBefore(Sort(sales, ListedBefore)[0], x)
  {
    var listed := Sort(sales, ListedBefore);
    SortSorted(sales, ListedBefore);
    assert x in multiset(sales) && x in multiset(listed);
    assert listed[0] in multiset(listed) && listed[0] in multiset(sales);
    var j :| 0 <= j < |listed| && listed[j] == x;
    if j > 0 { assert ListedBefore(listed[0], listed[j]); }
  }

  /** The list starts with a best-selling product; among equal quantities it starts with the
      first name, while the top product has the last. */
  lemma ListStartsWithBest(sales: seq<ProductSale>)
    requires sales != [] && forall i :: 0 <= i < |sales| ==> sales[i].exposureDays >= THRESHOLD
    ensures Top(Eligible(sales)).Some? && Sort(sales, ListedBefore) != []
    ensures var first, top := Sort(sales, ListedBefore)[0], Top(Eligible(sales)).value;
            first.quantity == top.quantity && first.name <= top.name
  {
    assert sales[0] in Eligible(sales);
    var top := Top(Eligible(sales)).value;
    FirstIsListed(sales, top);
    var first := Sort(sales, ListedBefore)[0];
    assert first in Eligible(sales);
    var i :| 0 <= i < |Eligible(sales)| && Eligible(sales)[i] == first;
    assert !Below(top, first);
  }

  /** The first sale with the quantity and the name of `x`. */
  function FirstLike(sales: seq<ProductSale>, x: ProductSale): ProductSale
    requires x in sales
  {
    if sales[0].quantity == x.quantity && sales[0].name == x.name then sales[0]
    else
      assert sales == [sales[0]] + sales[1..];
      FirstLike(sales[1..], x)
  }

  predicate Alike(a: ProductSale, b: ProductSale) { a.quantity == b.quantity && a.name == b.name }

  lemma {:induction false} FirstLikeSame(sales: seq<ProductSale>, x: ProductSale, y: ProductSale)
    requires x in sales && y in sales && Alike(x, y)
    ensures FirstLike(sales, x) == FirstLike(sales, y)
  {
    if !Alike(sales[0], x) {
      assert sales == [sales[0]] + sales[1..];
      FirstLikeSame(sales[1..], x, y);
    }
  }

  /** The sort is stable: its head is the first of its like. */
  lemma {:induction false} HeadIsFirst(sales: seq<ProductSale>)
    requires sales != []
    ensures var listed := Sort(sales, ListedBefore);
            listed != [] && listed[0] in sales && FirstLike(sales, listed[0]) == listed[0]
  {
    var rest := sales[1..];
    assert sales == [sales[0]] + rest;
    if rest != [] {
      HeadIsFirst(rest);
      var head := Sort(rest, ListedBefore)[0];
      assert Sort(sales, ListedBefore)[0] == if ListedBefore(sales[0], head) then sales[0] else head;
    }
  }

  lemma {:induction false} FirstLikePrefix(front: seq<ProductSale>, last: ProductSale, x: ProductSale)
    requires x in front
    ensures x in front + [last] && FirstLike(front + [last], x) == FirstLike(front, x)
  {
    var all := front + [last];
    assert all[0] == front[0] && all[1..] == front[1..] + [last];
    if !Alike(front[0], x) {
      assert front == [front[0]] + front[1..];
      FirstLikePrefix(front[1..], last, x);
    }
  }

  lemma {:induction false} FirstLikeNew(front: seq<ProductSale>, last: ProductSale)
    requires forall i :: 0 <= i < |front| ==> !Alike(front[i], last)
    ensures last in front + [last] && FirstLike(front + [last], last) == last
  {
    if front != [] {
      assert (front + [last])[1..] == front[1..] + [last];
      FirstLikeNew(front[1..], last);
    }
  }

  /** `max` keeps the first of the greatest. */
  lemma {:induction false} TopIsFirst(sales: seq<ProductSale>)
    requires sales != []
    ensures FirstLike(sales, Top(sales).value) == Top(sales).value
  {
    var front, last := sales[..|sales| - 1], sales[|sales| - 1];
    assert sales == front + [last];
    if front != [] {
      TopIsFirst(front);
      var top := Top(front).value;
      if Below(top, last) { FirstLikeNew(front, last); } else { FirstLikePrefix(front, last, top); }
    }
  }

  /** Among the eligible sales the first of a kind is the first of all, if that is eligible. */
  lemma {:induction false} FirstEligible(sales: seq<ProductSale>, x: ProductSale)
    requires x in sales && FirstLike(sales, x) == x && x.exposureDays >= THRESHOLD
    ensures x in Eligible(sales) && FirstLike(Eligible(sales), x) == x
  {
    assert sales == [sales[0]] + sales[1..];
    if !Alike(sales[0], x) {
      FirstEligible(sales[1..], x);
      if sales[0].exposureDays >= THRESHOLD {
        assert Eligible(sales)[1..] == Eligible(sales[1..]) && Eligible(sales)[0] == sales[0];
      } else {
        assert Eligible(sales) == Eligible(sales[1..]);
      }
    } else {
      assert Eligible(sales)[0] == x;
    }
  }

  /** The head of the list is the top product exactly when it is eligible and no eligible
      product sold as many under another name. */
  lemma HeadIsTopExactly(sales: seq<ProductSale>)
    requires Eligible(sales) != []
    ensures var head, top := Sort(sales, ListedBefore)[0], Top(Eligible(sales)).value;
      head == top
      <==> head.exposureDays >= THRESHOLD
           && forall x :: x in sales && x.exposureDays >= THRESHOLD && x.quantity == head.quantity ==>
                x.name == head.name
  {
    var eligible := Eligible(sales);
    var head, top := Sort(sales, ListedBefore)[0], Top(eligible).value;
    assert eligible[0] in eligible;
    HeadIsFirst(sales);
    TopIsFirst(eligible);
    if head == top {
      forall x | x in sales && x.exposureDays >= THRESHOLD && x.quantity == head.quantity ensures x.name == head.name {
        FirstIsListed(sales, x);
        assert x in eligible;
        var i :| 0 <= i < |eligible| && eligible[i] == x;
        assert !Below(top, eligible[i]);
      }
    } else if head.exposureDays >= THRESHOLD && top.quantity == head.quantity && top.name == head.name {
      FirstEligible(sales, head);
      FirstLikeSame(eligible, head, top);
    } else if head.exposureDays >= THRESHOLD {
      FirstIsListed(sales, top);
      assert head in eligible;
      var i :| 0 <= i < |eligible| && eligible[i] == head;
      assert !Below(top, eligible[i]);
    }
  }

  /** Two products sold five times each, both in the catalogue all week: the list starts with
      the first name, and the top product is the second. */
  lemma HeadNeedNotBeTop()
    ensures var sales := [ProductSale(1, 1, 5, 100, 7), ProductSale(2, 2, 5, 100, 7)];
      && Eligible(sales) != [] && Sort(sales, ListedBefore)[0] == sales[0] && Top(Eligible(sales)).value == sales[1]
  {
    var a, b := ProductSale(1, 1, 5, 100, 7), ProductSale(2, 2, 5, 100, 7);
    var sales := [a, b];
    assert sales[1..] == [b] && Sort([b], ListedBefore) == [b];
    assert a in Eligible(sales) && b in Eligible(sales);
    var i :| 0 <= i < |Eligible(sales)| && Eligible(sales)[i] == b;
    assert !Below(Top(Eligible(sales)).value, Eligible(sales)[i]);
  }

  function Share(revenue: int, total: int): int
    requires total > 0
  {
    (revenue * 100 + total / 2) / total
  }

  /** The reported share is the nearest whole percent. */
  lemma ShareIsNearest(revenue: int, total: int)
    requires total > 0
    ensures var exact, shown := revenue * 100, Share(revenue, total) * total;
            2 * (shown - exact) <= total && 2 * (exact - shown) <= total
  {
    var q := Share(revenue, total);
    DivAtLeast(revenue * 100 + total / 2, total, q);
    DivAtLeast(revenue * 100 + total / 2, total, q + 1);
    assert (q + 1) * total == q * total + total;
  }

  // ------------------------------------------------------------------ the whole report

  datatype Report =
    | Collecting(daysRecorded: nat)
    | Available(
        daysRecorded: nat,
        start: int,
        end: int,
        daily: seq<Row>,
        hourly: seq<Row>,
        products: seq<ProductSale>,
        top: Option<ProductSale>,
        bottom: Option<ProductSale>,
        share: Option<int>)

  function Window(lines: seq<Line>, start: int, end: int): (r: seq<Line>)
    ensures forall line :: line in r <==> line in lines && start <= LocalDay(line.at) <= end
  {
    if lines == [] then []
    else
      var n := |lines| - 1;
      assert lines == lines[..n] + [lines[n]];
      Window(lines[..n], start, end) + if start <= LocalDay(lines[n].at) <= end then [lines[n]] else []
  }

  function RecordedDays(lines: seq<Line>): seq<int> { Keys(KeysOf(ByDay, lines)) }

  /** The window is the last recorded day and the six days before it. */
  ghost predicate ReportsWindow(r: Report, lines: seq<Line>)
    requires r.Available?
  {
    r.end == r.start + THRESHOLD - 1 && r.end in RecordedDays(lines)
    && forall i :: 0 <= i < |lines| ==> LocalDay(lines[i].at) <= r.end
  }

  /** The daily and hourly rows are the window's; they lose no revenue, and no transaction, and
      count one twice exactly when its lines fall under two keys. */
  ghost predicate ReportsTimes(r: Report, window: seq<Line>)
    requires r.Available?
  {
    && r.daily == Rows(ByDay, window, Keys(KeysOf(ByDay, window)))
    && r.hourly == Rows(ByHour, window, Keys(KeysOf(ByHour, window)))
    && SumRevenue(r.daily) == Total(window) && SumRevenue(r.hourly) == Total(window)
    && CountsTransactions(ByDay, window, r.daily) && CountsTransactions(ByHour, window, r.hourly)
  }

  /** The products are the window's known sales, sorted; the extremes are those of the
      eligible ones; with no unknown product they lose no revenue. */
  ghost predicate ReportsProducts(r: Report, products: seq<Product>, window: seq<Line>, sales: seq<ProductSale>)
    requires r.Available?
  {
    && r.products == Sort(sales, ListedBefore)
    && r.top == Top(Eligible(sales)) && r.bottom == Bottom(Eligible(sales))
    && (AllKnown(products, window) ==> SumSales(r.products) == Total(window))
    && (r.share.Some? <==> r.top.Some? && SumSales(r.products) > 0)
    && (r.share.Some? ==> r.share.value == Share(r.top.value.revenue, SumSales(r.products)))
  }

  predicate AllKnown(products: seq<Product>, lines: seq<Line>) {
    forall i :: 0 <= i < |lines| ==> ProductById(products, lines[i].product).Some?
  }

  /** The products sold, each once. */
  ghost predicate SoldIn(order: seq<int>, lines: seq<Line>) {
    Once(order) && forall key :: key in order <==> key in KeysOf(ByProduct, lines)
  }

  method ListSales(products: seq<Product>, sold: map<int, Sold>, order: seq<int>, lines: seq<Line>, start: int,
                   end: int) returns (sales: seq<ProductSale>)
    requires TabulatesProducts(sold, lines) && forall key :: key in order ==> key in sold
    ensures sales == Sales(products, lines, order, start, end)
  {
    sales := [];
    for k := 0 to |order|
      invariant sales == Sales(products, lines, order[..k], start, end)
    {
      assert order[..k + 1][..k] == order[..k];
      var id := order[k];
      assert id in sold;
      var product := ProductById(products, id);
      if product.Some? {
        ProductIdKept(products, id);
        var exposure := Exposure(LocalDay(product.value.createdAt), start, end);
        sales := sales + [ProductSale(product.value.id, product.value.name, sold[id].quantity, sold[id].revenue,
                                      exposure)];
      }
    }
    assert order[..|order|] == order;
  }

  /** The product list, its extremes and the share of the top product. */
  method ReportProducts(products: seq<Product>, window: seq<Line>, sold: map<int, Sold>, order: seq<int>, r: Report)
    returns (out: Report, ghost sales: seq<ProductSale>)
    requires r.Available? && TabulatesProducts(sold, window) && SoldIn(order, window)
    ensures out.Available? && ReportsProducts(out, products, window, sales)
    ensures sales == Sales(products, window, order, r.start, r.end)
    ensures out == r.(products := out.products, top := out.top, bottom := out.bottom, share := out.share)
  {
    var found := ListSales(products, sold, order, window, r.start, r.end);
    ProductRevenueIsConserved(products, window, order, r.start, r.end);
    SumSorted(found);
    sales := found;
    var top, listed := Top(Eligible(found)), Sort(found, ListedBefore);
    var total := SumSales(listed);
    var share := if top.Some? && total > 0 then Some(Share(top.value.revenue, total)) else None;
    out := r.(products := listed, top := top, bottom := Bottom(Eligible(found)), share := share);
  }

  /** `build_transaction_analytics`: fewer than seven recorded days collect; otherwise the
      last seven calendar days are reported. */
  method BuildAnalytics(products: seq<Product>, lines: seq<Line>)
    returns (r: Report, ghost window: seq<Line>, ghost order: seq<int>, ghost sales: seq<ProductSale>)
    ensures r.daysRecorded == |RecordedDays(lines)|
    ensures r.Available? <==> |RecordedDays(lines)| >= THRESHOLD
    ensures r.Available? ==>
              && ReportsWindow(r, lines) && window == Window(lines, r.start, r.end)
              && ReportsTimes(r, window) && SoldIn(order, window)
              && sales == Sales(products, window, order, r.start, r.end)
              && ReportsProducts(r, products, window, sales)
  {
    window, order, sales := [], [], [];
    var days := RecordedDays(lines);
    if |days| < THRESHOLD { return Collecting(|days|), window, order, sales; }
    var end := days[|days| - 1];
    var start := end - (THRESHOLD - 1);
    LastIsLatest(lines, days, end);
    var inWindow := Window(lines, start, end);
    var daily, hourly, sold, sequence := Accumulate(inWindow);
    var dayKeys, hourKeys := Keys(KeysOf(ByDay, inWindow)), Keys(KeysOf(ByHour, inWindow));
    assert forall i :: 0 <= i < |dayKeys| ==> dayKeys[i] in dayKeys;
    assert forall i :: 0 <= i < |hourKeys| ==> hourKeys[i] in hourKeys;
    var dailyRows := ListRows(daily, ByDay, inWindow, dayKeys);
    var hourlyRows := ListRows(hourly, ByHour, inWindow, hourKeys);
    RevenueIsConserved(ByDay, inWindow);
    RevenueIsConserved(ByHour, inWindow);
    TransactionsConservedExactly(ByDay, inWindow);
    TransactionsConservedExactly(ByHour, inWindow);
    r := Available(|days|, start, end, dailyRows, hourlyRows, [], None, None, None);
    r, sales := ReportProducts(products, inWindow, sold, sequence, r);
    window, order := inWindow, sequence;
  }

  lemma LastIsLatest(lines: seq<Line>, days: seq<int>, end: int)
    requires days == RecordedDays(lines) && days != [] && end == days[|days| - 1]
    ensures end in days && forall i :: 0 <= i < |lines| ==> LocalDay(lines[i].at) <= end
  {
    KeysAscending(KeysOf(ByDay, lines));
    AllKeysListed(ByDay, lines);
    forall i | 0 <= i < |lines| ensures LocalDay(lines[i].at) <= end {
      assert KeyOf(ByDay, lines[i]) in days;
      var k :| 0 <= k < |days| && days[k] == LocalDay(lines[i].at);
    }
  }
}
