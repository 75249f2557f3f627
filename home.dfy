/** The home dashboard: the monthly "top 3 products" ranking built from the month's sale rows,
    the product list, and the labels shown for each selling platform. */
module Home {
  import opened Common
  import opened Types

  /** The product columns the monthly sales query joins onto each sale row. */
  datatype ProductInfo = ProductInfo(
    id: string,
    name: string,
    description: string,
    price: real,
    imageUrl: string,
    platform: string,
    platformId: string)

  /** One row of the monthly sales query, which the backend returns ordered by `total_amount`
      descending: `product_id`, `quantity`, `total_amount`, and the joined `products` record,
      which is null when the product no longer exists. */
  datatype SaleRow = SaleRow(productId: string, quantity: int, totalAmount: real, product: Option<ProductInfo>)

  /** A ranked entry: the product, the units sold (`totalSales`) and the revenue. */
  datatype TopProduct = TopProduct(product: ProductInfo, totalSales: int, totalRevenue: real)

  function Init<T>(s: seq<T>): seq<T>
    requires s != []
  {
    s[..|s| - 1]
  }

  function Last<T>(s: seq<T>): T
    requires s != []
  {
    s[|s| - 1]
  }

  // ---------------------------------------------------------------------------------------
  // What the grouping computes
  // ---------------------------------------------------------------------------------------

  /** The distinct product ids of `rows`, in the order they are first met. */
  function Ids(rows: seq<SaleRow>): (ids: seq<string>)
    ensures forall i :: 0 <= i < |rows| ==> rows[i].productId in ids
    ensures forall i, j :: 0 <= i < j < |ids| ==> ids[i] != ids[j]
  {
    if rows == [] then []
    else
      var prev := Ids(Init(rows));
      assert forall i :: 0 <= i < |rows| - 1 ==> rows[i] == Init(rows)[i];
      if Last(rows).productId in prev then prev else prev + [Last(rows).productId]
  }

  /** The units of product `id` over `rows`: the sum of the quantities of its rows. */
  function TotalQuantity(rows: seq<SaleRow>, id: string): int {
    if rows == [] then 0
    else TotalQuantity(Init(rows), id) + (if Last(rows).productId == id then Last(rows).quantity else 0)
  }

  /** The revenue of product `id` over `rows`: the sum of the amounts of its rows. */
  function TotalAmount(rows: seq<SaleRow>, id: string): real {
    if rows == [] then 0.0
    else TotalAmount(Init(rows), id) + (if Last(rows).productId == id then Last(rows).totalAmount else 0.0)
  }

  /** The joined record of the first row of product `id`: `None` when no row has that id or
      when that first row's record is null. */
  function FirstProduct(rows: seq<SaleRow>, id: string): Option<ProductInfo> {
    if rows == [] then None
    else if id in Ids(Init(rows)) then FirstProduct(Init(rows), id)
    else if Last(rows).productId == id then Last(rows).product
    else None
  }

  /** The grouping loop does not throw on `rows`: it reads `sale.products` only on the first row
      of each product, and every such row carries its record. */
  predicate JoinComplete(rows: seq<SaleRow>) {
    forall id :: id in Ids(rows) ==> FirstProduct(rows, id).Some?
  }

  /** The entry of product `id`: the product of its first row and the two sums. */
  function Summary(rows: seq<SaleRow>, id: string): TopProduct
    requires id in Ids(rows) && JoinComplete(rows)
  {
    TopProduct(FirstProduct(rows, id).value, TotalQuantity(rows, id), TotalAmount(rows, id))
  }

  /** One entry per distinct product id, in first-encounter order: the values of the grouping
      Map, in its insertion order. */
  function Grouped(rows: seq<SaleRow>): (g: seq<TopProduct>)
    requires JoinComplete(rows)
    ensures |g| == |Ids(rows)|
    ensures forall k :: 0 <= k < |g| ==> g[k] == Summary(rows, Ids(rows)[k])
  {
    var ids := Ids(rows);
    seq(|ids|, k requires 0 <= k < |ids| => Summary(rows, ids[k]))
  }

  // ---------------------------------------------------------------------------------------
  // The stable sort by units, descending, and the cut to three
  // ---------------------------------------------------------------------------------------

  predicate SalesDescending(s: seq<TopProduct>) {
    forall i, j :: 0 <= i < j < |s| ==> s[i].totalSales >= s[j].totalSales
  }

  /** The entries of `s` whose unit count is `n`, in their order in `s`. */
  function WithSales(s: seq<TopProduct>, n: int): seq<TopProduct> {
    if s == [] then []
    else (if s[0].totalSales == n then [s[0]] else []) + WithSales(s[1..], n)
  }

  /** Puts `x` in front of the first entry of `s` that does not sell more than it. */
  function InsertBySales(x: TopProduct, s: seq<TopProduct>): (r: seq<TopProduct>)
    ensures multiset(r) == multiset(s) + multiset{x}
  {
    if s == [] || x.totalSales >= s[0].totalSales then
      [x] + s
    else
      assert s == [s[0]] + s[1..];
      [s[0]] + InsertBySales(x, s[1..])
  }

  /** A head that sells at least as much as every entry of a descending tail keeps the list
      descending. */
  lemma HeadDominates(a: TopProduct, t: seq<TopProduct>)
    requires SalesDescending(t)
    requires forall k :: 0 <= k < |t| ==> t[k].totalSales <= a.totalSales
    ensures SalesDescending([a] + t)
  {
    var r := [a] + t;
    forall i, j | 0 <= i < j < |r| ensures r[i].totalSales >= r[j].totalSales {
      assert r[j] == t[j - 1];
      if i > 0 {
        assert r[i] == t[i - 1];
      }
    }
  }

  /** Inserting keeps an upper bound on the units of every entry. */
  lemma InsertBounded(x: TopProduct, s: seq<TopProduct>, b: int)
    requires x.totalSales <= b
    requires forall k :: 0 <= k < |s| ==> s[k].totalSales <= b
    ensures forall k :: 0 <= k < |InsertBySales(x, s)| ==> InsertBySales(x, s)[k].totalSales <= b
  {
    var r := InsertBySales(x, s);
    forall k | 0 <= k < |r| ensures r[k].totalSales <= b {
      assert r[k] in multiset(r);
      if r[k] != x {
        assert r[k] in multiset(s);
        var j :| 0 <= j < |s| && s[j] == r[k];
      }
    }
  }

  /** Inserting into a list sorted by units, descending, keeps it sorted. */
  lemma {:induction false} InsertKeepsDescending(x: TopProduct, s: seq<TopProduct>)
    requires SalesDescending(s)
    ensures SalesDescending(InsertBySales(x, s))
  {
    if s == [] || x.totalSales >= s[0].totalSales {
      HeadDominates(x, s);
    } else {
      var tail := s[1..];
      assert forall k :: 0 <= k < |tail| ==> tail[k] == s[k + 1];
      InsertKeepsDescending(x, tail);
      InsertBounded(x, tail, s[0].totalSales);
      HeadDominates(s[0], InsertBySales(x, tail));
    }
  }

  /** `Array.prototype.sort` with the comparator `b.totalSales - a.totalSales`: a stable sort
      by units, descending. */
  function SortBySales(s: seq<TopProduct>): (r: seq<TopProduct>)
    ensures multiset(r) == multiset(s)
    ensures SalesDescending(r)
  {
    if s == [] then []
    else
      assert s == [s[0]] + s[1..];
      var sortedTail := SortBySales(s[1..]);
      InsertKeepsDescending(s[0], sortedTail);
      InsertBySales(s[0], sortedTail)
  }

  /** `.sort(...).slice(0, 3)`. */
  function TopThree(g: seq<TopProduct>): seq<TopProduct> {
    var sorted := SortBySales(g);
    sorted[..Min(3, |sorted|)]
  }

  /** `WithSales` of a list with a head: the head when it has `n` units, then the rest. */
  lemma WithSalesCons(a: TopProduct, t: seq<TopProduct>, n: int)
    ensures WithSales([a] + t, n) == (if a.totalSales == n then [a] else []) + WithSales(t, n)
  {
    assert ([a] + t)[1..] == t;
  }

  /** Two sequences of which one is empty can be put in front of a third in either order. */
  lemma SwapEmpty<T>(a: seq<T>, b: seq<T>, w: seq<T>)
    requires a == [] || b == []
    ensures a + (b + w) == b + (a + w)
  {
    if a == [] {
      assert a + (b + w) == b + w;
    } else {
      assert b + (a + w) == a + w;
    }
  }

  /** Inserting never reorders two entries with the same unit count. */
  lemma {:induction false} InsertKeepsTies(x: TopProduct, s: seq<TopProduct>, n: int)
    ensures WithSales(InsertBySales(x, s), n) == WithSales([x] + s, n)
  {
    if s != [] && x.totalSales < s[0].totalSales {
      var t := InsertBySales(x, s[1..]);
      var hx := if x.totalSales == n then [x] else [];
      var hs := if s[0].totalSales == n then [s[0]] else [];
      var w := WithSales(s[1..], n);
      calc {
        WithSales(InsertBySales(x, s), n);
        { assert InsertBySales(x, s) == [s[0]] + t; }
        WithSales([s[0]] + t, n);
        { WithSalesCons(s[0], t, n); }
        hs + WithSales(t, n);
        { InsertKeepsTies(x, s[1..], n); WithSalesCons(x, s[1..], n); }
        hs + (hx + w);
        { SwapEmpty(hs, hx, w); }
        hx + (hs + w);
        { WithSalesCons(s[0], s[1..], n); assert [s[0]] + s[1..] == s; }
        hx + WithSales(s, n);
        { WithSalesCons(x, s, n); }
        WithSales([x] + s, n);
      }
    }
  }

  /** The sort is stable: for every unit count, the entries with that count keep their order. */
  lemma {:induction false} SortKeepsTies(s: seq<TopProduct>, n: int)
    ensures WithSales(SortBySales(s), n) == WithSales(s, n)
  {
    if s != [] {
      SortKeepsTies(s[1..], n);
      InsertKeepsTies(s[0], SortBySales(s[1..]), n);
      assert ([s[0]] + SortBySales(s[1..]))[1..] == SortBySales(s[1..]);
    }
  }

  /** Cutting a list keeps a prefix of each run of equal unit counts. */
  lemma {:induction false} CutKeepsTiePrefix(s: seq<TopProduct>, k: nat, n: int)
    requires k <= |s|
    ensures WithSales(s[..k], n) <= WithSales(s, n)
  {
    if k > 0 {
      CutKeepsTiePrefix(s[1..], k - 1, n);
      assert s[..k][1..] == s[1..][..k - 1];
    }
  }

  /** In a list sorted by units, descending, every entry before position `m` sells at least
      as much as every entry from `m` on. */
  lemma DescendingSplit(s: seq<TopProduct>, m: nat)
    requires SalesDescending(s) && m <= |s|
    ensures forall x, y :: x in s[m..] && y in s[..m] ==> y.totalSales >= x.totalSales
  {
    forall x, y | x in s[m..] && y in s[..m] ensures y.totalSales >= x.totalSales {
      var k :| 0 <= k < |s| - m && s[m..][k] == x;
      var i :| 0 <= i < m && s[..m][i] == y;
      assert s[m + k] == x && s[i] == y;
    }
  }

  /** Whatever the cut to three leaves out sells no more than anything it keeps. */
  lemma CutDropsOnlySmaller(g: seq<TopProduct>)
    ensures forall x, y :: x in multiset(g) - multiset(TopThree(g)) && y in TopThree(g) ==> y.totalSales >= x.totalSales
  {
    var sorted := SortBySales(g);
    var m := Min(3, |sorted|);
    var r := TopThree(g);
    assert r == sorted[..m];
    assert sorted == r + sorted[m..];
    assert multiset(sorted) == multiset(r) + multiset(sorted[m..]);
    DescendingSplit(sorted, m);
    forall x, y | x in multiset(g) - multiset(r) && y in r ensures y.totalSales >= x.totalSales {
      assert x in multiset(sorted[m..]);
      assert x in sorted[m..] && y in sorted[..m];
    }
  }

  /** The ranking of `g`: at most three entries, taken from `g`, sorted by units descending;
      every entry left out sells no more than any entry kept; and among entries with equal
      units the kept ones are the earliest in `g`, in their order in `g`. */
  lemma TopThreeIsRanking(g: seq<TopProduct>)
    ensures |TopThree(g)| == Min(3, |g|)
    ensures SalesDescending(TopThree(g))
    ensures multiset(TopThree(g)) <= multiset(g)
    ensures forall x, y :: x in multiset(g) - multiset(TopThree(g)) && y in TopThree(g) ==> y.totalSales >= x.totalSales
    ensures forall n :: WithSales(TopThree(g), n) <= WithSales(g, n)
  {
    var sorted := SortBySales(g);
    var m := Min(3, |sorted|);
    assert |sorted| == |multiset(sorted)| == |multiset(g)| == |g|;
    assert sorted == TopThree(g) + sorted[m..];
    assert multiset(sorted) == multiset(TopThree(g)) + multiset(sorted[m..]);
    CutDropsOnlySmaller(g);
    forall n ensures WithSales(TopThree(g), n) <= WithSales(g, n) {
      CutKeepsTiePrefix(sorted, m, n);
      SortKeepsTies(g, n);
    }
  }

  /** The ranking is empty exactly when there are no sale rows. */
  lemma RankingEmptyIffNoSales(rows: seq<SaleRow>)
    requires JoinComplete(rows)
    ensures TopThree(Grouped(rows)) == [] <==> rows == []
  {
    TopThreeIsRanking(Grouped(rows));
    if rows != [] {
      assert rows[0].productId in Ids(rows);
    }
  }

  // ---------------------------------------------------------------------------------------
  // The loop of loadTopProducts
  // ---------------------------------------------------------------------------------------

  /** How the distinct ids of a prefix of the rows grow when one more row is taken in. */
  lemma IdsStep(rows: seq<SaleRow>, i: nat)
    requires i < |rows|
    ensures Ids(rows[..i + 1]) ==
      if rows[i].productId in Ids(rows[..i]) then Ids(rows[..i]) else Ids(rows[..i]) + [rows[i].productId]
  {
    assert Init(rows[..i + 1]) == rows[..i];
  }

  /** How the sums and the first record of product `id` change when one more row is taken in. */
  lemma PrefixStep(rows: seq<SaleRow>, i: nat, id: string)
    requires i < |rows|
    ensures TotalQuantity(rows[..i + 1], id) ==
      TotalQuantity(rows[..i], id) + (if rows[i].productId == id then rows[i].quantity else 0)
    ensures TotalAmount(rows[..i + 1], id) ==
      TotalAmount(rows[..i], id) + (if rows[i].productId == id then rows[i].totalAmount else 0.0)
    ensures FirstProduct(rows[..i + 1], id) ==
      if id in Ids(rows[..i]) then FirstProduct(rows[..i], id)
      else if rows[i].productId == id then rows[i].product
      else None
  {
    assert Init(rows[..i + 1]) == rows[..i];
    assert Last(rows[..i + 1]) == rows[i];
  }

  /** Taking in one more row: the rows seen so far still group without throwing exactly when
      the row's product was met before or the row carries its joined record. */
  lemma JoinStep(rows: seq<SaleRow>, i: nat)
    requires i < |rows|
    ensures JoinComplete(rows[..i + 1]) <==>
      JoinComplete(rows[..i]) && (rows[i].productId in Ids(rows[..i]) || rows[i].product.Some?)
  {
    var p, q, pid := rows[..i], rows[..i + 1], rows[i].productId;
    IdsStep(rows, i);
    if JoinComplete(q) {
      forall id | id in Ids(p) ensures FirstProduct(p, id).Some? {
        PrefixStep(rows, i, id);
        assert FirstProduct(q, id).Some?;
      }
      PrefixStep(rows, i, pid);
      assert FirstProduct(q, pid).Some?;
    }
    if JoinComplete(p) && (pid in Ids(p) || rows[i].product.Some?) {
      forall id | id in Ids(q) ensures FirstProduct(q, id).Some? {
        PrefixStep(rows, i, id);
      }
    }
  }

  /** A prefix of rows that group without throwing groups without throwing. */
  lemma {:induction false} JoinCompletePrefix(rows: seq<SaleRow>, k: nat)
    requires k <= |rows|
    ensures JoinComplete(rows) ==> JoinComplete(rows[..k])
  {
    if k < |rows| {
      var n := |rows| - 1;
      JoinStep(rows, n);
      assert rows[..n + 1] == rows;
      JoinCompletePrefix(rows[..n], k);
      assert rows[..n][..k] == rows[..k];
    } else {
      assert rows[..k] == rows;
    }
  }

  /** A product with no rows has no units and no revenue. */
  lemma {:induction false} AbsentHasNoTotals(rows: seq<SaleRow>, id: string)
    requires id !in Ids(rows)
    ensures TotalQuantity(rows, id) == 0 && TotalAmount(rows, id) == 0.0
  {
    if rows != [] {
      assert Last(rows).productId in Ids(rows);
      AbsentHasNoTotals(Init(rows), id);
    }
  }

  /** The entry of product `id` after the rows `seen`: the product of its first row and the
      two sums. */
  ghost predicate EntryTracks(seen: seq<SaleRow>, e: TopProduct, id: string) {
    && e.totalSales == TotalQuantity(seen, id)
    && e.totalRevenue == TotalAmount(seen, id)
    && FirstProduct(seen, id) == Some(e.product)
  }

  /** The Map of the loop, after the rows `seen`: one key per distinct product id, each
      holding the entry of that product. */
  ghost predicate Tracks(seen: seq<SaleRow>, m: map<string, TopProduct>) {
    && (forall id :: id in m <==> id in Ids(seen))
    && (forall id :: id in m ==> EntryTracks(seen, m[id], id))
  }

  /** One pass of the loop body, for the entry of one product `id`. */
  lemma EntryStep(rows: seq<SaleRow>, i: nat, m: map<string, TopProduct>, id: string)
    requires i < |rows|
    requires rows[i].productId in m || rows[i].product.Some?
    requires id in m <==> id in Ids(rows[..i])
    requires id in m ==> EntryTracks(rows[..i], m[id], id)
    requires id in m || id == rows[i].productId
    ensures EntryTracks(rows[..i + 1], Accumulate(m, rows[i])[id], id)
  {
    PrefixStep(rows, i, id);
    if id !in m {
      AbsentHasNoTotals(rows[..i], id);
    }
  }

  /** One pass of the loop body keeps the Map tracking the rows seen. */
  lemma StepKeepsTracking(rows: seq<SaleRow>, i: nat, m: map<string, TopProduct>)
    requires i < |rows| && Tracks(rows[..i], m)
    requires rows[i].productId in m || rows[i].product.Some?
    ensures Tracks(rows[..i + 1], Accumulate(m, rows[i]))
  {
    var after := Accumulate(m, rows[i]);
    IdsStep(rows, i);
    forall id | id in after ensures EntryTracks(rows[..i + 1], after[id], id) {
      EntryStep(rows, i, m, id);
    }
  }

  /** The last row of rows that group without throwing: the rows before it group without
      throwing, and the row's product was met before or the row carries its record. */
  lemma JoinLast(rows: seq<SaleRow>)
    requires rows != [] && JoinComplete(rows)
    ensures JoinComplete(Init(rows))
    ensures Last(rows).productId in Ids(Init(rows)) || Last(rows).product.Some?
  {
    var n := |rows| - 1;
    JoinStep(rows, n);
    assert rows[..n + 1] == rows;
    assert rows[..n] == Init(rows);
  }

  /** The Map after one more row: the row's entry (a zero entry holding its joined record when
      the product is new) gets its units and its amount added; the other entries are kept. */
  function Accumulate(m: map<string, TopProduct>, sale: SaleRow): map<string, TopProduct>
    requires sale.productId in m || sale.product.Some?
  {
    m[sale.productId := Added(if sale.productId in m then m[sale.productId] else TopProduct(sale.product.value, 0, 0.0), sale)]
  }

  /** An entry with one more sale counted: its units and its amount added to the sums. */
  function Added(current: TopProduct, sale: SaleRow): TopProduct {
    current.(totalSales := current.totalSales + sale.quantity, totalRevenue := current.totalRevenue + sale.totalAmount)
  }

  /** The Map the loop has built after the rows `rows`. */
  function SalesMap(rows: seq<SaleRow>): (m: map<string, TopProduct>)
    requires JoinComplete(rows)
    ensures forall id :: id in m <==> id in Ids(rows)
  {
    if rows == [] then map[]
    else
      JoinLast(rows);
      Accumulate(SalesMap(Init(rows)), Last(rows))
  }

  /** One more row taken in by the loop: the ids met grow by the row's id when it is new,
      and the Map of the longer prefix is the Map of the shorter one with the row
      accumulated. */
  lemma SalesMapStep(rows: seq<SaleRow>, i: nat)
    requires i < |rows| && JoinComplete(rows[..i])
    requires rows[i].productId in SalesMap(rows[..i]) || rows[i].product.Some?
    ensures JoinComplete(rows[..i + 1])
    ensures Ids(rows[..i + 1]) ==
      if rows[i].productId in SalesMap(rows[..i]) then Ids(rows[..i]) else Ids(rows[..i]) + [rows[i].productId]
    ensures SalesMap(rows[..i + 1]) == Accumulate(SalesMap(rows[..i]), rows[i])
  {
    JoinStep(rows, i);
    IdsStep(rows, i);
    assert Init(rows[..i + 1]) == rows[..i] && Last(rows[..i + 1]) == rows[i];
  }

  /** The Map built after any rows holds, for each product met, the record of its first row
      and its two sums. */
  lemma {:induction false} SalesMapTracks(rows: seq<SaleRow>)
    requires JoinComplete(rows)
    ensures Tracks(rows, SalesMap(rows))
  {
    if rows != [] {
      var n := |rows| - 1;
      JoinLast(rows);
      assert rows[..n] == Init(rows);
      assert rows[..n + 1] == rows;
      SalesMapTracks(Init(rows));
      StepKeepsTracking(rows, n, SalesMap(rows[..n]));
    }
  }

  /** The values of `m` read in the key order `order`, as iterating a Map does. */
  function InOrder(m: map<string, TopProduct>, order: seq<string>): seq<TopProduct>
    requires forall id :: id in order ==> id in m
  {
    seq(|order|, k requires 0 <= k < |order| => m[order[k]])
  }

  /** Reading the finished Map in insertion order gives the grouping of all the rows. */
  lemma MapValuesAreGrouped(rows: seq<SaleRow>, m: map<string, TopProduct>)
    requires JoinComplete(rows) && Tracks(rows, m)
    ensures InOrder(m, Ids(rows)) == Grouped(rows)
  {
    var values := InOrder(m, Ids(rows));
    forall k | 0 <= k < |values| ensures values[k] == Grouped(rows)[k] {
      var id := Ids(rows)[k];
      assert values[k] == TopProduct(m[id].product, m[id].totalSales, m[id].totalRevenue);
    }
  }

  /** The `forEach` of `loadTopProducts` over the sale rows, read back in the Map's insertion
      order. `None` stands for the exception the loop throws when a row that is the first of
      its product has a null joined record (`sale.products.id`). */
  method GroupSales(rows: seq<SaleRow>) returns (result: Option<seq<TopProduct>>)
    ensures result.Some? <==> JoinComplete(rows)
    ensures result.Some? ==> result.value == Grouped(rows)
  {
    var productSales: map<string, TopProduct> := map[];
    var order: seq<string> := [];  // the Map's insertion order
    var i := 0;
    while i < |rows|
      invariant 0 <= i <= |rows|
      invariant JoinComplete(rows[..i])
      invariant order == Ids(rows[..i])
      invariant productSales == SalesMap(rows[..i])
    {
      var sale := rows[i];
      assert sale.productId in productSales <==> sale.productId in order;
      if sale.productId !in productSales && sale.product.None? {
        JoinStep(rows, i);
        JoinCompletePrefix(rows, i + 1);
        return None;
      }
      SalesMapStep(rows, i);
      // A new product gets a zero entry, which the sums below then fill in.
      var current := if sale.productId in productSales then productSales[sale.productId]
        else TopProduct(sale.product.value, 0, 0.0);
      if sale.productId !in productSales {
        order := order + [sale.productId];
      }
      productSales := productSales[sale.productId := Added(current, sale)];
      i := i + 1;
    }
    assert rows[..i] == rows;
    SalesMapTracks(rows);
    MapValuesAreGrouped(rows, productSales);
    result := Some(InOrder(productSales, order));
  }

  /** The ranking step of `loadTopProducts`: the grouping, then the sort and the cut. A null
      `salesData` groups nothing. */
  method AggregateSales(salesData: Option<seq<SaleRow>>) returns (result: Option<seq<TopProduct>>)
    ensures salesData.None? ==> result == Some([])
    ensures salesData.Some? ==> (result.Some? <==> JoinComplete(salesData.value))
    ensures salesData.Some? && result.Some? ==> result.value == TopThree(Grouped(salesData.value))
  {
    var grouped := GroupSales(if salesData.Some? then salesData.value else []);
    if grouped.None? {
      return None;
    }
    result := Some(TopThree(grouped.value));
  }

  // ---------------------------------------------------------------------------------------
  // The first row of each product
  // ---------------------------------------------------------------------------------------

  /** Row `i` is the first row of its product. */
  predicate Introduces(rows: seq<SaleRow>, i: int)
    requires 0 <= i < |rows|
  {
    forall j :: 0 <= j < i ==> rows[j].productId != rows[i].productId
  }

  /** Every id in `Ids(rows)` is the id of some row. */
  lemma {:induction false} IdHasRow(rows: seq<SaleRow>, id: string)
    requires id in Ids(rows)
    ensures exists j :: 0 <= j < |rows| && rows[j].productId == id
  {
    if id in Ids(Init(rows)) {
      IdHasRow(Init(rows), id);
      var j :| 0 <= j < |rows| - 1 && Init(rows)[j].productId == id;
      assert rows[j] == Init(rows)[j];
    }
  }

  /** A row is the first of its product exactly when its id is not among those met before. */
  lemma IntroducesIffNew(rows: seq<SaleRow>, i: nat)
    requires i < |rows|
    ensures Introduces(rows, i) <==> rows[i].productId !in Ids(rows[..i])
  {
    var p := rows[..i];
    if rows[i].productId in Ids(p) {
      IdHasRow(p, rows[i].productId);
      var j :| 0 <= j < i && p[j].productId == rows[i].productId;
      assert rows[j] == p[j];
    } else {
      forall j | 0 <= j < i ensures rows[j].productId != rows[i].productId {
        assert p[j].productId in Ids(p);
      }
    }
  }

  /** Each entry takes its product fields from the first row of that product. */
  lemma {:induction false} FirstProductIsFirstRow(rows: seq<SaleRow>, i: nat)
    requires i < |rows| && Introduces(rows, i)
    ensures FirstProduct(rows, rows[i].productId) == rows[i].product
  {
    var n := |rows| - 1;
    IntroducesIffNew(rows, i);
    assert rows[..n] == Init(rows);
    if i < n {
      assert rows[i] == Init(rows)[i];
      assert Introduces(Init(rows), i);
      FirstProductIsFirstRow(Init(rows), i);
    } else {
      assert rows[..i] == Init(rows);
    }
  }

  /** The loop throws exactly when some row that is the first of its product has a null
      joined record. */
  lemma JoinCompleteIffFirstRowsJoined(rows: seq<SaleRow>)
    ensures JoinComplete(rows) <==>
      forall i :: 0 <= i < |rows| && Introduces(rows, i) ==> rows[i].product.Some?
  {
    forall i | 0 <= i < |rows| && Introduces(rows, i)
      ensures FirstProduct(rows, rows[i].productId) == rows[i].product
    {
      FirstProductIsFirstRow(rows, i);
    }
    forall id | id in Ids(rows)
      ensures exists i :: 0 <= i < |rows| && Introduces(rows, i) && rows[i].productId == id
    {
      IdHasRow(rows, id);
      var j :| 0 <= j < |rows| && rows[j].productId == id;
      var k := EarliestRow(rows, id, j);
    }
  }

  /** The earliest row of product `id`, given some row `j` of it. */
  lemma {:induction false} EarliestRow(rows: seq<SaleRow>, id: string, j: nat) returns (k: nat)
    requires j < |rows| && rows[j].productId == id
    ensures k <= j && rows[k].productId == id && Introduces(rows, k)
    decreases j
  {
    if Introduces(rows, j) {
      k := j;
    } else {
      var j' :| 0 <= j' < j && rows[j'].productId == rows[j].productId;
      k := EarliestRow(rows, id, j');
    }
  }

  // ---------------------------------------------------------------------------------------
  // Products and platforms
  // ---------------------------------------------------------------------------------------

  /** A row of the `products` table, under its column names. */
  datatype ProductRecord = ProductRecord(
    id: string,
    name: string,
    description: string,
    price: real,
    image_url: string,
    platform: string,
    platform_id: string,
    user_id: string,
    created_at: string)

  /** `p` holds the columns of `row`, each under its client-side name. */
  predicate Carries(row: ProductRecord, p: Product) {
    && p.id == row.id && p.name == row.name && p.description == row.description
    && p.price == row.price && p.imageUrl == row.image_url && p.platform == row.platform
    && p.platformId == row.platform_id && p.userId == row.user_id && p.createdAt == row.created_at
  }

  /** `data?.map(...) || []` in `loadProducts`. */
  function ToProducts(data: Option<seq<ProductRecord>>): (products: seq<Product>)
    ensures data.None? ==> products == []
    ensures data.Some? ==> |products| == |data.value|
    ensures data.Some? ==> forall i :: 0 <= i < |products| ==> Carries(data.value[i], products[i])
  {
    match data
    case None => []
    case Some(rows) =>
      seq(|rows|, i requires 0 <= i < |rows| =>
        Product(rows[i].id, rows[i].name, rows[i].description, rows[i].price, rows[i].image_url,
                rows[i].platform, rows[i].platform_id, rows[i].user_id, rows[i].created_at))
  }

  predicate IsKnownPlatform(platform: string) {
    platform == "mercadolibre" || platform == "tiendanube" || platform == "shopify"
  }

  /** The icon shown for a platform nobody recognises: a package. */
  const FallbackIcon: string := "\U{1F4E6}"

  /** `getPlatformIcon`: a cart, a cloud or a bag for the three known platforms, a package for
      any other value. */
  function PlatformIcon(platform: string): (icon: string)
    ensures icon == FallbackIcon <==> !IsKnownPlatform(platform)
  {
    match platform
    case "mercadolibre" => "\U{1F6D2}"
    case "tiendanube" => "\U{2601}\U{FE0F}"
    case "shopify" => "\U{1F6CD}\U{FE0F}"
    case _ => FallbackIcon
  }

  /** `getPlatformName`: a display name for each known platform, any other value unchanged. */
  function PlatformName(platform: string): (name: string)
    ensures name == platform <==> !IsKnownPlatform(platform)
    ensures platform == "mercadolibre" ==> name == "MercadoLibre"
    ensures platform == "tiendanube" ==> name == "Tienda Nube"
    ensures platform == "shopify" ==> name == "Shopify"
  {
    match platform
    case "mercadolibre" => "MercadoLibre"
    case "tiendanube" => "Tienda Nube"
    case "shopify" => "Shopify"
    case _ => platform
  }

  /** The card shows the fallback icon exactly when it shows the raw platform string. */
  lemma IconAndNameAgree(platform: string)
    ensures PlatformIcon(platform) == FallbackIcon <==> PlatformName(platform) == platform
  {
  }

  // ---------------------------------------------------------------------------------------
  // The dashboard's state
  // ---------------------------------------------------------------------------------------

  class HomeView {
    var topProducts: seq<TopProduct>
    var products: seq<Product>
    var loading: bool

    constructor ()
      ensures topProducts == [] && products == [] && loading
    {
      topProducts, products, loading := [], [], true;
    }

    /** `topProducts.length === 0` selects the "no sales" panel. */
    predicate ShowsEmptyRanking()
      reads this
    {
      |topProducts| == 0
    }

    /** `loadTopProducts`: a failed query, or a loop that throws, leaves the ranking as it
        was; otherwise the ranking is replaced by the new one. */
    method LoadTopProducts(response: Fetch<seq<SaleRow>>)
      modifies this`topProducts
      ensures response.FetchFailed? ==> topProducts == old(topProducts)
      ensures response.Fetched? && response.data.None? ==> topProducts == []
      ensures response.Fetched? && response.data.Some? ==>
        topProducts == if JoinComplete(response.data.value)
                       then TopThree(Grouped(response.data.value))
                       else old(topProducts)
      ensures response.Fetched? && response.data.Some? && JoinComplete(response.data.value) ==>
        (ShowsEmptyRanking() <==> response.data.value == [])
    {
      if response.FetchFailed? {
        return;
      }
      var ranked := AggregateSales(response.data);
      if ranked.Some? {
        topProducts := ranked.value;
      }
      if response.data.Some? && JoinComplete(response.data.value) {
        RankingEmptyIffNoSales(response.data.value);
      }
    }

    /** `loadProducts`: a failed query leaves the list as it was. */
    method LoadProducts(response: Fetch<seq<ProductRecord>>)
      modifies this`products
      ensures response.FetchFailed? ==> products == old(products)
      ensures response.Fetched? ==> products == ToProducts(response.data)
    {
      if response.Fetched? {
        products := ToProducts(response.data);
      }
    }

    /** `loadData`: both loads, then the spinner goes off whatever they did. */
    method LoadData(sales: Fetch<seq<SaleRow>>, productRows: Fetch<seq<ProductRecord>>)
      modifies this
      ensures !loading
      ensures sales.FetchFailed? ==> topProducts == old(topProducts)
      ensures sales.Fetched? && sales.data.None? ==> topProducts == []
      ensures sales.Fetched? && sales.data.Some? ==>
        topProducts == if JoinComplete(sales.data.value)
                       then TopThree(Grouped(sales.data.value))
                       else old(topProducts)
      ensures productRows.FetchFailed? ==> products == old(products)
      ensures productRows.Fetched? ==> products == ToProducts(productRows.data)
    {
      loading := true;
      LoadTopProducts(sales);
      LoadProducts(productRows);
      loading := false;
    }
  }
}
