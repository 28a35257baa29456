/** The sales dashboard: key figures over the ledger of completed orders,
    revenue per menu category, and the most recent transactions. */
module SalesDashboard {
  import opened Collections
  import opened Catalog
  import opened OrderStore

  // ---------------------------------------------------------------------
  // Key figures

  datatype Kpis = Kpis(totalRevenue: real, totalOrders: nat, avgOrderValue: real)

  function OrderTotal(o: CompletedOrder): real
  {
    o.total
  }

  /** The amount charged over the whole ledger. */
  function Revenue(ledger: seq<CompletedOrder>): (r: real)
    ensures ledger == [] ==> r == 0.0
    ensures (forall i :: 0 <= i < |ledger| ==> ledger[i].total >= 0.0) ==> r >= 0.0
  {
    if forall i :: 0 <= i < |ledger| ==> ledger[i].total >= 0.0 then
      SumNonNegative(ledger, OrderTotal);
      Sum(ledger, OrderTotal)
    else
      Sum(ledger, OrderTotal)
  }

  /** The three cards: revenue, number of orders and average order value,
      all zero for an empty ledger. */
  function SalesKpis(ledger: seq<CompletedOrder>): (r: Kpis)
    ensures r.totalOrders == |ledger|
    ensures |ledger| == 0 ==> r == Kpis(0.0, 0, 0.0)
    ensures |ledger| > 0 ==> r.totalRevenue == Revenue(ledger)
    ensures |ledger| > 0 ==> r.avgOrderValue * |ledger| as real == r.totalRevenue
  {
    if |ledger| == 0 then Kpis(0.0, 0, 0.0)
    else
      var totalRevenue := Sum(ledger, OrderTotal);
      Kpis(totalRevenue, |ledger|, totalRevenue / |ledger| as real)
  }

  /** Completing an order adds one to the count and its total to the revenue. */
  lemma KpisAfterCompletion(o: CompletedOrder, ledger: seq<CompletedOrder>)
    ensures SalesKpis([o] + ledger).totalOrders == SalesKpis(ledger).totalOrders + 1
    ensures SalesKpis([o] + ledger).totalRevenue == SalesKpis(ledger).totalRevenue + o.total
  {
    assert ([o] + ledger)[1..] == ledger;
  }

  /** With no negative totals, the average lies between zero and the largest total. */
  lemma {:induction false} AverageBounded(ledger: seq<CompletedOrder>, m: real)
    requires forall i :: 0 <= i < |ledger| ==> 0.0 <= ledger[i].total <= m
    ensures 0.0 <= SalesKpis(ledger).avgOrderValue
    ensures |ledger| > 0 ==> SalesKpis(ledger).avgOrderValue <= m
  {
    RevenueBounded(ledger, m);
  }

  lemma {:induction false} RevenueBounded(ledger: seq<CompletedOrder>, m: real)
    requires forall i :: 0 <= i < |ledger| ==> 0.0 <= ledger[i].total <= m
    ensures 0.0 <= Revenue(ledger) <= m * |ledger| as real
  {
    if ledger != [] {
      RevenueBounded(ledger[1..], m);
    }
  }

  // ---------------------------------------------------------------------
  // Revenue by category

  datatype CategoryRevenue = CategoryRevenue(name: string, revenue: real)

  /** What one line adds to the category with id `categoryId`: its price
      times quantity when it belongs to that category, nothing otherwise. */
  function AmountIn(categoryId: string): OrderItem -> real
  {
    (x: OrderItem) => if x.item.categoryId == categoryId then LineAmount(x) else 0.0
  }

  function OrderRevenueIn(categoryId: string): CompletedOrder -> real
  {
    (o: CompletedOrder) => Sum(o.items, AmountIn(categoryId))
  }

  /** The revenue of one category over the ledger, whatever the lines' status. */
  function RevenueOf(ledger: seq<CompletedOrder>, categoryId: string): real
  {
    Sum(ledger, OrderRevenueIn(categoryId))
  }

  function CategoryNames(): (r: seq<string>)
    ensures |r| == |MenuCategories|
    ensures forall i :: 0 <= i < |r| ==> r[i] == MenuCategories[i].name
  {
    seq(|MenuCategories|, i requires 0 <= i < |MenuCategories| => MenuCategories[i].name)
  }

  /** An item's category lookup lands on category `i` exactly when the
      item carries that category's id. */
  lemma FoundCategory(categoryId: string, i: nat)
    requires i < |MenuCategories|
    ensures FindCategory(MenuCategories, categoryId).Some? && FindCategory(MenuCategories, categoryId).value.name == MenuCategories[i].name
            <==> categoryId == MenuCategories[i].id
  {
    CategoryOrder();
    var f := FindCategory(MenuCategories, categoryId);
    if categoryId == MenuCategories[i].id {
      FindCategoryOwnId(MenuCategories, i);
    } else if f.Some? {
      var j :| 0 <= j < |MenuCategories| && MenuCategories[j] == f.value;
      assert j != i;
    }
  }

  /** The record's first state: every category name keyed to zero, the
      keys in catalog order. */
  method ZeroRecord() returns (record: map<string, real>, keys: seq<string>)
    ensures keys == CategoryNames()
    ensures forall k :: k in record <==> k in keys
    ensures forall k :: k in record ==> record[k] == 0.0
  {
    CategoryOrder();
    var names := CategoryNames();
    record := map[];
    keys := [];
    for c := 0 to |MenuCategories|
      invariant keys == names[..c]
      invariant forall k :: k in record <==> k in keys
      invariant forall k :: k in record ==> record[k] == 0.0
    {
      var name := MenuCategories[c].name;
      if name !in record {
        keys := keys + [name];
      }
      record := record[name := 0.0];
    }
  }

  /** One line added under the name its category id looks up adds its
      amount to that category and nothing to the others. */
  lemma LineStep(before: map<string, real>, after: map<string, real>, x: OrderItem)
    requires forall i :: 0 <= i < |MenuCategories| ==> MenuCategories[i].name in before
    requires FindCategory(MenuCategories, x.item.categoryId).Some? ==>
      var name := FindCategory(MenuCategories, x.item.categoryId).value.name;
      name in before && after == before[name := before[name] + x.item.price * x.quantity as real]
    requires FindCategory(MenuCategories, x.item.categoryId).None? ==> after == before
    ensures forall i :: 0 <= i < |MenuCategories| ==>
      MenuCategories[i].name in after &&
      after[MenuCategories[i].name] == before[MenuCategories[i].name] + AmountIn(MenuCategories[i].id)(x)
  {
    forall i | 0 <= i < |MenuCategories|
      ensures MenuCategories[i].name in after
      ensures after[MenuCategories[i].name] == before[MenuCategories[i].name] + AmountIn(MenuCategories[i].id)(x)
    {
      FoundCategory(x.item.categoryId, i);
    }
  }

  /** One line added to the record under the name its category id looks
      up; a line of an unknown category is skipped. */
  method AddLine(record: map<string, real>, keys: seq<string>, item: OrderItem)
    returns (updated: map<string, real>)
    requires keys == CategoryNames()
    requires forall k :: k in record <==> k in keys
    ensures forall k :: k in updated <==> k in keys
    ensures forall i :: 0 <= i < |keys| ==>
      updated[keys[i]] == record[keys[i]] + AmountIn(MenuCategories[i].id)(item)
  {
    updated := record;
    var category := FindCategory(MenuCategories, item.item.categoryId);
    if category.Some? {
      var name := category.value.name;
      FoundNameIsKey(item.item.categoryId);
      updated := updated[name := updated[name] + item.item.price * item.quantity as real];
    }
    LineStep(record, updated, item);
  }

  /** A category the lookup finds has its name among the record's keys. */
  lemma FoundNameIsKey(categoryId: string)
    requires FindCategory(MenuCategories, categoryId).Some?
    ensures FindCategory(MenuCategories, categoryId).value.name in CategoryNames()
  {
    var c := FindCategory(MenuCategories, categoryId).value;
    var j :| 0 <= j < |MenuCategories| && MenuCategories[j] == c;
    assert CategoryNames()[j] == c.name;
  }

  /** Every category's running sum grows by the next line's share. */
  lemma SumPrefixPerCategory(items: seq<OrderItem>, m: nat)
    requires m < |items|
    ensures forall i :: 0 <= i < |MenuCategories| ==>
      Sum(items[..m + 1], AmountIn(MenuCategories[i].id))
        == Sum(items[..m], AmountIn(MenuCategories[i].id)) + AmountIn(MenuCategories[i].id)(items[m])
  {
    forall i | 0 <= i < |MenuCategories|
      ensures Sum(items[..m + 1], AmountIn(MenuCategories[i].id))
           == Sum(items[..m], AmountIn(MenuCategories[i].id)) + AmountIn(MenuCategories[i].id)(items[m])
    {
      SumPrefix(items, m, AmountIn(MenuCategories[i].id));
    }
  }

  /** The inner `forEach`: each line of one completed order added to the
      category its id looks up. */
  method AddOrderLines(record: map<string, real>, keys: seq<string>, items: seq<OrderItem>)
    returns (updated: map<string, real>)
    requires keys == CategoryNames()
    requires forall k :: k in record <==> k in keys
    ensures forall k :: k in updated <==> k in keys
    ensures forall i :: 0 <= i < |keys| ==>
      updated[keys[i]] == record[keys[i]] + Sum(items, AmountIn(MenuCategories[i].id))
  {
    updated := record;
    for m := 0 to |items|
      invariant forall k :: k in updated <==> k in keys
      invariant forall i :: 0 <= i < |keys| ==>
        updated[keys[i]] == record[keys[i]] + Sum(items[..m], AmountIn(MenuCategories[i].id))
    {
      updated := AddLine(updated, keys, items[m]);
      SumPrefixPerCategory(items, m);
    }
    assert items[..|items|] == items;
  }

  /** `revenueByCategory`: a record keyed by category name, every key set
      to zero in catalog order, then each line of each completed order
      added to the category its id looks up; its entries in key order. */
  method RevenueByCategory(ledger: seq<CompletedOrder>) returns (r: seq<CategoryRevenue>)
    ensures |r| == |MenuCategories|
    ensures forall i :: 0 <= i < |r| ==>
      r[i] == CategoryRevenue(MenuCategories[i].name, RevenueOf(ledger, MenuCategories[i].id))
    ensures |ledger| == 0 ==> forall i :: 0 <= i < |r| ==> r[i].revenue == 0.0
  {
    // A JavaScript record: its values, and its keys in insertion order.
    var categoryRevenue, keys := ZeroRecord();

    for n := 0 to |ledger|
      invariant forall k :: k in categoryRevenue <==> k in keys
      invariant forall i :: 0 <= i < |keys| ==>
        categoryRevenue[keys[i]] == RevenueOf(ledger[..n], MenuCategories[i].id)
    {
      categoryRevenue := AddOrderLines(categoryRevenue, keys, ledger[n].items);
      forall i | 0 <= i < |keys|
        ensures RevenueOf(ledger[..n + 1], MenuCategories[i].id)
             == RevenueOf(ledger[..n], MenuCategories[i].id) + Sum(ledger[n].items, AmountIn(MenuCategories[i].id))
      {
        SumPrefix(ledger, n, OrderRevenueIn(MenuCategories[i].id));
      }
    }
    assert ledger[..|ledger|] == ledger;

    r := Entries(categoryRevenue, keys);
  }

  /** `Object.entries` mapped to name/revenue pairs: one entry per key, in
      insertion order. */
  method Entries(record: map<string, real>, keys: seq<string>) returns (r: seq<CategoryRevenue>)
    requires forall k :: k in keys ==> k in record
    ensures |r| == |keys|
    ensures forall i :: 0 <= i < |keys| ==> r[i] == CategoryRevenue(keys[i], record[keys[i]])
  {
    r := [];
    for c := 0 to |keys|
      invariant |r| == c
      invariant forall i :: 0 <= i < c ==> r[i] == CategoryRevenue(keys[i], record[keys[i]])
    {
      r := r + [CategoryRevenue(keys[c], record[keys[c]])];
    }
  }

  /** Completing an order adds its lines' amounts to each category. */
  lemma RevenueOfAfterCompletion(o: CompletedOrder, ledger: seq<CompletedOrder>, categoryId: string)
    ensures RevenueOf([o] + ledger, categoryId) == Sum(o.items, AmountIn(categoryId)) + RevenueOf(ledger, categoryId)
  {
    assert ([o] + ledger)[1..] == ledger;
  }

  /** A line whose category is not in the catalog adds to no category. */
  lemma UnknownCategorySkipped(x: OrderItem, i: nat)
    requires x.item.categoryId !in CategoryIds()
    requires i < |MenuCategories|
    ensures AmountIn(MenuCategories[i].id)(x) == 0.0
  {
    assert CategoryIds()[i] == MenuCategories[i].id;
  }

  /** The share of each category in a list of lines. */
  function CategoryShare(items: seq<OrderItem>): MenuCategory -> real
  {
    (c: MenuCategory) => Sum(items, AmountIn(c.id))
  }

  /** The share of each category in one line. */
  function LineShare(x: OrderItem): MenuCategory -> real
  {
    (c: MenuCategory) => AmountIn(c.id)(x)
  }

  /** A line of a catalog category is counted in exactly one category, for its full amount. */
  lemma LineSplitsOverCategories(x: OrderItem)
    requires x.item.categoryId in CategoryIds()
    ensures Sum(MenuCategories, LineShare(x)) == LineAmount(x)
  {
    CategoryOrder();
    var f := LineShare(x);
    var cs := MenuCategories;
    assert cs[1..][1..][1..][1..] == [];
    assert Sum(cs[3..], f) == f(cs[3]) by { assert cs[3..][1..] == []; }
    assert Sum(cs[2..], f) == f(cs[2]) + Sum(cs[3..], f) by { assert cs[2..][1..] == cs[3..]; }
    assert Sum(cs[1..], f) == f(cs[1]) + Sum(cs[2..], f) by { assert cs[1..][1..] == cs[2..]; }
    assert Sum(cs, f) == f(cs[0]) + Sum(cs[1..], f);
    assert forall k :: 0 <= k < 4 ==> f(cs[k]) == AmountIn(cs[k].id)(x);
    assert cs[0].id == "appetizers" && cs[1].id == "main-courses" && cs[2].id == "desserts" && cs[3].id == "beverages";
  }

  /** For lines of catalog categories, the category revenues add up to the bill's subtotal. */
  lemma {:induction false} CategoriesPartitionAmount(items: seq<OrderItem>)
    requires forall i :: 0 <= i < |items| ==> items[i].item.categoryId in CategoryIds()
    ensures Sum(MenuCategories, CategoryShare(items)) == Sum(items, LineAmount)
  {
    if items == [] {
      SumOfZeros(MenuCategories, CategoryShare(items));
    } else {
      var x := items[0];
      var rest := items[1..];
      CategoriesPartitionAmount(rest);
      LineSplitsOverCategories(x);
      SumPointwise(MenuCategories, CategoryShare(items), LineShare(x), CategoryShare(rest));
    }
  }

  // ---------------------------------------------------------------------
  // Recent transactions

  const RecentLimit: nat := 7

  /** `slice(0, 7)`: the first seven records of the ledger, or all of them. */
  function RecentTransactions(ledger: seq<CompletedOrder>): (r: seq<CompletedOrder>)
    ensures |r| <= |ledger| && |r| <= RecentLimit
    ensures |r| == |ledger| || |r| == RecentLimit
    ensures forall i :: 0 <= i < |r| ==> r[i] == ledger[i]
  {
    if |ledger| <= RecentLimit then ledger else ledger[..RecentLimit]
  }

  /** With the ledger newest first, a completed order heads the recent
      transactions and pushes the others down by one. */
  lemma RecentAfterCompletion(o: CompletedOrder, ledger: seq<CompletedOrder>)
    ensures RecentTransactions([o] + ledger)[0] == o
    ensures RecentTransactions([o] + ledger)[1..] == RecentTransactions(ledger)[..|RecentTransactions([o] + ledger)| - 1]
  {
    var r := RecentTransactions([o] + ledger);
    var q := RecentTransactions(ledger);
    assert |r| - 1 <= |q|;
    forall i | 0 <= i < |r| - 1 ensures r[1..][i] == q[i] {
      assert r[i + 1] == ([o] + ledger)[i + 1] == ledger[i];
    }
  }
}
