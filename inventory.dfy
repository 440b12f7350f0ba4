/** The catalog views and catalog updates of App.tsx: inventory statistics,
    the product search, the stock decrement of a sale, the edit and add
    callbacks of the product form, and the list of products met in the
    ledger. */
module Inventory {

  import opened Types
  import opened Seqs
  import opened Text
  import opened ProductForm

  // ----- `stats` -----

  datatype InventoryStats = InventoryStats(count: int, totalItems: int, investment: int)

  function ProductStock(p: Product): int { p.stock }

  function ProductInvestment(p: Product): int { p.purchasePrice * p.stock }

  /** `stats` without the storage size: the number of products, the stock on
      hand and the stock valued at purchase price. */
  function Stats(products: seq<Product>): (st: InventoryStats)
    ensures products == [] ==> st == InventoryStats(0, 0, 0)
    ensures st.count == |products|
  {
    InventoryStats(|products|, SumOf(products, ProductStock), SumOf(products, ProductInvestment))
  }

  /** Adding a product adds its stock and its value to the statistics. */
  lemma StatsAfterAdd(products: seq<Product>, p: Product)
    ensures Stats(products + [p]) == InventoryStats(
      Stats(products).count + 1,
      Stats(products).totalItems + p.stock,
      Stats(products).investment + p.purchasePrice * p.stock)
  {
    SumConcat(products, [p], ProductStock);
    SumConcat(products, [p], ProductInvestment);
  }

  /** With no negative stock and no negative purchase price, the item total
      and the investment are not negative. The form's adjustment can make a
      stock negative, so the condition is not automatic. */
  lemma StatsNonNegative(products: seq<Product>)
    requires forall i :: 0 <= i < |products| ==> products[i].stock >= 0 && products[i].purchasePrice >= 0
    ensures Stats(products).totalItems >= 0 && Stats(products).investment >= 0
  {
    SumNonNegative(products, ProductStock);
    SumNonNegative(products, ProductInvestment);
  }

  // ----- the stock decrement of `handleConfirmSale` -----

  /** `products.map(p => p.id === id ? { ...p, stock: p.stock - quantity } : p)`. */
  function DecrementStock(products: seq<Product>, id: string, quantity: int): (r: seq<Product>)
    ensures |r| == |products|
    ensures forall i :: 0 <= i < |r| ==>
      r[i] == if products[i].id == id then products[i].(stock := products[i].stock - quantity) else products[i]
  {
    if products == [] then []
    else
      var p := products[0];
      [if p.id == id then p.(stock := p.stock - quantity) else p] + DecrementStock(products[1..], id, quantity)
  }

  /** How many catalog entries carry `id`. */
  function CountWithId(products: seq<Product>, id: string): nat {
    if products == [] then 0
    else (if products[0].id == id then 1 else 0) + CountWithId(products[1..], id)
  }

  /** The purchase prices of the entries that carry `id`, added up. */
  function PurchasePriceWithId(products: seq<Product>, id: string): int {
    if products == [] then 0
    else (if products[0].id == id then products[0].purchasePrice else 0) + PurchasePriceWithId(products[1..], id)
  }

  lemma {:induction false} StockAfterSale(products: seq<Product>, id: string, quantity: int)
    ensures SumOf(DecrementStock(products, id, quantity), ProductStock)
         == SumOf(products, ProductStock) - quantity * CountWithId(products, id)
  {
    if products != [] {
      var p, rest := products[0], products[1..];
      var after := DecrementStock(products, id, quantity);
      StockAfterSale(rest, id, quantity);
      assert after[1..] == DecrementStock(rest, id, quantity);
      assert SumOf(after, ProductStock) == after[0].stock + SumOf(after[1..], ProductStock);
      var c := CountWithId(rest, id);
      if p.id == id {
        assert quantity * (1 + c) == quantity + quantity * c;
      }
    }
  }

  lemma {:induction false} InvestmentAfterSale(products: seq<Product>, id: string, quantity: int)
    ensures SumOf(DecrementStock(products, id, quantity), ProductInvestment)
         == SumOf(products, ProductInvestment) - quantity * PurchasePriceWithId(products, id)
  {
    if products != [] {
      var p, rest := products[0], products[1..];
      var after := DecrementStock(products, id, quantity);
      InvestmentAfterSale(rest, id, quantity);
      assert after[1..] == DecrementStock(rest, id, quantity);
      assert SumOf(after, ProductInvestment) == ProductInvestment(after[0]) + SumOf(after[1..], ProductInvestment);
      var c := PurchasePriceWithId(rest, id);
      if p.id == id {
        assert ProductInvestment(after[0]) == p.purchasePrice * (p.stock - quantity);
        assert p.purchasePrice * (p.stock - quantity) == p.purchasePrice * p.stock - quantity * p.purchasePrice;
        assert quantity * (p.purchasePrice + c) == quantity * p.purchasePrice + quantity * c;
      }
    }
  }

  /** A sale of `quantity` units takes that many units off the stock total for
      each entry with the sold id (one, when ids are unique), and their value
      off the investment. */
  lemma StatsAfterSale(products: seq<Product>, id: string, quantity: int)
    ensures Stats(DecrementStock(products, id, quantity)).totalItems
         == Stats(products).totalItems - quantity * CountWithId(products, id)
    ensures Stats(DecrementStock(products, id, quantity)).investment
         == Stats(products).investment - quantity * PurchasePriceWithId(products, id)
    ensures Stats(DecrementStock(products, id, quantity)).count == Stats(products).count
  {
    StockAfterSale(products, id, quantity);
    InvestmentAfterSale(products, id, quantity);
  }

  // ----- `filteredProducts` -----

  predicate MatchesSearch(p: Product, q: string, normalize: string -> string) {
    Contains(normalize(p.name + " " + p.id), q)
  }

  function SearchTest(q: string, normalize: string -> string): Product -> bool {
    p => MatchesSearch(p, q, normalize)
  }

  /** The dashboard search over "name id", normalised on both sides; a blank
      query shows the whole catalog. */
  function FilteredProducts(products: seq<Product>, query: string, normalize: string -> string): (r: seq<Product>)
    ensures IsBlank(query) ==> r == products
    ensures |r| <= |products|
  {
    if IsBlank(query) then products else Filter(products, SearchTest(normalize(query), normalize))
  }

  /** A product is listed exactly when it is in the catalog and, for a
      non-blank query, its normalised "name id" contains the normalised query. */
  lemma FilteredProductsContents(products: seq<Product>, query: string, normalize: string -> string, p: Product)
    ensures p in FilteredProducts(products, query, normalize)
        <==> p in products && (IsBlank(query) || MatchesSearch(p, normalize(query), normalize))
  {
    if !IsBlank(query) {
      FilterMembership(products, SearchTest(normalize(query), normalize), p);
    }
  }

  // ----- the `onSave` callback of the product form -----

  /** `{ ...p, ...data }`: the form's fields over the stored product. The
      stored identity (id, creation time, sku, unit) is kept, every field the
      form carries is taken from it, and saving the same data twice changes
      nothing more. */
  function Merge(p: Product, d: ProductData): (r: Product)
    ensures r.id == p.id && r.createdAt == p.createdAt && r.sku == p.sku && r.unit == p.unit
    ensures r.name == d.name && r.brand == Some(d.brand) && r.category == Some(d.category)
    ensures r.description == d.description && r.imageUrl == d.imageUrl
    ensures r.purchasePrice == d.purchasePrice && r.sellingPrice == d.sellingPrice && r.stock == d.stock
  {
    p.(name := d.name, brand := Some(d.brand), category := Some(d.category),
       description := d.description, purchasePrice := d.purchasePrice,
       sellingPrice := d.sellingPrice, stock := d.stock, imageUrl := d.imageUrl)
  }

  /** Saving the same form data again leaves the product as it is. */
  lemma MergeIdempotent(p: Product, d: ProductData)
    ensures Merge(Merge(p, d), d) == Merge(p, d)
  {
  }

  /** `{ ...data, id, createdAt }`: a new product with the given id and
      creation time, no sku and no unit, and exactly the form's data. */
  function NewProduct(d: ProductData, id: string, createdAt: int): (r: Product)
    ensures r.id == id && r.createdAt == createdAt && r.sku.None? && r.unit.None?
    ensures Merge(r, d) == r
  {
    Product(id, None, d.name, Some(d.brand), d.description, d.purchasePrice,
            d.sellingPrice, d.stock, None, d.imageUrl, createdAt, Some(d.category))
  }

  /** The edit branch: every entry keeps its id and creation time, entries
      with another id are untouched, and the ones with the edited id take the
      form's data. */
  function ApplyEdit(products: seq<Product>, id: string, d: ProductData): (r: seq<Product>)
    ensures |r| == |products|
    ensures forall i :: 0 <= i < |r| ==> r[i].id == products[i].id && r[i].createdAt == products[i].createdAt
    ensures forall i :: 0 <= i < |r| && products[i].id != id ==> r[i] == products[i]
    ensures forall i :: 0 <= i < |r| && products[i].id == id ==>
      && r[i].name == d.name && r[i].stock == d.stock && r[i].imageUrl == d.imageUrl
      && r[i].purchasePrice == d.purchasePrice && r[i].sellingPrice == d.sellingPrice
      && r[i].description == d.description
      && r[i].brand == Some(d.brand) && r[i].category == Some(d.category)
      && r[i].sku == products[i].sku && r[i].unit == products[i].unit
  {
    if products == [] then []
    else
      var p := products[0];
      [if p.id == id then Merge(p, d) else p] + ApplyEdit(products[1..], id, d)
  }

  /** Saving an edit form that was opened on `p` and left untouched gives `p`
      back, except that a missing brand becomes "" and a missing or empty
      category becomes the default one. */
  lemma UntouchedEditKeepsProduct(p: Product)
    requires p.name != "" && p.imageUrl != ""
    ensures Submit(InitialForm(Some(p))).Some?
    ensures Merge(p, Submit(InitialForm(Some(p))).value)
         == p.(brand := Some(p.brand.GetOr("")),
               category := Some(OrElse(p.category.GetOr(""), DefaultCategory)))
  {
    var f := InitialForm(Some(p));
    assert f.brand == p.brand.GetOr("") && f.category == OrElse(p.category.GetOr(""), DefaultCategory);
    assert NumberOrZero(f.newStock) == 0 by {
      ParseNumberRoundTrip(0);
      assert IntToString(0) == "0";
    }
    var d := Submit(f).value;
    assert d.purchasePrice == p.purchasePrice && d.sellingPrice == p.sellingPrice;
    assert d.stock == p.stock;
  }

  /** Saving an edit form opened on `p` with adjustment text `delta` sets the
      stock to `p.stock` plus the number in `delta` (0 when it is not one). */
  lemma EditAdjustsStock(p: Product, delta: string)
    requires p.name != "" && p.imageUrl != ""
    ensures var f := InitialForm(Some(p)).(newStock := delta);
            && Submit(f).Some?
            && Merge(p, Submit(f).value).stock == p.stock + NumberOrZero(delta)
            && (ParseNumber(delta).None? ==> Merge(p, Submit(f).value).stock == p.stock)
  {
  }

  // ----- `soldProductsList` -----

  datatype SoldProduct = SoldProduct(id: string, name: string)

  function ProductIds(sales: seq<Sale>): set<string> {
    set i | 0 <= i < |sales| :: sales[i].productId
  }

  /** The reference definition: ledger order, one entry for each sale whose
      product id has not been met before. */
  function SoldProductsOf(sales: seq<Sale>): seq<SoldProduct> {
    if sales == [] then []
    else
      var init, last := sales[..|sales| - 1], sales[|sales| - 1];
      if last.productId in ProductIds(init) then SoldProductsOf(init)
      else SoldProductsOf(init) + [SoldProduct(last.productId, last.productName)]
  }

  /** Sale `k` is the first one in the ledger with its product id. */
  predicate IsFirstSaleOf(sales: seq<Sale>, k: int) {
    0 <= k < |sales| && forall j :: 0 <= j < k ==> sales[j].productId != sales[k].productId
  }

  function SoldIds(list: seq<SoldProduct>): set<string> {
    set i | 0 <= i < |list| :: list[i].id
  }

  lemma {:induction false} ProductIdsSnoc(sales: seq<Sale>)
    requires sales != []
    ensures ProductIds(sales) == ProductIds(sales[..|sales| - 1]) + {sales[|sales| - 1].productId}
  {
    var init := sales[..|sales| - 1];
    forall id | id in ProductIds(sales) ensures id in ProductIds(init) + {sales[|sales| - 1].productId} {
      var i :| 0 <= i < |sales| && sales[i].productId == id;
      if i < |init| {
        assert init[i] == sales[i];
      }
    }
    forall id | id in ProductIds(init) ensures id in ProductIds(sales) {
      var i :| 0 <= i < |init| && init[i].productId == id;
      assert sales[i] == init[i];
    }
  }

  /** Every product id of the ledger has an entry, and nothing else does. */
  lemma {:induction false} SoldCoversLedger(sales: seq<Sale>)
    ensures SoldIds(SoldProductsOf(sales)) == ProductIds(sales)
    decreases |sales|
  {
    if sales != [] {
      var init, last := sales[..|sales| - 1], sales[|sales| - 1];
      SoldCoversLedger(init);
      ProductIdsSnoc(sales);
      var prev := SoldProductsOf(init);
      if last.productId !in ProductIds(init) {
        var now := prev + [SoldProduct(last.productId, last.productName)];
        forall id | id in SoldIds(now) ensures id in SoldIds(prev) + {last.productId} {
          var i :| 0 <= i < |now| && now[i].id == id;
          if i < |prev| {
            assert now[i] == prev[i];
          }
        }
        forall id | id in SoldIds(prev) ensures id in SoldIds(now) {
          var i :| 0 <= i < |prev| && prev[i].id == id;
          assert now[i] == prev[i];
        }
        assert now[|prev|].id == last.productId;
      }
    }
  }

  /** No product id has two entries. */
  lemma {:induction false} SoldIdsDistinct(sales: seq<Sale>)
    ensures forall i, j :: 0 <= i < j < |SoldProductsOf(sales)| ==>
      SoldProductsOf(sales)[i].id != SoldProductsOf(sales)[j].id
    decreases |sales|
  {
    if sales != [] {
      var init, last := sales[..|sales| - 1], sales[|sales| - 1];
      SoldIdsDistinct(init);
      var prev := SoldProductsOf(init);
      if last.productId !in ProductIds(init) {
        SoldCoversLedger(init);
        var list := prev + [SoldProduct(last.productId, last.productName)];
        assert SoldProductsOf(sales) == list;
        forall i | 0 <= i < |prev| ensures prev[i].id != last.productId {
          assert prev[i].id in SoldIds(prev);
        }
        forall i, j | 0 <= i < j < |list| ensures list[i].id != list[j].id {
          assert list[i] == prev[i];
          if j < |prev| {
            assert list[j] == prev[j];
          }
        }
      } else {
        assert SoldProductsOf(sales) == prev;
      }
    }
  }

  /** A first sale of the ledger without its last sale is a first sale of
      the whole ledger. */
  lemma FirstSaleExtends(sales: seq<Sale>, k: int)
    requires sales != [] && IsFirstSaleOf(sales[..|sales| - 1], k)
    ensures IsFirstSaleOf(sales, k) && sales[k] == sales[..|sales| - 1][k]
  {
    var init := sales[..|sales| - 1];
    forall j | 0 <= j < k ensures sales[j].productId != sales[k].productId {
      assert sales[j] == init[j] && sales[k] == init[k];
    }
  }

  /** The ledger position of the sale that entry `i` comes from. */
  lemma {:induction false} SoldEntryOrigin(sales: seq<Sale>, i: int) returns (k: int)
    requires 0 <= i < |SoldProductsOf(sales)|
    ensures IsFirstSaleOf(sales, k)
    ensures SoldProductsOf(sales)[i] == SoldProduct(sales[k].productId, sales[k].productName)
    decreases |sales|
  {
    assert sales != [];
    var init, last := sales[..|sales| - 1], sales[|sales| - 1];
    var prev := SoldProductsOf(init);
    if i < |prev| {
      assert SoldProductsOf(sales)[i] == prev[i];
      k := SoldEntryOrigin(init, i);
      FirstSaleExtends(sales, k);
    } else {
      assert last.productId !in ProductIds(init);
      assert SoldProductsOf(sales) == prev + [SoldProduct(last.productId, last.productName)];
      k := |sales| - 1;
      forall j | 0 <= j < k ensures sales[j].productId != sales[k].productId {
        assert sales[j] == init[j];
        assert init[j].productId in ProductIds(init);
      }
    }
  }

  /** `e` is made from the first sale of some product in the ledger. */
  predicate FromFirstSale(sales: seq<Sale>, e: SoldProduct) {
    exists k :: 0 <= k < |sales| && IsFirstSaleOf(sales, k) && e == SoldProduct(sales[k].productId, sales[k].productName)
  }

  /** Each entry carries the name of the first sale of its product: the first
      name wins. */
  lemma SoldNamesFromFirstSale(sales: seq<Sale>)
    ensures forall i :: 0 <= i < |SoldProductsOf(sales)| ==> FromFirstSale(sales, SoldProductsOf(sales)[i])
  {
    forall i | 0 <= i < |SoldProductsOf(sales)| ensures FromFirstSale(sales, SoldProductsOf(sales)[i]) {
      var k := SoldEntryOrigin(sales, i);
    }
  }

  /** `soldProductsList`: a `Map` from product id to name filled in ledger
      order, keeping the first name, then read back in insertion order. The
      Map is its key order `order` together with the dictionary `unique`. */
  method SoldProductsList(sales: seq<Sale>) returns (list: seq<SoldProduct>)
    ensures list == SoldProductsOf(sales)
  {
    var order: seq<string> := [];
    var unique: map<string, string> := map[];
    for i := 0 to |sales|
      invariant unique.Keys == ProductIds(sales[..i])
      invariant |order| == |SoldProductsOf(sales[..i])|
      invariant forall k :: 0 <= k < |order| ==>
        order[k] in unique && SoldProductsOf(sales[..i])[k] == SoldProduct(order[k], unique[order[k]])
    {
      var s := sales[i];
      assert sales[..i + 1][..i] == sales[..i];
      ProductIdsSnoc(sales[..i + 1]);
      if s.productId !in unique {
        unique := unique[s.productId := s.productName];
        order := order + [s.productId];
      }
    }
    assert sales[..|sales|] == sales;
    list := [];
    for j := 0 to |order|
      invariant |list| == j
      invariant forall k :: 0 <= k < j ==> list[k] == SoldProduct(order[k], unique[order[k]])
    {
      list := list + [SoldProduct(order[j], unique[order[j]])];
    }
  }
}
