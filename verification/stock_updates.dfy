/** What the stock consumer does to the product table: the creation write-off (subtract a
    quantity only when the product exists and has enough stock) and the adjustment (subtract a
    signed delta from an existing product, with no floor), each applied item after item. */
module StockUpdates {
  import opened StockMessages
  import opened Inventory

  // ---------------------------------------------------------------------------
  // Creation messages
  // ---------------------------------------------------------------------------

  /** One creation item: subtract only when the product exists and has at least that much. */
  function ApplyCreationItem(products: Products, item: CreationItem): (r: Products)
    ensures SameCatalogue(products, r)
    ensures forall q :: q in products && q != item.productId ==> r[q] == products[q]
    ensures item.productId in products ==>
              r[item.productId].quantityInStock
                == if products[item.productId].quantityInStock >= item.quantity
                   then products[item.productId].quantityInStock - item.quantity
                   else products[item.productId].quantityInStock
  {
    var p := item.productId;
    if p in products && products[p].quantityInStock >= item.quantity
    then SetStock(products, p, products[p].quantityInStock - item.quantity)
    else products
  }

  /** The items of a creation message applied one after another; each item sees the stock
      left by the items before it. */
  function ApplyCreation(products: Products, items: seq<CreationItem>): (r: Products)
    ensures SameCatalogue(products, r)
    ensures forall p :: p in products && p !in CreationIds(items) ==> r[p] == products[p]
    ensures forall p :: p in products && products[p].quantityInStock >= 0 ==> r[p].quantityInStock >= 0
    decreases |items|
  {
    if |items| == 0 then products
    else ApplyCreationItem(ApplyCreation(products, items[..|items| - 1]), items[|items| - 1])
  }

  /** The product ids a creation message names. */
  function CreationIds(items: seq<CreationItem>): (ids: set<int>)
    ensures forall k :: 0 <= k < |items| ==> items[k].productId in ids
    ensures forall p :: p in ids ==> exists k :: 0 <= k < |items| && items[k].productId == p
  {
    set k | 0 <= k < |items| :: items[k].productId
  }

  /** Total quantity a creation message asks to subtract from product `p`. */
  function SumCreation(items: seq<CreationItem>, p: int): int
    decreases |items|
  {
    if |items| == 0 then 0
    else
      var last := items[|items| - 1];
      SumCreation(items[..|items| - 1], p) + (if last.productId == p then last.quantity else 0)
  }

  /** The stock of one product `p`, starting from `stock`, as the creation items change it. */
  function CreationFold(stock: int, items: seq<CreationItem>, p: int): (r: int)
    ensures stock >= 0 ==> r >= 0
    ensures (forall k :: 0 <= k < |items| ==> items[k].quantity >= 0) ==> r <= stock
    decreases |items|
  {
    if |items| == 0 then stock
    else
      var before := CreationFold(stock, items[..|items| - 1], p);
      var last := items[|items| - 1];
      if last.productId == p && before >= last.quantity then before - last.quantity else before
  }

  /** Products do not interact: the stock of `p` after a creation message depends only on
      its own stock before and on the items that name it. */
  lemma {:induction false} CreationPerProduct(products: Products, items: seq<CreationItem>, p: int)
    requires p in products
    ensures ApplyCreation(products, items)[p].quantityInStock
         == CreationFold(products[p].quantityInStock, items, p)
    decreases |items|
  {
    if |items| > 0 {
      CreationPerProduct(products, items[..|items| - 1], p);
    }
  }

  /** When the stock covers everything asked of `p` and no quantity is negative,
      every item for `p` succeeds and the stock drops by exactly their sum. */
  lemma {:induction false} CreationFoldSufficient(stock: int, items: seq<CreationItem>, p: int)
    requires forall k :: 0 <= k < |items| && items[k].productId == p ==> items[k].quantity >= 0
    requires stock >= SumCreation(items, p)
    ensures CreationFold(stock, items, p) == stock - SumCreation(items, p)
    decreases |items|
  {
    if |items| > 0 {
      CreationFoldSufficient(stock, items[..|items| - 1], p);
    }
  }

  /** With no negative quantity, a creation message never raises any product's stock. */
  lemma CreationNeverIncreases(products: Products, items: seq<CreationItem>)
    requires forall k :: 0 <= k < |items| ==> items[k].quantity >= 0
    ensures forall p :: p in products ==>
              ApplyCreation(products, items)[p].quantityInStock <= products[p].quantityInStock
  {
    forall p | p in products
      ensures ApplyCreation(products, items)[p].quantityInStock <= products[p].quantityInStock
    {
      CreationPerProduct(products, items, p);
    }
  }

  /** Applying a message in two parts is applying it whole. */
  lemma {:induction false} ApplyCreationAppend(products: Products, a: seq<CreationItem>, b: seq<CreationItem>)
    ensures ApplyCreation(products, a + b) == ApplyCreation(ApplyCreation(products, a), b)
    decreases |b|
  {
    if |b| == 0 {
      assert a + b == a;
    } else {
      assert (a + b)[..|a + b| - 1] == a + b[..|b| - 1];
      ApplyCreationAppend(products, a, b[..|b| - 1]);
    }
  }

  /** Per-item isolation: an item that fails (unknown product or too little stock at its turn)
      changes nothing, and the later items are applied exactly as if it were absent. */
  lemma CreationSkipsFailedItem(products: Products, a: seq<CreationItem>, x: CreationItem, b: seq<CreationItem>)
    requires var s := ApplyCreation(products, a);
             x.productId !in s || s[x.productId].quantityInStock < x.quantity
    ensures ApplyCreation(products, a + [x]) == ApplyCreation(products, a)
    ensures ApplyCreation(products, a + [x] + b) == ApplyCreation(products, a + b)
  {
    assert (a + [x])[..|a + [x]| - 1] == a;
    ApplyCreationAppend(products, a + [x], b);
    ApplyCreationAppend(products, a, b);
  }

  // ---------------------------------------------------------------------------
  // Adjustment messages
  // ---------------------------------------------------------------------------

  /** One adjustment item: an existing product loses `quantityDelta` (gains it when negative),
      with no floor at zero; an unknown product is skipped. */
  function ApplyDeltaItem(products: Products, item: DeltaItem): (r: Products)
    ensures SameCatalogue(products, r)
    ensures forall q :: q in products && q != item.productId ==> r[q] == products[q]
    ensures item.productId in products ==>
              r[item.productId].quantityInStock == products[item.productId].quantityInStock - item.quantityDelta
    ensures item.productId !in products ==> r == products
  {
    var p := item.productId;
    if p in products
    then SetStock(products, p, products[p].quantityInStock - item.quantityDelta)
    else products
  }

  /** Net signed change an adjustment message asks of product `p`. */
  function SumDeltas(deltas: seq<DeltaItem>, p: int): int
    decreases |deltas|
  {
    if |deltas| == 0 then 0
    else
      var last := deltas[|deltas| - 1];
      SumDeltas(deltas[..|deltas| - 1], p) + (if last.productId == p then last.quantityDelta else 0)
  }

  /** The items of an adjustment message applied one after another. Every existing product
      ends with its stock minus the deltas that name it; nothing else changes. */
  function ApplyAdjustment(products: Products, deltas: seq<DeltaItem>): (r: Products)
    ensures SameCatalogue(products, r)
    ensures forall p :: p in products ==>
              r[p].quantityInStock == products[p].quantityInStock - SumDeltas(deltas, p)
    decreases |deltas|
  {
    if |deltas| == 0 then products
    else ApplyDeltaItem(ApplyAdjustment(products, deltas[..|deltas| - 1]), deltas[|deltas| - 1])
  }

  /** A delta for a product that does not exist changes nothing at all. */
  lemma AdjustmentOfUnknownProduct(products: Products, deltas: seq<DeltaItem>, x: DeltaItem)
    requires x.productId !in products
    ensures ApplyAdjustment(products, deltas + [x]) == ApplyAdjustment(products, deltas)
  {
    assert (deltas + [x])[..|deltas + [x]| - 1] == deltas;
  }

  /** A product no delta names keeps its stock. */
  lemma SumDeltasUnnamed(deltas: seq<DeltaItem>, p: int)
    requires forall k :: 0 <= k < |deltas| ==> deltas[k].productId != p
    ensures SumDeltas(deltas, p) == 0
  {
  }

  /** The sum of the deltas for `p` in a list where `p` appears at most once. */
  lemma {:induction false} SumDeltasSingle(deltas: seq<DeltaItem>, p: int, k: nat)
    requires k < |deltas| && deltas[k].productId == p
    requires forall j :: 0 <= j < |deltas| && j != k ==> deltas[j].productId != p
    ensures SumDeltas(deltas, p) == deltas[k].quantityDelta
    decreases |deltas|
  {
    var n := |deltas| - 1;
    if k < n {
      SumDeltasSingle(deltas[..n], p, k);
    } else {
      SumDeltasUnnamed(deltas[..n], p);
    }
  }
}
