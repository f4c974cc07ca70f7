/** How the two services' views of stock fit together: the messages the sales service
    publishes, once delivered and handled by the stock consumer, take each product's stock
    from its level before the order to that level minus the order's current quantities. */
module Reconciliation {
  import opened Common
  import opened Orders
  import opened StockMessages
  import opened Inventory
  import opened StockUpdates
  import opened StockConsumer
  import opened DeltaCalculator
  import opened SalesApi

  /** The stock service answers the sales service from this product table. */
  ghost predicate Reflects(snapshot: StockSnapshot, products: Products)
  {
    && snapshot.Keys == products.Keys
    && forall p :: p in snapshot ==> snapshot[p].quantityInStock == products[p].quantityInStock
  }

  /** Every stock level in the table is non-negative. */
  ghost predicate NonNegativeStock(products: Products)
  {
    forall p :: p in products ==> products[p].quantityInStock >= 0
  }

  /** What a message does to the product table once the consumer has handled it. */
  function ApplyMessage(products: Products, m: StockMessage): Products
  {
    match m
    case Creation(c) => ApplyCreation(products, c.items)
    case Adjustment(a) => ApplyAdjustment(products, a.deltas)
  }

  /** A delivery that carries the text of message `m` and decodes back to it. */
  ghost predicate Carries(d: Delivery, m: StockMessage)
  {
    && d.body == Json(m)
    && match m
       case Creation(c) => d.asCreation == Some(c)
       case Adjustment(a) => d.asAdjustment == Some(a)
  }

  /** The creation message asks of each product exactly the order's summed quantity. */
  lemma {:induction false} CreationItemsSum(items: seq<OrderItem>, p: int)
    ensures SumCreation(CreationItemsOf(items), p) == SumQuantity(items, p)
    decreases |items|
  {
    if |items| > 0 {
      var n := |items| - 1;
      assert CreationItemsOf(items)[..n] == CreationItemsOf(items[..n]);
      CreationItemsSum(items[..n], p);
    }
  }

  /** The consumer's text test routes every published message to the handler of its own kind. */
  lemma PublishedMessageHandled(products: Products, d: Delivery, m: StockMessage)
    requires Carries(d, m)
    ensures HandleDelivery(products, d) == ApplyMessage(products, m)
  {
    JsonClassification(m);
  }

  /** One product through an order's life: created with `original`, edited to `updated`, both
      messages handled in order. If the stock covered the original quantities, the product
      ends at its initial stock minus the updated quantities. */
  lemma OrderLifecycleForProduct(s0: Products, original: seq<OrderItem>, updated: seq<OrderItem>, p: int)
    requires p in s0
    requires forall k :: 0 <= k < |original| ==> original[k].quantity >= 0
    requires s0[p].quantityInStock >= SumQuantity(original, p)
    ensures var s1 := ApplyCreation(s0, CreationItemsOf(original));
            var s2 := ApplyAdjustment(s1, EditDeltas(original, updated));
            s2[p].quantityInStock == s0[p].quantityInStock - SumQuantity(updated, p)
  {
    var creation := CreationItemsOf(original);
    CreationItemsSum(original, p);
    CreationPerProduct(s0, creation, p);
    CreationFoldSufficient(s0[p].quantityInStock, creation, p);
    EditDeltasSum(original, updated, p);
  }

  /** The whole table through an order's life: the catalogue is untouched, and every product's
      stock ends at its initial level minus the updated order's quantity. */
  lemma OrderLifecycle(s0: Products, original: seq<OrderItem>, updated: seq<OrderItem>)
    requires forall k :: 0 <= k < |original| ==> original[k].quantity >= 0
    requires forall p :: p in s0 ==> s0[p].quantityInStock >= SumQuantity(original, p)
    ensures var s2 := ApplyMessage(ApplyMessage(s0, Creation(CreationMessage(0, CreationItemsOf(original)))),
                                   Adjustment(AdjustmentMessage(0, EditDeltas(original, updated))));
            && SameCatalogue(s0, s2)
            && forall p :: p in s0 ==> s2[p].quantityInStock == s0[p].quantityInStock - SumQuantity(updated, p)
  {
    forall p | p in s0
      ensures ApplyAdjustment(ApplyCreation(s0, CreationItemsOf(original)), EditDeltas(original, updated))[p].quantityInStock
           == s0[p].quantityInStock - SumQuantity(updated, p)
    {
      OrderLifecycleForProduct(s0, original, updated, p);
    }
  }

  /** A validated order with one line per product never asks more of a product than the
      table holds. */
  lemma ValidatedLinesFit(s0: Products, items: seq<OrderItem>, snapshot: StockSnapshot, p: int)
    requires Reflects(snapshot, s0) && NonNegativeStock(s0) && p in s0
    requires NoDuplicates(ProductIds(items))
    requires FirstLineRejection(items, snapshot).None?
    ensures SumQuantity(items, p) <= s0[p].quantityInStock
  {
    if p in ProductIds(items) {
      var k :| 0 <= k < |items| && ProductIds(items)[k] == p;
      forall j | 0 <= j < |items| && j != k
        ensures items[j].productId != p
      {
        assert ProductIds(items)[j] != ProductIds(items)[k];
      }
      SumQuantitySingle(items, p, k);
    } else {
      SumQuantityAbsent(items, p);
    }
  }

  /** A creation that passed validation against the current table, with one line per product
      and no negative quantity, subtracts every line in full. */
  lemma ValidatedCreationSubtractsAll(s0: Products, items: seq<OrderItem>, snapshot: StockSnapshot)
    requires Reflects(snapshot, s0) && NonNegativeStock(s0)
    requires NoDuplicates(ProductIds(items))
    requires forall k :: 0 <= k < |items| ==> items[k].quantity >= 0
    requires FirstLineRejection(items, snapshot).None?
    ensures forall p :: p in s0 ==>
              ApplyCreation(s0, CreationItemsOf(items))[p].quantityInStock
                == s0[p].quantityInStock - SumQuantity(items, p)
  {
    var creation := CreationItemsOf(items);
    forall p | p in s0
      ensures ApplyCreation(s0, creation)[p].quantityInStock == s0[p].quantityInStock - SumQuantity(items, p)
    {
      ValidatedLinesFit(s0, items, snapshot, p);
      CreationItemsSum(items, p);
      CreationPerProduct(s0, creation, p);
      CreationFoldSufficient(s0[p].quantityInStock, creation, p);
    }
  }

  /** An adjustment that names each product at most once and passed validation against the
      current table leaves no stock negative. */
  lemma ValidatedAdjustmentKeepsStock(s1: Products, deltas: seq<DeltaItem>, snapshot: StockSnapshot)
    requires Reflects(snapshot, s1) && NonNegativeStock(s1)
    requires NoDuplicates(DeltaIds(deltas))
    requires FirstDeltaRejection(deltas, snapshot).None?
    ensures NonNegativeStock(ApplyAdjustment(s1, deltas))
  {
    forall p | p in s1
      ensures ApplyAdjustment(s1, deltas)[p].quantityInStock >= 0
    {
      if k :| 0 <= k < |deltas| && deltas[k].productId == p {
        forall j | 0 <= j < |deltas| && j != k
          ensures deltas[j].productId != p
        {
          assert DeltaIds(deltas)[j] != DeltaIds(deltas)[k];
        }
        SumDeltasSingle(deltas, p, k);
      } else {
        SumDeltasUnnamed(deltas, p);
      }
    }
  }

  /** An edit validated against the current table leaves no stock negative once its change
      message is handled. */
  lemma ValidatedEditKeepsStock(s1: Products, original: seq<OrderItem>, updated: seq<OrderItem>, snapshot: StockSnapshot)
    requires Reflects(snapshot, s1) && NonNegativeStock(s1)
    requires FirstDeltaRejection(EditDeltas(original, updated), snapshot).None?
    ensures NonNegativeStock(ApplyAdjustment(s1, EditDeltas(original, updated)))
  {
    ValidatedAdjustmentKeepsStock(s1, EditDeltas(original, updated), snapshot);
  }

  // ---------------------------------------------------------------------------
  // Worked cases
  // ---------------------------------------------------------------------------

  const Pen: Product := Product(7, "Caneta", "Caneta azul", 250, 10)

  /** Creating an order for 3 of a product with stock 10 leaves 7. */
  lemma CreationScenario()
    ensures ApplyCreation(map[7 := Pen], CreationItemsOf([OrderItem(7, 3, 250)]))[7].quantityInStock == 7
  {
    var items := CreationItemsOf([OrderItem(7, 3, 250)]);
    assert items[..0] == [];
  }

  /** Raising a line from 3 to 5 gives the single change +2, which takes 2 more from stock. */
  lemma RaiseScenario(s1: Products, p: int, price: int)
    requires p in s1
    ensures EditDeltas([OrderItem(p, 3, price)], [OrderItem(p, 5, price)]) == [DeltaItem(p, 2)]
    ensures ApplyAdjustment(s1, [DeltaItem(p, 2)])[p].quantityInStock == s1[p].quantityInStock - 2
  {
    SingleLineEditChanged([OrderItem(p, 3, price)], [OrderItem(p, 5, price)]);
    assert [DeltaItem(p, 2)][..0] == [];
  }

  /** Lowering a line from 5 to 2 gives the single change -3, which returns 3 to stock. */
  lemma LowerScenario(s1: Products, p: int, price: int)
    requires p in s1
    ensures EditDeltas([OrderItem(p, 5, price)], [OrderItem(p, 2, price)]) == [DeltaItem(p, -3)]
    ensures ApplyAdjustment(s1, [DeltaItem(p, -3)])[p].quantityInStock == s1[p].quantityInStock + 3
  {
    SingleLineEditChanged([OrderItem(p, 5, price)], [OrderItem(p, 2, price)]);
    assert [DeltaItem(p, -3)][..0] == [];
  }

  /** A list without duplicates whose entries all equal `p` has at most one entry. */
  lemma AtMostOneOf(s: seq<int>, p: int)
    requires NoDuplicates(s)
    requires forall i :: 0 <= i < |s| ==> s[i] == p
    ensures |s| <= 1
  {
    if |s| > 1 {
      FirstTwoDiffer(s);
      assert false;
    }
  }

  /** A list without duplicates starts with two different entries. */
  lemma FirstTwoDiffer(s: seq<int>)
    requires NoDuplicates(s) && |s| > 1
    ensures s[0] != s[1]
  {
  }

  /** A one-line order asks its quantity of its own product and nothing of any other. */
  lemma OneLineSums(line: seq<OrderItem>)
    requires |line| == 1
    ensures forall q :: SumQuantity(line, q) == if q == line[0].productId then line[0].quantity else 0
  {
    assert line[..0] == [];
  }

  /** Two one-line orders of the same product differ in that product's sum only. */
  lemma OneLineSumsAgree(original: seq<OrderItem>, updated: seq<OrderItem>)
    requires |original| == 1 && |updated| == 1
    requires original[0].productId == updated[0].productId
    ensures SumQuantity(updated, updated[0].productId) - SumQuantity(original, updated[0].productId)
            == updated[0].quantity - original[0].quantity
    ensures forall q :: q != updated[0].productId ==> SumQuantity(updated, q) == SumQuantity(original, q)
  {
    OneLineSums(original);
    OneLineSums(updated);
  }

  /** Editing one line of a product into another line of the same product gives the change
      of its quantity alone, or nothing when the quantity is the same. */
  lemma SingleLineEditSame(original: seq<OrderItem>, updated: seq<OrderItem>)
    requires |original| == 1 && |updated| == 1
    requires original[0].productId == updated[0].productId
    requires updated[0].quantity == original[0].quantity
    ensures EditDeltas(original, updated) == []
  {
    OneLineSums(original);
    OneLineSums(updated);
    EqualSumsGiveNoDeltas(original, updated);
  }

  lemma SingleLineEditChanged(original: seq<OrderItem>, updated: seq<OrderItem>)
    requires |original| == 1 && |updated| == 1
    requires original[0].productId == updated[0].productId
    requires updated[0].quantity != original[0].quantity
    ensures EditDeltas(original, updated) == [DeltaItem(original[0].productId, updated[0].quantity - original[0].quantity)]
  {
    var p := original[0].productId;
    var delta := updated[0].quantity - original[0].quantity;
    OneLineSumsAgree(original, updated);
    OneProductChanged(original, updated, p, delta);
  }

  /** An edit that changes the summed quantity of one product only lists that change alone. */
  lemma OneProductChanged(original: seq<OrderItem>, updated: seq<OrderItem>, p: int, delta: int)
    requires delta == SumQuantity(updated, p) - SumQuantity(original, p) != 0
    requires forall q :: q != p ==> SumQuantity(updated, q) == SumQuantity(original, q)
    ensures EditDeltas(original, updated) == [DeltaItem(p, delta)]
  {
    var d := EditDeltas(original, updated);
    assert p in DeltaIds(d);
    forall i | 0 <= i < |d|
      ensures DeltaIds(d)[i] == p
    {
      assert DeltaIds(d)[i] in DeltaIds(d);
    }
    AtMostOneOf(DeltaIds(d), p);
    assert DeltaIds(d)[0] == p;
    assert d == [d[0]];
  }

  /** A message naming an unknown product and a known one: the unknown line is skipped and
      the known one still applies. */
  lemma UnknownProductScenario()
    ensures var after := ApplyCreation(map[7 := Pen], [CreationItem(99, 1), CreationItem(7, 2)]);
            && after.Keys == {7}
            && after[7].quantityInStock == 8
  {
    var items := [CreationItem(99, 1), CreationItem(7, 2)];
    assert items[..1] == [CreationItem(99, 1)];
    assert items[..1][..0] == [];
  }

  /** Two lines for the same product each pass validation alone, yet together ask for more
      than the stock; the consumer then takes the first and skips the second. */
  lemma DuplicateLinesScenario()
    ensures var snapshot := map[7 := ProductDto(7, "Caneta", 250, 5)];
            var items := [OrderItem(7, 3, 250), OrderItem(7, 3, 250)];
            && FirstLineRejection(items, snapshot).None?
            && SumQuantity(items, 7) == 6
            && ApplyCreation(map[7 := Pen.(quantityInStock := 5)], CreationItemsOf(items))[7].quantityInStock == 2
  {
    var items := [OrderItem(7, 3, 250), OrderItem(7, 3, 250)];
    var creation := CreationItemsOf(items);
    assert items[..1] == [OrderItem(7, 3, 250)] && items[..1][..0] == [];
    assert creation[..1] == [CreationItem(7, 3)] && creation[..1][..0] == [];
  }

  /** A negative creation quantity passes the stock test and raises the stock; an adjustment
      larger than the stock drives it below zero. */
  lemma NoGuardScenario()
    ensures ApplyCreation(map[7 := Pen], [CreationItem(7, -4)])[7].quantityInStock == 14
    ensures ApplyAdjustment(map[7 := Pen], [DeltaItem(7, 13)])[7].quantityInStock == -3
  {
    assert [CreationItem(7, -4)][..0] == [];
    assert [DeltaItem(7, 13)][..0] == [];
  }
}
