/** The sales service's orders and the per-product view of an order's lines: quantities summed
    per product (the grouping dictionary), its keys in first-appearance order, and the
    consolidated order with one line per product. */
module Orders {

  /** One order line; `unitPrice` is in cents. */
  datatype OrderItem = OrderItem(productId: int, quantity: int, unitPrice: int)

  /** An order; `total` is in cents. */
  datatype Order = Order(id: int, userId: int, total: int, items: seq<OrderItem>)

  /** The product id of every line, in line order. */
  function ProductIds(items: seq<OrderItem>): (ids: seq<int>)
    ensures |ids| == |items|
    ensures forall k :: 0 <= k < |items| ==> ids[k] == items[k].productId
  {
    seq(|items|, k requires 0 <= k < |items| => items[k].productId)
  }

  /** Total quantity of product `p` over all lines (0 when no line names `p`). */
  function SumQuantity(items: seq<OrderItem>, p: int): int
    decreases |items|
  {
    if |items| == 0 then 0
    else
      var last := items[|items| - 1];
      SumQuantity(items[..|items| - 1], p) + (if last.productId == p then last.quantity else 0)
  }

  lemma {:induction false} SumQuantityAppend(a: seq<OrderItem>, b: seq<OrderItem>, p: int)
    ensures SumQuantity(a + b, p) == SumQuantity(a, p) + SumQuantity(b, p)
    decreases |b|
  {
    if |b| == 0 {
      assert a + b == a;
    } else {
      assert (a + b)[..|a + b| - 1] == a + b[..|b| - 1];
      SumQuantityAppend(a, b[..|b| - 1], p);
    }
  }

  /** A product no line names sums to 0. */
  lemma {:induction false} SumQuantityAbsent(items: seq<OrderItem>, p: int)
    requires p !in ProductIds(items)
    ensures SumQuantity(items, p) == 0
    decreases |items|
  {
    if |items| > 0 {
      assert ProductIds(items[..|items| - 1]) == ProductIds(items)[..|items| - 1];
      SumQuantityAbsent(items[..|items| - 1], p);
    }
  }

  /** In a list where `p` has exactly one line, its sum is that line's quantity. */
  lemma {:induction false} SumQuantitySingle(items: seq<OrderItem>, p: int, k: nat)
    requires k < |items| && items[k].productId == p
    requires forall j :: 0 <= j < |items| && j != k ==> items[j].productId != p
    ensures SumQuantity(items, p) == items[k].quantity
    decreases |items|
  {
    var n := |items| - 1;
    if k < n {
      SumQuantitySingle(items[..n], p, k);
    } else {
      assert p !in ProductIds(items[..n]);
      SumQuantityAbsent(items[..n], p);
    }
  }

  /** Reordering the lines does not change any product's sum. */
  lemma {:induction false} SumQuantityPermutation(a: seq<OrderItem>, b: seq<OrderItem>, p: int)
    requires multiset(a) == multiset(b)
    ensures SumQuantity(a, p) == SumQuantity(b, p)
    decreases |a|
  {
    if |a| == 0 {
      assert |b| == |multiset(b)| == 0;
    } else {
      var n := |a| - 1;
      var x := a[n];
      assert a == a[..n] + [x];
      assert x in multiset(b);
      var i :| 0 <= i < |b| && b[i] == x;
      assert b == b[..i] + [x] + b[i + 1..];
      var rest := b[..i] + b[i + 1..];
      calc {
        multiset(a[..n]);
        multiset(a) - multiset{x};
        multiset(b) - multiset{x};
        { assert multiset(b) == multiset(b[..i]) + multiset{x} + multiset(b[i + 1..]); }
        multiset(rest);
      }
      SumQuantityPermutation(a[..n], rest, p);
      SumQuantityAppend(b[..i] + [x], b[i + 1..], p);
      SumQuantityAppend(b[..i], [x], p);
      SumQuantityAppend(b[..i], b[i + 1..], p);
      assert [x][..0] == [];
    }
  }

  predicate NoDuplicates(s: seq<int>)
  {
    forall i, j :: 0 <= i < j < |s| ==> s[i] != s[j]
  }

  /** A non-empty sequence has a member: its first element. */
  lemma FirstIsMember(s: seq<int>)
    ensures s == [] || s[0] in s
  {
  }

  /** The distinct elements of `s`, each at its first appearance. */
  function Distinct(s: seq<int>): (r: seq<int>)
    ensures forall x :: x in r <==> x in s
    ensures NoDuplicates(r)
    ensures NoDuplicates(s) ==> r == s
    ensures |r| <= |s|
    decreases |s|
  {
    if |s| == 0 then []
    else
      var d := Distinct(s[..|s| - 1]);
      var x := s[|s| - 1];
      assert s == s[..|s| - 1] + [x];
      if x in d then d else d + [x]
  }

  /** The enumeration order of the grouping dictionary: each product at its first line. */
  function KeyOrder(items: seq<OrderItem>): (ks: seq<int>)
    ensures NoDuplicates(ks)
    ensures forall p :: p in ks <==> p in ProductIds(items)
    ensures |ks| <= |items|
  {
    Distinct(ProductIds(items))
  }

  /** The dictionary lookup that falls back to 0 for a missing key. */
  function QuantityOf(m: map<int, int>, p: int): int
  {
    if p in m then m[p] else 0
  }

  /** The lines grouped by product with their quantities summed: one entry per product the
      lines name, holding that product's total. */
  function GroupByProduct(items: seq<OrderItem>): (m: map<int, int>)
    ensures forall p :: p in m <==> p in ProductIds(items)
    ensures forall p :: QuantityOf(m, p) == SumQuantity(items, p)
    decreases |items|
  {
    if |items| == 0 then map[]
    else
      var n := |items| - 1;
      assert ProductIds(items) == ProductIds(items[..n]) + [items[n].productId];
      var m := GroupByProduct(items[..n]);
      m[items[n].productId := QuantityOf(m, items[n].productId) + items[n].quantity]
  }

  /** The unit price of the first line for product `p`. */
  function FirstPrice(items: seq<OrderItem>, p: int): int
    requires p in ProductIds(items)
    decreases |items|
  {
    if items[0].productId == p then items[0].unitPrice
    else
      assert ProductIds(items) == [items[0].productId] + ProductIds(items[1..]);
      FirstPrice(items[1..], p)
  }

  /** FirstPrice finds the line where `p` first appears. */
  lemma {:induction false} FirstPriceAt(items: seq<OrderItem>, p: int, k: nat)
    requires k < |items| && items[k].productId == p
    requires forall j :: 0 <= j < k ==> items[j].productId != p
    ensures p in ProductIds(items) && FirstPrice(items, p) == items[k].unitPrice
    decreases k
  {
    assert ProductIds(items)[k] == p;
    if k > 0 {
      assert items[1..][k - 1] == items[k];
      FirstPriceAt(items[1..], p, k - 1);
    }
  }

  /** The order rewritten with one line per product, in first-appearance order, carrying the
      product's summed quantity and the unit price of its first line. */
  function Consolidated(items: seq<OrderItem>): (r: seq<OrderItem>)
    ensures |r| <= |items|
    ensures NoDuplicates(ProductIds(r))
    ensures forall p :: p in ProductIds(r) <==> p in ProductIds(items)
  {
    var ks := KeyOrder(items);
    var lines := seq(|ks|, k requires 0 <= k < |ks| => OrderItem(ks[k], SumQuantity(items, ks[k]), FirstPrice(items, ks[k])));
    assert ProductIds(lines) == ks;
    lines
  }

  /** The consolidated order has exactly one line per product of the original, and each line
      holds that product's summed quantity and first unit price; so every product's sum
      is unchanged. */
  lemma ConsolidatedLines(items: seq<OrderItem>)
    ensures var c := Consolidated(items);
            && ProductIds(c) == KeyOrder(items)
            && NoDuplicates(ProductIds(c))
            && (forall p :: p in ProductIds(c) <==> p in ProductIds(items))
            && (forall k :: 0 <= k < |c| ==>
                  c[k].quantity == SumQuantity(items, c[k].productId)
                  && c[k].unitPrice == FirstPrice(items, c[k].productId))
            && (forall p :: SumQuantity(c, p) == SumQuantity(items, p))
  {
    var c := Consolidated(items);
    var ks := KeyOrder(items);
    assert ProductIds(c) == ks;
    forall p
      ensures SumQuantity(c, p) == SumQuantity(items, p)
    {
      if p in ks {
        var k :| 0 <= k < |ks| && ks[k] == p;
        SumQuantitySingle(c, p, k);
      } else {
        SumQuantityAbsent(c, p);
        SumQuantityAbsent(items, p);
      }
    }
  }

  /** Consolidating twice is consolidating once. */
  lemma ConsolidatedIdempotent(items: seq<OrderItem>)
    ensures Consolidated(Consolidated(items)) == Consolidated(items)
  {
    var c := Consolidated(items);
    ConsolidatedLines(items);
    ConsolidatedLines(c);
    var cc := Consolidated(c);
    assert KeyOrder(c) == KeyOrder(items);
    assert |cc| == |c|;
    forall k | 0 <= k < |c|
      ensures cc[k] == c[k]
    {
      var p := c[k].productId;
      forall j | 0 <= j < k
        ensures c[j].productId != p
      {
        assert ProductIds(c)[j] != ProductIds(c)[k];
      }
      FirstPriceAt(c, p, k);
    }
  }
}
