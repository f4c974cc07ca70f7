/** The per-product quantity changes of an order edit: for every product named before or after
    the edit, the new summed quantity minus the old one (a missing side counts as 0), keeping
    only the non-zero changes. */
module DeltaCalculator {
  import opened Orders
  import opened StockMessages
  import opened StockUpdates

  /** The product ids of a change list, in order. */
  function DeltaIds(deltas: seq<DeltaItem>): (ids: seq<int>)
    ensures |ids| == |deltas|
    ensures forall k :: 0 <= k < |deltas| ==> ids[k] == deltas[k].productId
  {
    seq(|deltas|, k requires 0 <= k < |deltas| => deltas[k].productId)
  }

  /** The union of the two dictionaries' keys: the old order's products first, then the
      products only the new order names, each once. */
  function UnionIds(original: seq<OrderItem>, updated: seq<OrderItem>): (ids: seq<int>)
    ensures NoDuplicates(ids)
    ensures forall p :: p in ids <==> p in ProductIds(original) || p in ProductIds(updated)
  {
    Distinct(KeyOrder(original) + KeyOrder(updated))
  }

  /** The non-zero changes over `ids`, in the order of `ids`. */
  function DeltaList(original: map<int, int>, updated: map<int, int>, ids: seq<int>): seq<DeltaItem>
    decreases |ids|
  {
    if |ids| == 0 then []
    else
      var n := |ids| - 1;
      var p := ids[n];
      var delta := QuantityOf(updated, p) - QuantityOf(original, p);
      var prefix := DeltaList(original, updated, ids[..n]);
      if delta != 0 then prefix + [DeltaItem(p, delta)] else prefix
  }

  /** Every entry of `r` is a product of `ids` with its new quantity minus its old one, and
      is non-zero. */
  predicate EntriesAreChanges(original: map<int, int>, updated: map<int, int>, ids: seq<int>, r: seq<DeltaItem>)
  {
    forall k :: 0 <= k < |r| ==>
      && r[k].productId in ids
      && r[k].quantityDelta == QuantityOf(updated, r[k].productId) - QuantityOf(original, r[k].productId)
      && r[k].quantityDelta != 0
  }

  /** The change list's entries are changes of listed products. */
  lemma {:induction false} DeltaListEntries(original: map<int, int>, updated: map<int, int>, ids: seq<int>)
    ensures EntriesAreChanges(original, updated, ids, DeltaList(original, updated, ids))
    decreases |ids|
  {
    if |ids| > 0 {
      var n := |ids| - 1;
      var p := ids[n];
      var delta := QuantityOf(updated, p) - QuantityOf(original, p);
      var prefix := DeltaList(original, updated, ids[..n]);
      var r := DeltaList(original, updated, ids);
      DeltaListEntries(original, updated, ids[..n]);
      assert forall x :: x in ids[..n] ==> x in ids;
      if delta != 0 {
        assert r == prefix + [DeltaItem(p, delta)];
        forall k | 0 <= k < |r|
          ensures r[k].productId in ids
          ensures r[k].quantityDelta == QuantityOf(updated, r[k].productId) - QuantityOf(original, r[k].productId)
          ensures r[k].quantityDelta != 0
        {
          if k < |prefix| {
            assert r[k] == prefix[k];
          } else {
            assert r[k] == DeltaItem(p, delta);
          }
        }
      } else {
        assert r == prefix;
      }
    }
  }

  /** Every listed product whose quantity differs has an entry. */
  lemma {:induction false} DeltaListComplete(original: map<int, int>, updated: map<int, int>, ids: seq<int>)
    ensures forall p :: p in ids && QuantityOf(updated, p) != QuantityOf(original, p) ==>
              p in DeltaIds(DeltaList(original, updated, ids))
    decreases |ids|
  {
    if |ids| > 0 {
      var n := |ids| - 1;
      var p := ids[n];
      var delta := QuantityOf(updated, p) - QuantityOf(original, p);
      var prefix := DeltaList(original, updated, ids[..n]);
      var r := DeltaList(original, updated, ids);
      DeltaListComplete(original, updated, ids[..n]);
      assert ids == ids[..n] + [p];
      if delta != 0 {
        assert r == prefix + [DeltaItem(p, delta)];
        assert DeltaIds(r) == DeltaIds(prefix) + [p];
      } else {
        assert r == prefix;
      }
    }
  }

  /** Ids without repeats give a change list without repeats. */
  lemma {:induction false} DeltaListNoDuplicates(original: map<int, int>, updated: map<int, int>, ids: seq<int>)
    requires NoDuplicates(ids)
    ensures NoDuplicates(DeltaIds(DeltaList(original, updated, ids)))
    decreases |ids|
  {
    if |ids| > 0 {
      var n := |ids| - 1;
      var p := ids[n];
      var delta := QuantityOf(updated, p) - QuantityOf(original, p);
      var prefix := DeltaList(original, updated, ids[..n]);
      var r := DeltaList(original, updated, ids);
      DeltaListNoDuplicates(original, updated, ids[..n]);
      DeltaListEntries(original, updated, ids[..n]);
      if delta != 0 {
        assert r == prefix + [DeltaItem(p, delta)];
        assert p !in ids[..n];
        forall k | 0 <= k < |prefix|
          ensures DeltaIds(prefix)[k] != p
        {
          assert prefix[k].productId in ids[..n];
        }
        assert DeltaIds(r) == DeltaIds(prefix) + [p];
      } else {
        assert r == prefix;
      }
    }
  }

  /** The loop that builds the change list: one pass over the union of product ids,
      appending every non-zero difference. */
  method ComputeDeltas(original: map<int, int>, updated: map<int, int>, ids: seq<int>)
    returns (deltas: seq<DeltaItem>)
    ensures deltas == DeltaList(original, updated, ids)
  {
    deltas := [];
    var i := 0;
    while i < |ids|
      invariant 0 <= i <= |ids|
      invariant deltas == DeltaList(original, updated, ids[..i])
    {
      var p := ids[i];
      var originalQuantity := QuantityOf(original, p);
      var updatedQuantity := QuantityOf(updated, p);
      var delta := updatedQuantity - originalQuantity;
      assert ids[..i + 1][..i] == ids[..i];
      if delta != 0 {
        deltas := deltas + [DeltaItem(p, delta)];
      }
      i := i + 1;
    }
    assert ids[..i] == ids;
  }

  /** The change list of an edit from `original` lines to `updated` lines. Every entry is the
      difference of the two summed quantities and is non-zero; a product is listed exactly
      when its summed quantity differs; no product is listed twice. */
  function EditDeltas(original: seq<OrderItem>, updated: seq<OrderItem>): (d: seq<DeltaItem>)
    ensures forall k :: 0 <= k < |d| ==>
              d[k].quantityDelta == SumQuantity(updated, d[k].productId) - SumQuantity(original, d[k].productId)
              && d[k].quantityDelta != 0
    ensures forall p :: p in DeltaIds(d) <==> SumQuantity(updated, p) != SumQuantity(original, p)
    ensures NoDuplicates(DeltaIds(d))
  {
    var ids := UnionIds(original, updated);
    var d := DeltaList(GroupByProduct(original), GroupByProduct(updated), ids);
    DeltaListEntries(GroupByProduct(original), GroupByProduct(updated), ids);
    DeltaListComplete(GroupByProduct(original), GroupByProduct(updated), ids);
    DeltaListNoDuplicates(GroupByProduct(original), GroupByProduct(updated), ids);
    assert forall p :: SumQuantity(updated, p) != SumQuantity(original, p) ==> p in ids by {
      forall p | SumQuantity(updated, p) != SumQuantity(original, p)
        ensures p in ids
      {
        if p !in ids {
          SumQuantityAbsent(updated, p);
          SumQuantityAbsent(original, p);
        }
      }
    }
    assert forall p :: p in DeltaIds(d) ==> SumQuantity(updated, p) != SumQuantity(original, p) by {
      forall p | p in DeltaIds(d)
        ensures SumQuantity(updated, p) != SumQuantity(original, p)
      {
        var k :| 0 <= k < |d| && DeltaIds(d)[k] == p;
      }
    }
    d
  }

  /** The net change an edit's list asks of a product is its difference of sums. */
  lemma EditDeltasSum(original: seq<OrderItem>, updated: seq<OrderItem>, p: int)
    ensures SumDeltas(EditDeltas(original, updated), p) == SumQuantity(updated, p) - SumQuantity(original, p)
  {
    var d := EditDeltas(original, updated);
    if p in DeltaIds(d) {
      var k :| 0 <= k < |d| && DeltaIds(d)[k] == p;
      forall j | 0 <= j < |d| && j != k
        ensures d[j].productId != p
      {
        assert DeltaIds(d)[j] != DeltaIds(d)[k];
      }
      SumDeltasSingle(d, p, k);
    } else {
      SumDeltasUnnamed(d, p);
    }
  }

  /** Item lists with the same per-product sums give no changes at all. */
  lemma EqualSumsGiveNoDeltas(original: seq<OrderItem>, updated: seq<OrderItem>)
    requires forall p :: SumQuantity(original, p) == SumQuantity(updated, p)
    ensures EditDeltas(original, updated) == []
  {
    var d := EditDeltas(original, updated);
    FirstIsMember(DeltaIds(d));
  }

  /** Resubmitting the same lines in another order gives no changes. */
  lemma ReorderedLinesGiveNoDeltas(original: seq<OrderItem>, updated: seq<OrderItem>)
    requires multiset(original) == multiset(updated)
    ensures EditDeltas(original, updated) == []
  {
    forall p
      ensures SumQuantity(original, p) == SumQuantity(updated, p)
    {
      SumQuantityPermutation(original, updated, p);
    }
    EqualSumsGiveNoDeltas(original, updated);
  }

  /** Splitting one line into two lines of the same product gives no changes. */
  lemma SplitLineGivesNoDeltas(before: seq<OrderItem>, line: OrderItem, after: seq<OrderItem>, first: int)
    ensures var second := line.(quantity := line.quantity - first);
            EditDeltas(before + [line] + after,
                       before + [line.(quantity := first), second] + after) == []
  {
    var second := line.(quantity := line.quantity - first);
    var original := before + [line] + after;
    var updated := before + [line.(quantity := first), second] + after;
    forall p
      ensures SumQuantity(original, p) == SumQuantity(updated, p)
    {
      SumQuantityAppend(before + [line], after, p);
      SumQuantityAppend(before, [line], p);
      SumQuantityAppend(before + [line.(quantity := first), second], after, p);
      SumQuantityAppend(before, [line.(quantity := first), second], p);
      assert [line][..0] == [];
      assert [line.(quantity := first), second][..1] == [line.(quantity := first)];
      assert [line.(quantity := first)][..0] == [];
    }
    EqualSumsGiveNoDeltas(original, updated);
  }

  /** Submitting the stored, consolidated lines back unchanged gives no changes. */
  lemma ConsolidationGivesNoDeltas(items: seq<OrderItem>)
    ensures EditDeltas(items, Consolidated(items)) == []
  {
    ConsolidatedLines(items);
    EqualSumsGiveNoDeltas(items, Consolidated(items));
  }
}
