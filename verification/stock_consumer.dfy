/** The inventory service's queue consumer: every delivery, from either queue, is classified by
    its text, decoded, applied to the product table item by item, and acknowledged. */
module StockConsumer {
  import opened Common
  import opened StockMessages
  import opened Inventory
  import opened StockUpdates

  /** A delivery as the consumer sees it. `body` is the message text; `asAdjustment` and
      `asCreation` are what decoding that text as each message type yields
      (None when the decoder returns null or throws). `queue` names the queue the delivery
      came from; the handler never reads it, so a message is treated the same on either queue. */
  datatype Delivery = Delivery(
    tag: nat,
    queue: string,
    body: string,
    asAdjustment: Option<AdjustmentMessage>,
    asCreation: Option<CreationMessage>)

  /** What handling one delivery does to the product table. */
  function HandleDelivery(products: Products, d: Delivery): (r: Products)
    ensures SameCatalogue(products, r)
    ensures IsAdjustmentText(d.body) && d.asAdjustment.Some? ==> r == ApplyAdjustment(products, d.asAdjustment.value.deltas)
    ensures !IsAdjustmentText(d.body) && d.asCreation.Some? ==> r == ApplyCreation(products, d.asCreation.value.items)
    ensures (if IsAdjustmentText(d.body) then d.asAdjustment.None? else d.asCreation.None?) ==> r == products
  {
    if IsAdjustmentText(d.body) then
      match d.asAdjustment
      case Some(m) => ApplyAdjustment(products, m.deltas)
      case None => products
    else
      match d.asCreation
      case Some(m) => ApplyCreation(products, m.items)
      case None => products
  }

  /** The broker channel, reduced to the record of acknowledged delivery tags. */
  class Channel {
    var acked: seq<nat>

    constructor ()
      ensures acked == []
    {
      acked := [];
    }

    method BasicAck(tag: nat)
      modifies this
      ensures acked == old(acked) + [tag]
    {
      acked := acked + [tag];
    }
  }

  class StockConsumer {
    const store: InventoryStore
    const channel: Channel

    constructor (store: InventoryStore, channel: Channel)
      ensures this.store == store && this.channel == channel
    {
      this.store := store;
      this.channel := channel;
    }

    /** Creation processing: each item in turn, subtracting only when the product exists
        and has enough stock. */
    method ProcessCreation(message: CreationMessage)
      modifies store
      ensures store.products == ApplyCreation(old(store.products), message.items)
    {
      var items := message.items;
      var i := 0;
      while i < |items|
        invariant 0 <= i <= |items|
        invariant store.products == ApplyCreation(old(store.products), items[..i])
      {
        var item := items[i];
        var p := item.productId;
        assert items[..i + 1][..i] == items[..i];
        ghost var next := ApplyCreationItem(store.products, item);
        assert ApplyCreation(old(store.products), items[..i + 1]) == next;
        if p in store.products && store.products[p].quantityInStock >= item.quantity {
          store.products := SetStock(store.products, p, store.products[p].quantityInStock - item.quantity);
        }
        assert store.products == next;
        i := i + 1;
      }
      assert items[..i] == items;
    }

    /** Adjustment processing: each delta in turn, subtracted from an existing product
        with no floor at zero. */
    method ProcessAdjustment(message: AdjustmentMessage)
      modifies store
      ensures store.products == ApplyAdjustment(old(store.products), message.deltas)
    {
      var deltas := message.deltas;
      var i := 0;
      while i < |deltas|
        invariant 0 <= i <= |deltas|
        invariant store.products == ApplyAdjustment(old(store.products), deltas[..i])
      {
        var item := deltas[i];
        var p := item.productId;
        if p in store.products {
          store.products := SetStock(store.products, p, store.products[p].quantityInStock - item.quantityDelta);
        }
        assert deltas[..i + 1][..i] == deltas[..i];
        i := i + 1;
      }
      assert deltas[..i] == deltas;
    }

    /** The delivery handler: classify by the text, decode, process, and acknowledge the
        delivery exactly once whatever happened. */
    method Received(d: Delivery)
      modifies store, channel
      ensures store.products == HandleDelivery(old(store.products), d)
      ensures channel.acked == old(channel.acked) + [d.tag]
    {
      if IsAdjustmentText(d.body) {
        if d.asAdjustment.Some? {
          ProcessAdjustment(d.asAdjustment.value);
        }
      } else {
        if d.asCreation.Some? {
          ProcessCreation(d.asCreation.value);
        }
      }
      channel.BasicAck(d.tag);
    }
  }
}
