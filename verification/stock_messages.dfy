/** The two stock-change messages exchanged between the sales service and the inventory
    service, the queues they travel on, their JSON text, and the consumer's test that tells
    them apart by looking for the word "ItensDelta" in that text. */
module StockMessages {
  import opened Text

  /** Queue of creation messages (absolute quantities to subtract). */
  const CreationQueue: string := "baixa-estoque-queue"
  /** Queue of adjustment messages (signed quantity changes). */
  const AdjustmentQueue: string := "atualizacao-estoque-queue"

  /** One line of a creation message: subtract `quantity` from product `productId`. */
  datatype CreationItem = CreationItem(productId: int, quantity: int)

  /** Sent when an order is created. */
  datatype CreationMessage = CreationMessage(orderId: int, items: seq<CreationItem>)

  /** One line of an adjustment message: subtract the signed `quantityDelta`
      (positive: more was sold; negative: stock is given back). */
  datatype DeltaItem = DeltaItem(productId: int, quantityDelta: int)

  /** Sent when an order is edited. */
  datatype AdjustmentMessage = AdjustmentMessage(orderId: int, deltas: seq<DeltaItem>)

  /** A message as the sales service hands it to the broker. */
  datatype StockMessage =
    | Creation(creation: CreationMessage)
    | Adjustment(adjustment: AdjustmentMessage)

  /** The marker the consumer looks for. */
  const AdjustmentMarker: string := "ItensDelta"

  /** The consumer's classification: a message is an adjustment exactly when its text
      contains "ItensDelta", compared ordinally and ignoring case. */
  predicate IsAdjustmentText(body: string)
  {
    ContainsIgnoreCase(body, AdjustmentMarker)
  }

  // ---------------------------------------------------------------------------
  // JSON text as the default serializer writes the anonymous message objects:
  // property names as declared, no white space, integers in invariant culture.
  // ---------------------------------------------------------------------------

  function CreationItemJson(item: CreationItem): string
  {
    "{\"ProdutoId\":" + IntText(item.productId) + ",\"Quantidade\":" + IntText(item.quantity) + "}"
  }

  function CreationItemsJson(items: seq<CreationItem>): string
  {
    if |items| == 0 then ""
    else if |items| == 1 then CreationItemJson(items[0])
    else CreationItemJson(items[0]) + "," + CreationItemsJson(items[1..])
  }

  function DeltaItemJson(item: DeltaItem): string
  {
    "{\"ProdutoId\":" + IntText(item.productId) + ",\"QuantidadeDelta\":" + IntText(item.quantityDelta) + "}"
  }

  function DeltaItemsJson(items: seq<DeltaItem>): string
  {
    if |items| == 0 then ""
    else if |items| == 1 then DeltaItemJson(items[0])
    else DeltaItemJson(items[0]) + "," + DeltaItemsJson(items[1..])
  }

  /** The text the producer puts on the wire. */
  function Json(m: StockMessage): string
  {
    match m
    case Creation(c) =>
      "{\"PedidoId\":" + IntText(c.orderId) + ",\"Itens\":[" + CreationItemsJson(c.items) + "]}"
    case Adjustment(a) =>
      "{\"PedidoId\":" + IntText(a.orderId) + ",\"" + AdjustmentMarker + "\":[" + DeltaItemsJson(a.deltas) + "]}"
  }

  /** No character of a creation item's text is an 'l' in either case. */
  lemma CreationItemJsonAvoidsL(item: CreationItem)
    ensures Avoids(CreationItemJson(item), 'L')
  {
    IntTextAvoids(item.productId, 'L');
    IntTextAvoids(item.quantity, 'L');
    assert Avoids("{\"ProdutoId\":", 'L');
    assert Avoids(",\"Quantidade\":", 'L');
    AvoidsAppend("{\"ProdutoId\":", IntText(item.productId), 'L');
    AvoidsAppend("{\"ProdutoId\":" + IntText(item.productId), ",\"Quantidade\":", 'L');
    AvoidsAppend("{\"ProdutoId\":" + IntText(item.productId) + ",\"Quantidade\":", IntText(item.quantity), 'L');
    AvoidsAppend("{\"ProdutoId\":" + IntText(item.productId) + ",\"Quantidade\":" + IntText(item.quantity), "}", 'L');
  }

  lemma {:induction false} CreationItemsJsonAvoidsL(items: seq<CreationItem>)
    ensures Avoids(CreationItemsJson(items), 'L')
  {
    if |items| == 1 {
      CreationItemJsonAvoidsL(items[0]);
    } else if |items| > 1 {
      CreationItemJsonAvoidsL(items[0]);
      CreationItemsJsonAvoidsL(items[1..]);
      AvoidsAppend(CreationItemJson(items[0]), ",", 'L');
      AvoidsAppend(CreationItemJson(items[0]) + ",", CreationItemsJson(items[1..]), 'L');
    }
  }

  /** The text of a creation message never contains the marker. */
  lemma CreationJsonIsNotAdjustment(c: CreationMessage)
    ensures !IsAdjustmentText(Json(Creation(c)))
  {
    var head := "{\"PedidoId\":" + IntText(c.orderId) + ",\"Itens\":[";
    var body := head + CreationItemsJson(c.items) + "]}";
    assert Json(Creation(c)) == body;
    IntTextAvoids(c.orderId, 'L');
    assert Avoids("{\"PedidoId\":", 'L');
    assert Avoids(",\"Itens\":[", 'L');
    assert Avoids("]}", 'L');
    AvoidsAppend("{\"PedidoId\":", IntText(c.orderId), 'L');
    AvoidsAppend("{\"PedidoId\":" + IntText(c.orderId), ",\"Itens\":[", 'L');
    CreationItemsJsonAvoidsL(c.items);
    AvoidsAppend(head, CreationItemsJson(c.items), 'L');
    AvoidsAppend(head + CreationItemsJson(c.items), "]}", 'L');
    assert UpperInvariant(AdjustmentMarker[7]) == 'L';
    AvoidsExcludes(body, AdjustmentMarker, 'L', 7);
  }

  /** The text of an adjustment message always contains the marker. */
  lemma AdjustmentJsonIsAdjustment(a: AdjustmentMessage)
    ensures IsAdjustmentText(Json(Adjustment(a)))
  {
    var prefix := "{\"PedidoId\":" + IntText(a.orderId) + ",\"";
    var suffix := "\":[" + DeltaItemsJson(a.deltas) + "]}";
    assert Json(Adjustment(a)) == prefix + AdjustmentMarker + suffix;
    ContainsAt(prefix, AdjustmentMarker, suffix);
  }

  /** Classification is right for every message the sales service produces:
      the text of an adjustment contains the marker, the text of a creation never does. */
  lemma JsonClassification(m: StockMessage)
    ensures IsAdjustmentText(Json(m)) <==> m.Adjustment?
  {
    match m
    case Creation(c) => CreationJsonIsNotAdjustment(c);
    case Adjustment(a) => AdjustmentJsonIsAdjustment(a);
  }
}
