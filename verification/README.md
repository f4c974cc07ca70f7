# Stock reconciliation between the sales and inventory services

This project is a Dafny model of how two services keep product stock in step. One is the
sales service (orders). The other is the inventory service (products and their stock).

- **Creating an order** (`VendasController.CriarPedido`). The sales service checks each
  order line against the stock service's `GET /api/produtos/{id}`. It then takes each line's
  unit price from that answer, totals the order and saves it. Last, it publishes a creation
  message on `baixa-estoque-queue`. If publishing fails, the answer is 207 and the saved order
  stays.
- **Editing an order** (`VendasController.AtualizarPedido`). The old and the new lines are
  grouped by product with their quantities summed. The change per product is new minus old
  (a missing side counts as 0), and only non-zero changes are kept. Only the increases are
  checked against the stock service. The stored order is rebuilt with one line per product.
  An adjustment message goes to `atualizacao-estoque-queue`, and only when some change is
  non-zero.
- **The stock consumer** (`BaixaEstoqueConsumer`). It listens on both queues. It classifies
  a message as an adjustment when its text contains `ItensDelta`, ignoring case; any other
  message is a creation. A creation subtracts a line's quantity only when the product exists
  and has that much stock. An adjustment subtracts a signed change from an existing product,
  with no floor at zero. Every delivery is acknowledged, whatever happened.
- **The product endpoints** (`ProdutosController`). The direct write-off checks its guards in
  order and then subtracts once. The stock statistics are a count and a sum. The product
  lookup and the product update have id and not-found guards.

## Layout

| file | module | contents |
|---|---|---|
| `common.dfy` | `Common` | `Option`, and the sum of a map's values |
| `text.dfy` | `Text` | ordinal case-insensitive search and integer text |
| `stock_messages.dfy` | `StockMessages` | queue names, message datatypes, their JSON text, the classification test |
| `inventory.dfy` | `Inventory` | products and the shared product table |
| `stock_updates.dfy` | `StockUpdates` | what creation and adjustment messages do to the table |
| `stock_consumer.dfy` | `StockConsumer` | the consumer's delivery handler, processing loops and acknowledgement |
| `products_api.dfy` | `ProductsApi` | write-off, statistics, lookup and update of products |
| `orders.dfy` | `Orders` | orders, per-product sums, the grouping dictionary, consolidation into one line per product |
| `delta_calculator.dfy` | `DeltaCalculator` | the change list of an edit and its loop |
| `sales_api.dfy` | `SalesApi` | validation, pricing, rebuild, order store, producer, the sales controller |
| `reconciliation.dfy` | `Reconciliation` | end-to-end properties across both services, and worked cases |

How the model is built:

- The stock service's answers during one request are a map from product id to `ProductDto`.
  A product id that is absent got a non-success answer.
- The order of the grouping dictionary's keys is their first appearance in the lines. The
  union of two key sets lists the old order's keys first, then the new ones.
- Money is in integer cents.
- A publish either succeeds, and the message is appended to the producer's outbox, or fails.
  A boolean parameter of the controller methods decides which.
- Each imperative loop of the source is a Dafny `method` with a `while` loop. Its contract
  says it computes the same result as a pure function, and the lemmas are stated about those
  functions.

Behaviour of the code worth knowing:

- The consumer sorts messages by looking for the word `ItensDelta` in their text. The
  messages carry no type field. `StockMessages.JsonClassification` proves that this test is right for
  every message the sales service writes.
- A creation message is published even when the order has no lines.
- On creation, duplicate lines of one product are not summed. Each line is checked on its own
  against the stock, and the creation message carries the lines as they are. Two lines can
  therefore each fit while together asking for more than the stock. The consumer then applies
  the first and skips the second. `Reconciliation.DuplicateLinesScenario` shows this.
- The edited order takes its total (`ValorTotal`) from the request. Each rebuilt line takes
  the unit price of the request's first line for that product.

## Model

| member | source | states |
|---|---|---|
| Text.ContainsIgnoreCase | backend/src/Servicos/Estoque.API/Services/BaixaEstoqueMessage.cs:91 | the text contains the word, ignoring case, exactly when some position starts a case-insensitive match |
| StockMessages.CreationJsonIsNotAdjustment | backend/src/Servicos/Vendas.API/Controllers/VendasController.cs:111-115 | the text of any creation message never contains `ItensDelta` in any case |
| StockMessages.AdjustmentJsonIsAdjustment | backend/src/Servicos/Vendas.API/Controllers/VendasController.cs:232-236 | the text of any adjustment message contains `ItensDelta` |
| StockMessages.JsonClassification | backend/src/Servicos/Estoque.API/Services/BaixaEstoqueMessage.cs:91-107 | the consumer's text test calls a published message an adjustment if and only if it is one |
| StockUpdates.ApplyCreationItem | backend/src/Servicos/Estoque.API/Services/BaixaEstoqueMessage.cs:139-147 | one creation line subtracts its quantity only when the product exists and has at least that much; otherwise the stock stays; no other product and no other field changes |
| StockUpdates.ApplyCreation | backend/src/Servicos/Estoque.API/Services/BaixaEstoqueMessage.cs:137-148 | a creation message changes only stock; products it does not name keep their row; a non-negative stock stays non-negative |
| StockUpdates.CreationFold | backend/src/Servicos/Estoque.API/Services/BaixaEstoqueMessage.cs:140-143 | one product's stock through a creation message: never below zero when it starts at zero or more, and never above its start when no quantity is negative |
| StockUpdates.CreationPerProduct | backend/src/Servicos/Estoque.API/Services/BaixaEstoqueMessage.cs:137-148 | a product's stock after a creation message depends only on its own stock and the lines naming it |
| StockUpdates.CreationFoldSufficient | backend/src/Servicos/Estoque.API/Services/BaixaEstoqueMessage.cs:140-142 | when the stock covers the summed quantity of a product, its stock drops by exactly that sum |
| StockUpdates.CreationNeverIncreases | backend/src/Servicos/Estoque.API/Services/BaixaEstoqueMessage.cs:140-143 | with no negative quantity, a creation message never raises any stock |
| StockUpdates.ApplyCreationAppend | backend/src/Servicos/Estoque.API/Services/BaixaEstoqueMessage.cs:137-148 | lines are applied one after another: applying a message in two parts is applying it whole |
| StockUpdates.CreationSkipsFailedItem | backend/src/Servicos/Estoque.API/Services/BaixaEstoqueMessage.cs:137-148 | a line that fails changes nothing, and the later lines apply as if it were absent |
| StockUpdates.ApplyDeltaItem | backend/src/Servicos/Estoque.API/Services/BaixaEstoqueMessage.cs:160-167 | one change subtracts its signed quantity from an existing product's stock, with no floor; an unknown product leaves the table as it is; no other product and no other field changes |
| StockUpdates.ApplyAdjustment | backend/src/Servicos/Estoque.API/Services/BaixaEstoqueMessage.cs:158-172 | every existing product ends at its stock minus the net change naming it, with no floor; nothing but stock changes |
| StockUpdates.AdjustmentOfUnknownProduct | backend/src/Servicos/Estoque.API/Services/BaixaEstoqueMessage.cs:160-171 | a change for a product that does not exist leaves the table unchanged |
| StockConsumer.HandleDelivery | backend/src/Servicos/Estoque.API/Services/BaixaEstoqueMessage.cs:88-109 | a text with the marker is handled as an adjustment, any other text as a creation; a message that does not decode changes nothing |
| StockConsumer.StockConsumer.ProcessCreation | backend/src/Servicos/Estoque.API/Services/BaixaEstoqueMessage.cs:132-150 | the creation loop leaves the table `ApplyCreation` describes |
| StockConsumer.StockConsumer.ProcessAdjustment | backend/src/Servicos/Estoque.API/Services/BaixaEstoqueMessage.cs:153-174 | the adjustment loop leaves the table `ApplyAdjustment` describes |
| StockConsumer.StockConsumer.Received | backend/src/Servicos/Estoque.API/Services/BaixaEstoqueMessage.cs:83-122 | the handler changes the table as `HandleDelivery` says and acknowledges the delivery's tag exactly once |
| ProductsApi.GetProduct | backend/src/Servicos/Estoque.API/Controllers/ProdutosController.cs:60-68 | the lookup finds the product exactly when its id is in the table, and answers 404 otherwise |
| ProductsApi.GetStockStatistics | backend/src/Servicos/Estoque.API/Controllers/ProdutosController.cs:28-43 | the statistics count every product once, and their total stock is not negative when no stock is |
| ProductsApi.WriteOff | backend/src/Servicos/Estoque.API/Controllers/ProdutosController.cs:113-138 | guards in order (quantity not positive, unknown product, too little stock), each changing nothing; success exactly when all pass, then the stock drops by exactly the quantity, stays non-negative, and no other product changes |
| ProductsApi.UpdateProduct | backend/src/Servicos/Estoque.API/Controllers/ProdutosController.cs:78-110 | an invalid body (refused by the framework before the action, as `[ApiController]` at line 14 makes it), then an id mismatch, then an unknown id are refused without change; on success the row is the body and no other row changes |
| ProductsApi.WriteOffStatistics | backend/src/Servicos/Estoque.API/Controllers/ProdutosController.cs:31-34 | after a successful write-off the statistics keep the product count and their total stock falls by exactly the quantity |
| ProductsApi.ProductsController.DarBaixaEstoque | backend/src/Servicos/Estoque.API/Controllers/ProdutosController.cs:113-138 | the endpoint's status and new table are those of `WriteOff` |
| ProductsApi.ProductsController.AtualizarProduto | backend/src/Servicos/Estoque.API/Controllers/ProdutosController.cs:78-110 | the endpoint's status and new table are those of `UpdateProduct` |
| Orders.GroupByProduct | backend/src/Servicos/Vendas.API/Controllers/VendasController.cs:163-169 | the dictionary has a key exactly for each product the lines name, holding that product's summed quantity |
| Orders.SumQuantityPermutation | backend/src/Servicos/Vendas.API/Controllers/VendasController.cs:163-169 | reordering the lines changes no product's sum |
| Orders.Distinct | backend/src/Servicos/Vendas.API/Controllers/VendasController.cs:171 | the union keeps exactly the members of its input, each once, and keeps a list without repeats as it is |
| Orders.FirstPriceAt | backend/src/Servicos/Vendas.API/Controllers/VendasController.cs:220 | the price taken for a product is the unit price of the first line naming it |
| Orders.Consolidated | backend/src/Servicos/Vendas.API/Controllers/VendasController.cs:211-222 | the rebuilt order has no more lines than the request, names exactly the request's products, and names none twice |
| Orders.ConsolidatedLines | backend/src/Servicos/Vendas.API/Controllers/VendasController.cs:211-222 | the rebuilt order has exactly one line per product of the request, each with the summed quantity and the first unit price, so every product's sum is kept |
| Orders.ConsolidatedIdempotent | backend/src/Servicos/Vendas.API/Controllers/VendasController.cs:211-222 | rebuilding an already rebuilt order changes nothing |
| DeltaCalculator.UnionIds | backend/src/Servicos/Vendas.API/Controllers/VendasController.cs:171 | every product named before or after the edit, each once |
| DeltaCalculator.DeltaListEntries | backend/src/Servicos/Vendas.API/Controllers/VendasController.cs:174-182 | every entry of the change list is a listed product with new minus old quantity, and is non-zero |
| DeltaCalculator.DeltaListComplete | backend/src/Servicos/Vendas.API/Controllers/VendasController.cs:174-182 | every listed product whose quantity differs has an entry |
| DeltaCalculator.DeltaListNoDuplicates | backend/src/Servicos/Vendas.API/Controllers/VendasController.cs:171-183 | ids without repeats give a change list naming no product twice |
| DeltaCalculator.ComputeDeltas | backend/src/Servicos/Vendas.API/Controllers/VendasController.cs:172-183 | the loop produces the change list `DeltaList` defines |
| DeltaCalculator.EditDeltas | backend/src/Servicos/Vendas.API/Controllers/VendasController.cs:163-183 | each entry is the new summed quantity minus the old one and is non-zero; a product has an entry if and only if its summed quantity differs; no product is listed twice |
| DeltaCalculator.EditDeltasSum | backend/src/Servicos/Vendas.API/Controllers/VendasController.cs:163-183 | the net change the list asks of any product is its new sum minus its old sum |
| DeltaCalculator.EqualSumsGiveNoDeltas | backend/src/Servicos/Vendas.API/Controllers/VendasController.cs:163-183 | lines with equal per-product sums give an empty list, so nothing is published |
| DeltaCalculator.ReorderedLinesGiveNoDeltas | backend/src/Servicos/Vendas.API/Controllers/VendasController.cs:163-183 | the same lines in another order give no changes |
| DeltaCalculator.SplitLineGivesNoDeltas | backend/src/Servicos/Vendas.API/Controllers/VendasController.cs:163-183 | splitting a line into two lines of the same product gives no changes |
| DeltaCalculator.ConsolidationGivesNoDeltas | backend/src/Servicos/Vendas.API/Controllers/VendasController.cs:163-183 | sending back the stored, rebuilt lines gives no changes |
| SalesApi.FirstLineRejection | backend/src/Servicos/Vendas.API/Controllers/VendasController.cs:82-96 | no refusal exactly when every line's product is known and has at least the line's quantity; a refusal is that of the first line failing its own check |
| SalesApi.CheckStock | backend/src/Servicos/Vendas.API/Controllers/VendasController.cs:84-96 | one product passes exactly when it is known and has at least the amount; an unknown product is refused as a failed lookup, a short one as insufficient stock; the same check serves the positive changes of an edit (lines 196-206) |
| SalesApi.PricedItems | backend/src/Servicos/Vendas.API/Controllers/VendasController.cs:98 | pricing keeps every line's product and quantity, in order, and gives each line its product's price from the stock service |
| SalesApi.OrderTotal | backend/src/Servicos/Vendas.API/Controllers/VendasController.cs:99-103 | the order value is not negative when no price and no quantity is |
| SalesApi.OrderTotalAppend | backend/src/Servicos/Vendas.API/Controllers/VendasController.cs:99-103 | the value of two groups of lines is the sum of their values, whatever the split |
| SalesApi.ValidateAndPrice | backend/src/Servicos/Vendas.API/Controllers/VendasController.cs:82-100 | the loop refuses as `FirstLineRejection` says; otherwise every line carries the stock service's price and the total is the sum of price times quantity |
| SalesApi.CreationItemsOf | backend/src/Servicos/Vendas.API/Controllers/VendasController.cs:114 | the creation message carries every line's product and quantity, in order, duplicates included |
| SalesApi.FirstDeltaRejection | backend/src/Servicos/Vendas.API/Controllers/VendasController.cs:194-207 | no refusal exactly when every positive change has a known product with at least that much stock; a refusal always comes from a positive change, the first that fails; zero and negative changes never refuse |
| SalesApi.ValidatePositiveDeltas | backend/src/Servicos/Vendas.API/Controllers/VendasController.cs:194-207 | the loop refuses as `FirstDeltaRejection` says |
| SalesApi.RebuildItems | backend/src/Servicos/Vendas.API/Controllers/VendasController.cs:211-222 | the rebuild loop produces the consolidated lines |
| SalesApi.OrderStore.Add | backend/src/Servicos/Vendas.API/Controllers/VendasController.cs:105-106 | a saved order gets a fresh id and no other order changes |
| SalesApi.OrderStore.Update | backend/src/Servicos/Vendas.API/Controllers/VendasController.cs:224 | saving an edited order replaces exactly the stored order with its id and no other |
| SalesApi.MessageProducer.PublishMessage | backend/src/Servicos/Vendas.API/Controllers/VendasController.cs:108-123 | a publish that the broker accepts adds the message to the outbox; a failed one adds nothing |
| SalesApi.StatisticsAfterNewOrder | backend/src/Servicos/Vendas.API/Controllers/VendasController.cs:57-67 | saving a new order adds one sale and exactly its value to the statistics |
| SalesApi.StatisticsOfTwoOrders | backend/src/Vendas.Tests/src/VendasControllerTests.cs:31-57 | two orders worth 100 and 50 give two sales worth 150 |
| SalesApi.GetSalesStatistics | backend/src/Servicos/Vendas.API/Controllers/VendasController.cs:57-67 | the statistics count every order once, and their total value is not negative when no order's total is |
| SalesApi.SalesController.CriarPedido | backend/src/Servicos/Vendas.API/Controllers/VendasController.cs:69-126 | a refused order saves and publishes nothing; otherwise the priced order with its total is saved under a fresh id; then it is 201 with the creation message published, or 207 with the order kept and nothing published |
| SalesApi.SalesController.AtualizarPedido | backend/src/Servicos/Vendas.API/Controllers/VendasController.cs:146-246 | an id mismatch, then an unknown order, then a refused increase change nothing; otherwise the stored order gets the request's total and the consolidated lines; the adjustment is published only when the change list is non-empty; a failed publish gives 207 and keeps the saved order |
| Reconciliation.CreationItemsSum | backend/src/Servicos/Vendas.API/Controllers/VendasController.cs:111-115 | the creation message asks of every product exactly the order's summed quantity |
| Reconciliation.PublishedMessageHandled | backend/src/Servicos/Estoque.API/Services/BaixaEstoqueMessage.cs:91-107 | a delivery of a published message is handled as a message of its own kind |
| Reconciliation.OrderLifecycleForProduct | backend/src/Servicos/Vendas.API/Controllers/VendasController.cs:163-183 | with stock covering the original order, creation then edit leave a product at its initial stock minus its new summed quantity |
| Reconciliation.OrderLifecycle | backend/src/Servicos/Estoque.API/Services/BaixaEstoqueMessage.cs:137-172 | the same for every product at once, with the catalogue untouched |
| Reconciliation.ValidatedLinesFit | backend/src/Servicos/Vendas.API/Controllers/VendasController.cs:82-96 | when each product has one line, validation against the current table means no product is asked for more than it holds |
| Reconciliation.ValidatedCreationSubtractsAll | backend/src/Servicos/Vendas.API/Controllers/VendasController.cs:82-100 | a validated order with one line per product and no negative quantity is subtracted in full |
| Reconciliation.ValidatedAdjustmentKeepsStock | backend/src/Servicos/Vendas.API/Controllers/VendasController.cs:194-207 | a validated change list naming each product once leaves no stock negative |
| Reconciliation.ValidatedEditKeepsStock | backend/src/Servicos/Vendas.API/Controllers/VendasController.cs:163-207 | an edit validated against the current stock leaves no stock negative once handled |
| Reconciliation.SingleLineEditSame | backend/src/Servicos/Vendas.API/Controllers/VendasController.cs:172-183 | editing a one-line order without changing its quantity gives no changes |
| Reconciliation.SingleLineEditChanged | backend/src/Servicos/Vendas.API/Controllers/VendasController.cs:172-183 | editing a one-line order to another quantity gives exactly one change, new minus old |
| Reconciliation.OneProductChanged | backend/src/Servicos/Vendas.API/Controllers/VendasController.cs:163-183 | an edit that changes the summed quantity of one product only gives exactly that one change |
| Reconciliation.CreationScenario | backend/src/Servicos/Estoque.API/Services/BaixaEstoqueMessage.cs:137-148 | an order for 3 of a product with stock 10 leaves 7 |
| Reconciliation.RaiseScenario | backend/src/Servicos/Estoque.API/Services/BaixaEstoqueMessage.cs:158-172 | raising a line from 3 to 5 gives the change +2, which takes 2 more from stock |
| Reconciliation.LowerScenario | backend/src/Servicos/Estoque.API/Services/BaixaEstoqueMessage.cs:158-172 | lowering a line from 5 to 2 gives the change -3, which returns 3 to stock |
| Reconciliation.UnknownProductScenario | backend/src/Servicos/Estoque.API/Services/BaixaEstoqueMessage.cs:137-148 | a line for an unknown product is skipped and the next line still applies |
| Reconciliation.DuplicateLinesScenario | backend/src/Servicos/Vendas.API/Controllers/VendasController.cs:82-96 | two lines of 3 pass validation against a stock of 5, yet the consumer subtracts only 3 of the 6 ordered |
| Reconciliation.NoGuardScenario | backend/src/Servicos/Estoque.API/Services/BaixaEstoqueMessage.cs:140-166 | a negative creation quantity raises the stock, and an adjustment larger than the stock drives it below zero |

## Left out

- Integer width: every integer in the model is unbounded. The source's `int` stock
  arithmetic wraps at 32 bits, because C# arithmetic is unchecked by default: the delta
  subtraction in `VendasController.cs:178` and the stock updates in `BaixaEstoqueMessage.cs:142`
  and `:166`. Only values near ±2^31 are affected.
- Orders.GroupByProduct: the per-product sums in `VendasController.cs:165` and `:169` use
  `Enumerable.Sum`, which is checked and throws `OverflowException`. An edit whose summed
  quantity for one product passes 2^31 - 1 therefore ends in a server error before anything
  is stored or published. The model's sums are unbounded and do not model that exception.
- StockUpdates.ApplyAdjustment: does not model the 32-bit wrap-around of the subtraction,
  for the reason above.
- ProductsApi.WriteOffStatistics: the database sum of an `int` column can overflow and throw.
  The model's sum is unbounded.
- Money: `decimal` prices and totals are integer cents. The code does no rounding.
- Timestamps: the order date (`DataPedido`) is set from the clock on creation and copied from
  the request on edit. Neither is modelled.
- HTTP and authentication: the token forwarding, the stock service URL and the calls
  themselves are not modelled. The answers of one request are a fixed map (`StockSnapshot`).
- SalesApi.FirstLineRejection: a success answer whose body decodes to JSON `null` is refused
  as "insufficient stock" by the source. The model only has "answered" or "not answered".
- SalesApi.FirstDeltaRejection: the same `null` body case is not modelled.
- JSON decoding in the consumer is not modelled. A `Delivery` carries what decoding its text
  as each message type gives, and `None` stands for `null` or a decoding error. Both lead to
  no change and an acknowledgement, as in the source.
- Text.UpperInvariant: maps only the ASCII letters. The source's ordinal case-insensitive
  comparison also maps some other characters. This matters only for texts the sales service
  does not write, since those hold only ASCII.
- Concurrency: the consumer handles one delivery at a time. The gap between the sales
  service's stock check and the consumer's subtraction is not modelled.
- Saving: the consumer saves once after its loop. A failed save, which discards the whole
  message's changes, is not modelled.
- Database ids: the order store hands out increasing ids from a counter, standing in for the
  database.
- Broker plumbing is not modelled: the connection, the queue declarations, the consumer's
  constructor, `StartAsync` and `StopAsync`, and the producer's own code. A publish is one
  boolean outcome.
- ProductsApi.UpdateProduct: the model-validation result is a boolean input, checked before
  the route id because the framework's automatic validation (the controller is an
  `[ApiController]`, registered with plain `AddControllers()` in `Estoque.API/Program.cs`)
  answers 400 before the action runs; the action's own validity branch is therefore never
  reached and has no separate place in the model. When the row exists, the rethrow of a concurrency error cannot happen in a single-threaded model.
- The sales controller is an `[ApiController]` too, so the framework refuses a request body
  that fails validation before `CriarPedido` or `AtualizarPedido` runs. The model takes
  their bodies as already valid and does not model that refusal.
- Listing orders, looking up one order, listing products and creating products are plain
  database reads and inserts outside the reconciliation path.
- Authentication, the gateway and the front end are not part of this model.
