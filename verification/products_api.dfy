/** The inventory service's product endpoints that touch stock: the direct write-off, the
    stock statistics, and the id / not-found guards of the product lookup and update. */
module ProductsApi {
  import opened Common
  import opened Inventory

  /** Reasons for a 400 Bad Request. */
  datatype BadRequestReason =
    | NonPositiveQuantity   // write-off of zero or less
    | InsufficientStock     // write-off larger than the stock
    | RouteIdMismatch       // route id differs from the body's id
    | InvalidModel          // the request body failed model validation

  /** HTTP outcome of a command endpoint: 204, 404 or 400. */
  datatype Status = NoContent | NotFound | BadRequest(reason: BadRequestReason)

  /** Outcome of a command together with the product table it leaves. */
  datatype CommandResult = CommandResult(status: Status, products: Products)

  /** Outcome of the product lookup: 200 with the product, or 404. */
  datatype Lookup = Found(product: Product) | Missing

  /** Body of the statistics endpoint. */
  datatype StockStatistics = StockStatistics(totalProducts: int, totalQuantity: int)

  /** GET /api/produtos/{id}. */
  function GetProduct(products: Products, id: int): (r: Lookup)
    ensures r.Found? <==> id in products
    ensures r.Found? ==> r.product == products[id]
  {
    if id in products then Found(products[id]) else Missing
  }

  /** The stock column of the product table. */
  ghost function StockColumn(products: Products): (column: map<int, int>)
    ensures column.Keys == products.Keys
    ensures forall p :: p in column ==> column[p] == products[p].quantityInStock
  {
    map p | p in products :: products[p].quantityInStock
  }

  /** GET /api/produtos/estatisticas: the number of products and the sum of their stock. */
  ghost function GetStockStatistics(products: Products): (r: StockStatistics)
    ensures r.totalProducts == |products|
    ensures (forall p :: p in products ==> products[p].quantityInStock >= 0) ==> r.totalQuantity >= 0
  {
    var column := StockColumn(products);
    assert (forall p :: p in products ==> products[p].quantityInStock >= 0) ==> forall p :: p in column ==> column[p] >= 0;
    SumValuesNonNegative(column);
    StockStatistics(|products|, SumValues(column))
  }

  /** PATCH /api/produtos/{id}/dar-baixa: the guards in their order, then one subtraction. */
  function WriteOff(products: Products, id: int, quantity: int): (r: CommandResult)
    ensures quantity <= 0 ==> r.status == BadRequest(NonPositiveQuantity)
    ensures quantity > 0 && id !in products ==> r.status == NotFound
    ensures quantity > 0 && id in products && products[id].quantityInStock < quantity
            ==> r.status == BadRequest(InsufficientStock)
    ensures r.status == NoContent <==>
            quantity > 0 && id in products && products[id].quantityInStock >= quantity
    ensures r.status != NoContent ==> r.products == products
    ensures r.status == NoContent ==>
              && SameCatalogue(products, r.products)
              && r.products[id].quantityInStock == products[id].quantityInStock - quantity
              && r.products[id].quantityInStock >= 0
              && forall p :: p in products && p != id ==> r.products[p] == products[p]
  {
    if quantity <= 0 then CommandResult(BadRequest(NonPositiveQuantity), products)
    else if id !in products then CommandResult(NotFound, products)
    else if products[id].quantityInStock < quantity then CommandResult(BadRequest(InsufficientStock), products)
    else CommandResult(NoContent, SetStock(products, id, products[id].quantityInStock - quantity))
  }

  /** PUT /api/produtos/{id}: an invalid body is refused first (the `[ApiController]`
      attribute makes the framework answer 400 before the action runs, so the action's own
      validity branch is never reached); then the route id must match the body and the
      product must exist; then the whole row is replaced. */
  function UpdateProduct(products: Products, id: int, updated: Product, modelValid: bool): (r: CommandResult)
    ensures !modelValid ==> r.status == BadRequest(InvalidModel)
    ensures modelValid && id != updated.id ==> r.status == BadRequest(RouteIdMismatch)
    ensures modelValid && id == updated.id && id !in products ==> r.status == NotFound
    ensures r.status == NoContent <==> id == updated.id && modelValid && id in products
    ensures r.status != NoContent ==> r.products == products
    ensures r.status == NoContent ==>
              r.products.Keys == products.Keys && GetProduct(r.products, id) == Found(updated)
              && forall p :: p in products && p != id ==> r.products[p] == products[p]
  {
    if !modelValid then CommandResult(BadRequest(InvalidModel), products)
    else if id != updated.id then CommandResult(BadRequest(RouteIdMismatch), products)
    else if id !in products then CommandResult(NotFound, products)
    else CommandResult(NoContent, products[id := updated])
  }

  /** A successful write-off keeps the product count and lowers the total stock by exactly
      the quantity written off. */
  lemma WriteOffStatistics(products: Products, id: int, quantity: int)
    requires WriteOff(products, id, quantity).status == NoContent
    ensures var after := GetStockStatistics(WriteOff(products, id, quantity).products);
            var before := GetStockStatistics(products);
            after.totalProducts == before.totalProducts
            && after.totalQuantity == before.totalQuantity - quantity
  {
    var after := WriteOff(products, id, quantity).products;
    assert after.Keys == products.Keys;
    assert StockColumn(after) == StockColumn(products)[id := products[id].quantityInStock - quantity];
    SumValuesUpdate(StockColumn(products), id, products[id].quantityInStock - quantity);
  }

  /** The product controller over the shared product table. */
  class ProductsController {
    const store: InventoryStore

    constructor (store: InventoryStore)
      ensures this.store == store
    {
      this.store := store;
    }

    /** PATCH /api/produtos/{id}/dar-baixa. */
    method DarBaixaEstoque(id: int, quantity: int) returns (status: Status)
      modifies store
      ensures CommandResult(status, store.products) == WriteOff(old(store.products), id, quantity)
    {
      if quantity <= 0 {
        return BadRequest(NonPositiveQuantity);
      }
      if id !in store.products {
        return NotFound;
      }
      var product := store.products[id];
      if product.quantityInStock < quantity {
        return BadRequest(InsufficientStock);
      }
      store.products := store.products[id := product.(quantityInStock := product.quantityInStock - quantity)];
      status := NoContent;
    }

    /** PUT /api/produtos/{id}, with the framework's validation ahead of the action. */
    method AtualizarProduto(id: int, updated: Product, modelValid: bool) returns (status: Status)
      modifies store
      ensures CommandResult(status, store.products) == UpdateProduct(old(store.products), id, updated, modelValid)
    {
      if !modelValid {
        return BadRequest(InvalidModel);
      }
      if id != updated.id {
        return BadRequest(RouteIdMismatch);
      }
      if id !in store.products {
        return NotFound;
      }
      store.products := store.products[id := updated];
      status := NoContent;
    }
  }
}
