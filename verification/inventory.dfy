/** The inventory service's product table. */
module Inventory {

  /** A product row; `price` is in cents. */
  datatype Product = Product(id: int, name: string, description: string, price: int, quantityInStock: int)

  /** The product table, keyed by product id. */
  type Products = map<int, Product>

  /** The same product table with only the stock quantity of `p` replaced. */
  function SetStock(products: Products, p: int, quantity: int): (r: Products)
    requires p in products
    ensures r.Keys == products.Keys
    ensures r[p].quantityInStock == quantity
  {
    products[p := products[p].(quantityInStock := quantity)]
  }

  /** Two product tables hold the same products, differing at most in stock quantities. */
  ghost predicate SameCatalogue(before: Products, after: Products)
  {
    && after.Keys == before.Keys
    && forall p :: p in after ==> after[p].(quantityInStock := before[p].quantityInStock) == before[p]
  }

  /** The database context shared by the inventory controller and the stock consumer:
      one mutable product table. */
  class InventoryStore {
    var products: Products

    constructor (initial: Products)
      ensures products == initial
    {
      products := initial;
    }
  }
}
