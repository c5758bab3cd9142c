/** The catalogue entity shared by the cart and the product service
    (`Models.Entities.Product`). Only the fields the core reads are kept. */
module Entities {

  /** A product. `stock` is the source's `Product.Quantity`: the number of
      units available, which `Cart.AddItem` compares against. Prices are
      exact reals rather than binary doubles. */
  datatype Product = Product(id: int, name: string, price: real, stock: int)
}
