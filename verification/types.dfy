/** Record shapes shared by the catalog and the cart. */
module Types {

  /** An optional value; `None` stands for a field that is `undefined`. */
  datatype Option<+T> = None | Some(value: T)

  /** A catalog product. Prices are whole currency units; `discountPrice` is
      the optional sale price. */
  datatype Product = Product(
    id: int,
    name: string,
    price: int,
    discountPrice: Option<int>,
    description: string,
    image: string)

  /** A cart line: every field of a product plus the number of units. */
  datatype CartItem = CartItem(product: Product, quantity: int) {
    function Id(): int { product.id }
  }
}
