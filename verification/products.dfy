/** Catalog products and their snapshots (ecommerce_cart.py:24-41). The
    prototype `clone` via a shallow copy becomes a record value copy; the
    `Laptop` and `Headphones` subclasses add no behaviour and are not
    distinguished. */
module Products {

  /** A catalog entry. In the catalog `availability` is the remaining
      stock; in a cart snapshot the same field holds the quantity added. */
  datatype Product = Product(name: string, price: real, availability: int)

  /** An independent copy of a product: every field carries over. */
  function Clone(p: Product): (c: Product)
    ensures c == p
  {
    Product(p.name, p.price, p.availability)
  }
}
