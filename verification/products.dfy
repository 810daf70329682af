/** Product descriptors and the catalog that the till reads but never changes. */
module Products {

  /** One catalog entry: a short code, a display name, an exact unit price and
      a display position reserved for sorted listings. */
  datatype Product = Product(code: string, name: string, unitPrice: real, printOrder: int)

  /** The catalog maps product codes to descriptors. Being a map, it cannot
      hold one code twice: this is what the start-up duplicate-code check
      guarantees. */
  type Catalog = map<string, Product>

  /** Every descriptor is filed under its own code. */
  predicate Keyed(cat: Catalog)
  {
    forall c :: c in cat ==> cat[c].code == c
  }

  /** The price of `qty` units of `p`: quantity times unit price, exact. */
  function Extension(qty: int, p: Product): (e: real)
  {
    qty as real * p.unitPrice
  }
}
