/** The product records of the storefront and its fixed catalog. */
module Products {

  /** One catalog entry. The image URL is display-only and is not modelled. */
  datatype Product = Product(id: int, name: string, price: nat)

  /** The static catalog shown on the catalog page, in display order. */
  const Catalog: seq<Product> := [
    Product(1, "Café Latte", 50),
    Product(2, "Cappuccino", 60),
    Product(3, "Espresso", 40),
    Product(4, "Mocha", 65),
    Product(5, "Café Americano", 45),
    Product(6, "Flat White", 55)
  ]

  /** No two catalog entries share an id. */
  ghost predicate DistinctIds(s: seq<Product>)
  {
    forall i, j :: 0 <= i < j < |s| ==> s[i].id != s[j].id
  }

  /** The catalog has six entries with distinct ids 1..6 and prices between 40 and 65. */
  lemma CatalogWellFormed()
    ensures |Catalog| == 6
    ensures DistinctIds(Catalog)
    ensures forall i :: 0 <= i < |Catalog| ==> Catalog[i].id == i + 1
    ensures forall i :: 0 <= i < |Catalog| ==> 40 <= Catalog[i].price <= 65
  {
  }
}
