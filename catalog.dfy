/**
 The storefront's product catalog: the `Product` record and the fixed list of six
 products the page offers. Prices are whole cents, so that sums are exact.
 */
module Catalog {

  /** A catalog product. Strings are display data and opaque to the cart. */
  datatype Product = Product(
    id: int,
    name: string,
    price: int,       // in cents: 5999 stands for 59.99
    image: string,
    category: string,
    rating: int,      // number of stars shown
    description: string)

  /** The six products, in display order. */
  const Products: seq<Product> := [
    Product(1, "Jocko Protein Powder", 5999, "assets/powder.png", "Supplements", 5,
            "High protein & mass gainer supplement - 12lbs"),
    Product(2, "Creatine Monohydrate", 2499, "assets/creatine.png", "Supplements", 5,
            "Pure creatine monohydrate - 500g"),
    Product(3, "Whey Protein Isolate", 2999, "assets/protein.png", "Supplements", 4,
            "Premium whey protein isolate - 5lbs"),
    Product(4, "Lifting Straps", 1299, "assets/straps.png", "Equipment", 4,
            "Heavy duty lifting straps"),
    Product(5, "Premium Sweaters", 1999, "assets/sweater.png", "Equipment", 5,
            "Complete resistance bands set"),
    Product(6, "Premium Joggers", 3999, "assets/sweats.png", "Apparel", 4,
            "Comfortable athletic joggers")
  ]

  /** No two positions of `s` carry the same id. */
  predicate DistinctIds(s: seq<Product>) {
    forall i, j :: 0 <= i < j < |s| ==> s[i].id != s[j].id
  }

  /** The id is positive, the price is positive and the rating is a star count in [0, 5]. */
  predicate WellFormed(p: Product) {
    p.id > 0 && p.price > 0 && 0 <= p.rating <= 5
  }

  /** The catalog constant has six products with distinct ids, each well formed. */
  lemma CatalogWellFormed()
    ensures |Products| == 6
    ensures DistinctIds(Products)
    ensures forall p :: p in Products ==> WellFormed(p)
  {
    forall i, j | 0 <= i < j < |Products| ensures Products[i].id != Products[j].id {
      assert Products[i].id == i + 1 && Products[j].id == j + 1;
    }
  }
}
