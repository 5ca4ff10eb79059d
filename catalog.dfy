/**
 * The static product catalog of the farm shop, the guard in front of
 * "Add to Cart" and the category filter of the products page.
 */
module Catalog {
  import opened Wrappers
  import opened Lists

  /** A catalog record; the cart copies every one of these fields into a line item. */
  datatype Product = Product(
    id: string,
    name: string,
    category: string,
    price: int,
    unit: string,
    description: string,
    image: string,
    badge: string,
    available: bool)

  /** The six products the shop lists, in display order; every price is a whole number of cedis. */
  const PRODUCTS: seq<Product> := [
    Product("eggs-large", "Fresh Farm Eggs - Large", "Eggs", 45, "per crate (30 eggs)",
            "Premium quality large eggs from free-range chickens. Rich in nutrients and flavor.",
            "pics/egg1.jpg", "Fresh Daily", true),
    Product("eggs-medium", "Fresh Farm Eggs - Medium", "Eggs", 40, "per crate (30 eggs)",
            "High-quality medium eggs perfect for all your cooking needs.",
            "pics/egg2.webp", "Best Seller", true),
    Product("broiler-2kg", "Broiler Chicken - 2kg", "Broilers", 35, "per kg",
            "Tender and juicy broiler chickens, raised with care and proper nutrition.",
            "pics/broiler-chickens.jpg", "Premium", true),
    Product("broiler-3kg", "Broiler Chicken - 3kg", "Broilers", 33, "per kg",
            "Larger broiler chickens ideal for family meals and gatherings.",
            "pics/Broiler Poultry.jpg", "Family Size", true),
    Product("layer-pullet", "Layer Pullets - 18 Weeks", "Layers", 50, "per bird",
            "Point-of-lay pullets ready to start producing eggs. Vaccinated and healthy.",
            "pics/layer 1.avif", "Ready to Lay", true),
    Product("layer-mature", "Mature Layers - 24 Weeks", "Layers", 55, "per bird",
            "Mature laying hens in peak production. Excellent egg producers.",
            "pics/layer chik2.jpg", "High Yield", true)
  ]

  /** The test `p => p.id === productId`. */
  function HasId(productId: string): Product -> bool
  {
    (p: Product) => p.id == productId
  }

  /** `products.find(p => p.id === productId)`: the first product with that id, if any. */
  function FindProduct(products: seq<Product>, productId: string): (r: Option<Product>)
    ensures r.Some? ==> r.value in products && r.value.id == productId
    ensures r.None? <==> forall j :: 0 <= j < |products| ==> products[j].id != productId
  {
    match FirstIndex(products, HasId(productId))
    case Some(i) => Some(products[i])
    case None => None
  }

  /**
   * The guard of `addToCart`: the product to hand to the cart, present only
   * when the catalog has a product with that id and it is available.
   */
  function Purchasable(products: seq<Product>, productId: string): (r: Option<Product>)
    ensures r.Some? ==> r.value in products && r.value.id == productId && r.value.available
    ensures (forall j :: 0 <= j < |products| ==> products[j].id != productId || !products[j].available)
            ==> r.None?
  {
    match FindProduct(products, productId)
    case Some(p) => if p.available then Some(p) else None
    case None => None
  }

  /** No two products share an id. */
  predicate DistinctIds(products: seq<Product>)
  {
    forall i, k :: 0 <= i < k < |products| ==> products[i].id != products[k].id
  }

  /** The shop's catalog lists each id once. */
  lemma CatalogDistinctIds()
    ensures DistinctIds(PRODUCTS)
  {
  }

  /** When ids are distinct, the guard admits exactly the available products of the catalog. */
  lemma PurchasableExactly(products: seq<Product>, productId: string)
    requires DistinctIds(products)
    ensures Purchasable(products, productId).Some?
            <==> exists j :: 0 <= j < |products| && products[j].id == productId && products[j].available
  {
    if j :| 0 <= j < |products| && products[j].id == productId && products[j].available {
      var i := FirstIndex(products, HasId(productId));
      assert i.Some? && HasId(productId)(products[i.value]);
      assert i.value == j;
    }
  }

  /** On the shop's catalog, the guard admits exactly the ids of its available products. */
  lemma PurchasableOnCatalog(productId: string)
    ensures Purchasable(PRODUCTS, productId).Some?
            <==> exists j :: 0 <= j < |PRODUCTS| && PRODUCTS[j].id == productId && PRODUCTS[j].available
  {
    CatalogDistinctIds();
    PurchasableExactly(PRODUCTS, productId);
  }

  /** On the shop's catalog the guard admits the pullets, listed fifth. */
  lemma GuardAdmitsPullets()
    ensures Purchasable(PRODUCTS, "layer-pullet") == Some(PRODUCTS[4])
  {
    var test := HasId("layer-pullet");
    assert test(PRODUCTS[4]);
    forall j | 0 <= j < |PRODUCTS| && j != 4 ensures !test(PRODUCTS[j]) {
      assert PRODUCTS[j].id[..3] != "lay" || PRODUCTS[j].id[6] != "layer-pullet"[6];
    }
    var k := FirstIndex(PRODUCTS, test);
    assert k == Some(4);
  }

  /** On the shop's catalog the guard rejects an id it does not list. */
  lemma GuardRejectsUnknown()
    ensures Purchasable(PRODUCTS, "duck") == None
  {
    forall j | 0 <= j < |PRODUCTS| ensures PRODUCTS[j].id != "duck" {
      assert |PRODUCTS[j].id| > 4;
    }
  }

  /** `String.prototype.toLowerCase` on one character, for the ASCII letters. */
  function LowerChar(c: char): char
  {
    if 'A' <= c <= 'Z' then (c as int + 32) as char else c
  }

  /** `String.prototype.toLowerCase`, for the ASCII letters. */
  function Lower(s: string): (r: string)
    ensures |r| == |s|
    ensures forall i :: 0 <= i < |s| ==> r[i] == LowerChar(s[i])
  {
    seq(|s|, i requires 0 <= i < |s| => LowerChar(s[i]))
  }

  /** Lower-casing twice is lower-casing once. */
  lemma LowerIdempotent(s: string)
    ensures Lower(Lower(s)) == Lower(s)
  {
    assert forall i :: 0 <= i < |s| ==> LowerChar(LowerChar(s[i])) == LowerChar(s[i]);
  }

  /** The test `p => p.category.toLowerCase() === category.toLowerCase()`. */
  function InCategory(category: string): Product -> bool
  {
    (p: Product) => Lower(p.category) == Lower(category)
  }

  /**
   * The selection of `filterProducts`: the whole catalog for the literal
   * `'all'`, otherwise the products whose category equals `category` up to
   * case, in catalog order.
   */
  function FilterProducts(products: seq<Product>, category: string): (r: seq<Product>)
    ensures category == "all" ==> r == products
    ensures category != "all" ==>
              forall p :: p in r <==> p in products && Lower(p.category) == Lower(category)
  {
    if category == "all" then products else Filter(products, InCategory(category))
  }

  /** The selection keeps catalog order: it distributes over concatenation. */
  lemma FilterProductsConcat(a: seq<Product>, b: seq<Product>, category: string)
    ensures FilterProducts(a + b, category) == FilterProducts(a, category) + FilterProducts(b, category)
  {
    FilterConcat(a, b, InCategory(category));
  }

  /** Two category names that differ only in case select the same products (unless one is the literal `'all'`). */
  lemma FilterProductsIgnoresCase(products: seq<Product>, c1: string, c2: string)
    requires c1 != "all" && c2 != "all"
    requires Lower(c1) == Lower(c2)
    ensures FilterProducts(products, c1) == FilterProducts(products, c2)
  {
    FilterAgrees(products, InCategory(c1), InCategory(c2));
  }

  /** The categories of the catalog, case aside: two egg crates, then broilers and layers. */
  lemma CatalogCategories()
    ensures forall j :: 0 <= j < 2 ==> Lower(PRODUCTS[j].category) == "eggs"
    ensures forall j :: 2 <= j < |PRODUCTS| ==> Lower(PRODUCTS[j].category)[0] != 'e'
  {
    assert Lower("Eggs") == "eggs";
  }

  /** When the products of a category lead the list, the selection is exactly that prefix. */
  lemma FilterLeadingCategory(products: seq<Product>, k: nat, category: string)
    requires category != "all" && k <= |products|
    requires forall j :: 0 <= j < k ==> Lower(products[j].category) == Lower(category)
    requires forall j :: k <= j < |products| ==> Lower(products[j].category) != Lower(category)
    ensures FilterProducts(products, category) == products[..k]
  {
    var test := InCategory(category);
    forall j | 0 <= j < k ensures test(products[j]) {
    }
    forall j | k <= j < |products| ensures !test(products[j]) {
    }
    FilterPrefix(products, k, test);
  }

  /** The "Eggs" button, written in any case, selects the two egg crates. */
  lemma FilterEggs()
    ensures FilterProducts(PRODUCTS, "eggs") == PRODUCTS[..2]
  {
    assert Lower("eggs") == "eggs";
    CatalogCategories();
    FilterLeadingCategory(PRODUCTS, 2, "eggs");
  }
}
