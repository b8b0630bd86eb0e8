/**
 * The static catalogue (`src/data/products.ts`): its twelve listings and its two lookups, a product
 * by id (the first one listed with that id) and a category's products in catalogue order.
 */
module Catalog {
  import opened Wrappers
  import opened Schemas
  import ProductDetail

  /**
   * A catalogue entry, with the fields the lookups and the catalogue's invariants touch; prices are
   * whole rupees, and the image is the asset the entry imports.
   */
  datatype Product = Product(
    id: string,
    name: string,
    price: int,
    originalPrice: Option<int>,
    image: string,
    images: seq<string>,
    category: Category,
    inStock: bool)

  const ShawlImage := "@/assets/shawls/pashmina-shawl.jpg"
  const PheranImage := "@/assets/pherans/pheran.jpg"
  const HandbagImage := "@/assets/handbags/handbag.jpg"
  const DryFruitsImage := "@/assets/dry-fruits/dry-fruits.jpg"
  const GiftHamperImage := "@/assets/gift-hampers/gift-hamper.jpg"

  /** The `products` array, in its order. */
  const Products: seq<Product> := [
    Product("shawl-001", "Royal Kashmiri Pashmina", 45000, Some(55000), ShawlImage, [ShawlImage], Shawls, true),
    Product("shawl-002", "Jamawar Heritage Shawl", 65000, Some(75000), ShawlImage, [ShawlImage], Shawls, true),
    Product("shawl-003", "Embroidered Pashmina Stole", 28000, None, ShawlImage, [ShawlImage], Shawls, true),
    Product("pheran-001", "Traditional Kashmiri Pheran", 12000, Some(15000), PheranImage, [PheranImage], Pherans, true),
    Product("pheran-002", "Designer Pheran Kurta", 18000, None, PheranImage, [PheranImage], Pherans, true),
    Product("handbag-001", "Kashmiri Crewel Handbag", 8500, Some(10000), HandbagImage, [HandbagImage], Handbags, true),
    Product("handbag-002", "Papier Mache Clutch", 4500, None, HandbagImage, [HandbagImage], Handbags, true),
    Product("dryfruit-001", "Premium Kashmiri Walnuts", 1200, Some(1500), DryFruitsImage, [DryFruitsImage], DryFruits, true),
    Product("dryfruit-002", "Kashmiri Saffron (Kesar)", 3500, None, DryFruitsImage, [DryFruitsImage], DryFruits, true),
    Product("dryfruit-003", "Organic Almonds", 950, None, DryFruitsImage, [DryFruitsImage], DryFruits, true),
    Product("gift-001", "Royal Kashmir Collection", 5500, Some(6500), GiftHamperImage, [GiftHamperImage], GiftHampers, true),
    Product("gift-002", "Wellness Gift Box", 3800, None, GiftHamperImage, [GiftHamperImage], GiftHampers, true)]

  /** `products.find(p => p.id === id)`: the first product listed with the id, if any. */
  function GetProductById(products: seq<Product>, id: string): (r: Option<Product>)
    ensures r.None? <==> forall i :: 0 <= i < |products| ==> products[i].id != id
    ensures r.Some? ==> r.value in products && r.value.id == id
  {
    if products == [] then None
    else if products[0].id == id then Some(products[0])
    else GetProductById(products[1..], id)
  }

  /** `products.filter(p => p.category === category)`. */
  function GetProductsByCategory(products: seq<Product>, category: Category): (r: seq<Product>)
    ensures forall p :: p in r <==> p in products && p.category == category
    ensures |r| <= |products|
  {
    if products == [] then []
    else (if products[0].category == category then [products[0]] else []) + GetProductsByCategory(products[1..], category)
  }

  /** When several products share an id, the one listed first is found. */
  lemma {:induction false} FirstMatchWins(products: seq<Product>, id: string, k: nat)
    requires k < |products| && products[k].id == id
    requires forall j :: 0 <= j < k ==> products[j].id != id
    ensures GetProductById(products, id) == Some(products[k])
  {
    if k > 0 {
      FirstMatchWins(products[1..], id, k - 1);
    }
  }

  predicate DistinctIds(products: seq<Product>) {
    forall i, j :: 0 <= i < j < |products| ==> products[i].id != products[j].id
  }

  /** With distinct ids, looking a listed product up by its id gives that product. */
  lemma LookupListedProduct(products: seq<Product>, k: nat)
    requires DistinctIds(products) && k < |products|
    ensures GetProductById(products, products[k].id) == Some(products[k])
  {
    FirstMatchWins(products, products[k].id, k);
  }

  /** A category's products keep the catalogue's order. */
  lemma {:induction false} CategoryKeepsOrder(products: seq<Product>, category: Category)
    ensures ProductDetail.IsSubsequence(GetProductsByCategory(products, category), products)
  {
    if products != [] {
      CategoryKeepsOrder(products[1..], category);
      var rest := GetProductsByCategory(products[1..], category);
      if products[0].category == category {
        assert GetProductsByCategory(products, category) == [products[0]] + rest;
        assert ([products[0]] + rest)[1..] == rest;
      } else {
        assert GetProductsByCategory(products, category) == rest;
      }
    }
  }

  /** Every product is on exactly one category page: the five lists together hold the whole catalogue. */
  lemma {:induction false} CategoriesPartition(products: seq<Product>)
    ensures |GetProductsByCategory(products, Shawls)| + |GetProductsByCategory(products, Pherans)|
      + |GetProductsByCategory(products, Handbags)| + |GetProductsByCategory(products, DryFruits)|
      + |GetProductsByCategory(products, GiftHampers)| == |products|
  {
    if products != [] {
      CategoriesPartition(products[1..]);
    }
  }

  /** The catalogue's ids are pairwise distinct, and each entry's image is among its images. */
  lemma CatalogueWellFormed()
    ensures DistinctIds(Products)
    ensures forall i :: 0 <= i < |Products| ==> Products[i].image in Products[i].images
  {
  }

  /** Every catalogue entry is found by its own id. */
  lemma CatalogueLookup(k: nat)
    requires k < |Products|
    ensures GetProductById(Products, Products[k].id) == Some(Products[k])
  {
    CatalogueWellFormed();
    LookupListedProduct(Products, k);
  }
}
