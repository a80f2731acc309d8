/** The product catalog as the storefront script sees it, and the category
    filter applied when the shopper picks a category (public/js/main.js). */
module Catalog {
  import opened Lists

  /** A catalog entry. Prices are whole amounts of Naira. */
  datatype Product = Product(
    id: int,
    name: string,
    description: string,
    price: int,
    image: string,
    sizes: seq<string>,
    category: string)

  /** The value of the category selector that shows every product. */
  const AllCategories: string := "all"

  function InCategory(category: string): Product -> bool
  {
    (p: Product) => p.category == category
  }

  /** The list shown after the category selector changes: the whole list for
      "all", otherwise exactly the products of the chosen category. */
  function FilterByCategory(products: seq<Product>, category: string): (r: seq<Product>)
    ensures category == AllCategories ==> r == products
    ensures category != AllCategories ==>
      (forall i :: 0 <= i < |r| ==> r[i] in products && r[i].category == category)
    ensures category != AllCategories ==>
      (forall i :: 0 <= i < |products| && products[i].category == category ==> products[i] in r)
  {
    if category == AllCategories then products else Filter(products, InCategory(category))
  }

  /** The filter preserves catalog order: the shown products of one part of the
      catalog come before those of a later part. */
  lemma FilterByCategoryKeepsOrder(a: seq<Product>, b: seq<Product>, category: string)
    ensures FilterByCategory(a + b, category) == FilterByCategory(a, category) + FilterByCategory(b, category)
  {
    if category != AllCategories {
      FilterConcat(a, b, InCategory(category));
    }
  }

  /** A product of the chosen category is shown as often as it appears in the
      catalog; a product of another category is not shown at all. */
  lemma FilterByCategoryCount(products: seq<Product>, category: string, p: Product)
    ensures multiset(FilterByCategory(products, category))[p]
         == if category == AllCategories || p.category == category then multiset(products)[p] else 0
  {
    if category != AllCategories {
      FilterCount(products, InCategory(category), p);
    }
  }
}
