/**
 * The storefront's product records and the static catalogue with its four
 * filters. The catalogue keeps each entry's id, category, flags and numbers; its
 * descriptive text fields are left empty here.
 */
module ProductData {
  import opened Common

  /** A product as the cards and the detail page receive it. The three flags are optional:
      an absent flag reads as false. */
  datatype ProductCardProps = ProductCardProps(
    id: string,
    title: string,
    description: string,
    price: real,
    originalPrice: real,
    discount: real,
    rating: real,
    reviewCount: int,
    category: string,
    tags: seq<string>,
    image: string,
    isNew: Option<bool>,
    isFeatured: Option<bool>,
    isBestSeller: Option<bool>,
    downloadCount: int,
    fileSize: string,
    format: string,
    compatibility: seq<string>,
    features: seq<string>,
    createdAt: string,
    updatedAt: string)

  /** JavaScript truthiness of an optional flag. */
  predicate Truthy(flag: Option<bool>) {
    flag == Some(true)
  }

  const ProductCategories: seq<string> :=
    ["Reels Bundle", "AI Reels Bundle", "AI Cartoon Bundle", "Movies Clips", "Digital Assets", "Templates", "Graphics"]

  /** A catalogue entry with its text fields left empty. */
  function Entry(id: string, category: string, price: real, originalPrice: real, discount: real, rating: real,
                 downloadCount: int, isNew: Option<bool>, isFeatured: Option<bool>, isBestSeller: Option<bool>)
    : ProductCardProps
  {
    ProductCardProps(id, "", "", price, originalPrice, discount, rating, 0, category, [], "",
                     isNew, isFeatured, isBestSeller, downloadCount, "", "", [], [], "", "")
  }

  /** The eight catalogue entries, in catalogue order. */
  const DummyProducts: seq<ProductCardProps> := [
    Entry("1", "Reels Bundle", 2999.0, 5999.0, 50.0, 4.8, 15420, Some(true), Some(true), None),
    Entry("2", "AI Reels Bundle", 4999.0, 8999.0, 44.0, 4.9, 8930, None, Some(true), Some(true)),
    Entry("3", "AI Cartoon Bundle", 3999.0, 6999.0, 43.0, 4.7, 4560, Some(true), None, None),
    Entry("4", "Movies Clips", 7999.0, 12999.0, 38.0, 4.6, 2890, None, Some(true), None),
    Entry("5", "Digital Assets", 1999.0, 3999.0, 50.0, 4.5, 12340, None, None, None),
    Entry("6", "Templates", 3499.0, 5999.0, 42.0, 4.4, 6780, None, None, None),
    Entry("7", "Graphics", 2499.0, 4499.0, 44.0, 4.7, 18920, None, None, Some(true)),
    Entry("8", "AI Reels Bundle", 8999.0, 14999.0, 40.0, 4.8, 3450, Some(true), Some(true), None)
  ]

  // ---------------------------------------------------------------------------
  // The filters, over any product list and over the catalogue

  function InCategory(category: string): ProductCardProps -> bool {
    (p: ProductCardProps) => p.category == category
  }

  function FeaturedFlag(): ProductCardProps -> bool {
    (p: ProductCardProps) => Truthy(p.isFeatured)
  }

  function NewFlag(): ProductCardProps -> bool {
    (p: ProductCardProps) => Truthy(p.isNew)
  }

  function BestSellerFlag(): ProductCardProps -> bool {
    (p: ProductCardProps) => Truthy(p.isBestSeller)
  }

  /** A filter over a product list returns exactly the products that pass, in list order. */
  lemma FilterExactly(products: seq<ProductCardProps>, p: ProductCardProps -> bool)
    ensures var r := Filter(products, p);
      && (forall i :: 0 <= i < |r| ==> p(r[i]))
      && (forall i :: 0 <= i < |products| ==> (products[i] in r <==> p(products[i])))
      && IsSubsequence(r, products)
  {
    FilterIsSubsequence(products, p);
  }

  /** `getProductsByCategory`: exactly the catalogue entries of that category, in catalogue
      order. */
  function GetProductsByCategory(category: string): (r: seq<ProductCardProps>)
    ensures forall i :: 0 <= i < |r| ==> r[i].category == category
    ensures forall i :: 0 <= i < |DummyProducts| ==>
      (DummyProducts[i] in r <==> DummyProducts[i].category == category)
    ensures IsSubsequence(r, DummyProducts)
  {
    FilterExactly(DummyProducts, InCategory(category));
    Filter(DummyProducts, InCategory(category))
  }

  /** `getFeaturedProducts`: exactly the entries whose flag is present and true, in catalogue
      order; an absent flag excludes the entry. */
  function GetFeaturedProducts(): (r: seq<ProductCardProps>)
    ensures forall i :: 0 <= i < |r| ==> r[i].isFeatured == Some(true)
    ensures forall i :: 0 <= i < |DummyProducts| ==>
      (DummyProducts[i] in r <==> DummyProducts[i].isFeatured == Some(true))
    ensures IsSubsequence(r, DummyProducts)
  {
    FilterExactly(DummyProducts, FeaturedFlag());
    Filter(DummyProducts, FeaturedFlag())
  }

  /** `getNewProducts`: the same for the "new" flag. */
  function GetNewProducts(): (r: seq<ProductCardProps>)
    ensures forall i :: 0 <= i < |r| ==> r[i].isNew == Some(true)
    ensures forall i :: 0 <= i < |DummyProducts| ==>
      (DummyProducts[i] in r <==> DummyProducts[i].isNew == Some(true))
    ensures IsSubsequence(r, DummyProducts)
  {
    FilterExactly(DummyProducts, NewFlag());
    Filter(DummyProducts, NewFlag())
  }

  /** `getBestSellers`: the same for the best-seller flag. */
  function GetBestSellers(): (r: seq<ProductCardProps>)
    ensures forall i :: 0 <= i < |r| ==> r[i].isBestSeller == Some(true)
    ensures forall i :: 0 <= i < |DummyProducts| ==>
      (DummyProducts[i] in r <==> DummyProducts[i].isBestSeller == Some(true))
    ensures IsSubsequence(r, DummyProducts)
  {
    FilterExactly(DummyProducts, BestSellerFlag());
    Filter(DummyProducts, BestSellerFlag())
  }

  /** A category yields nothing exactly when no product of the list has it; in particular a
      category the catalogue does not use yields an empty list. */
  lemma CategoryEmptyIff(products: seq<ProductCardProps>, category: string)
    ensures Filter(products, InCategory(category)) == [] <==>
      forall i :: 0 <= i < |products| ==> products[i].category != category
  {
    var r := Filter(products, InCategory(category));
    if r != [] {
      assert r[0] in products;
    }
  }
}
