/**
 * The home page's category section: the products of the selected category, the
 * sort orders the visitor can pick, the product count on each category tile, and
 * the cart line built when a product is added.
 */
module CategorySection {
  import opened Common
  import opened Sorting
  import opened Cart
  import opened ProductData
  import opened ProductCard

  /** `categoryProducts[selected] || []`: an unknown category has no products. */
  function CurrentProducts(catalogue: map<string, seq<ProductCardProps>>, selected: string): (r: seq<ProductCardProps>)
    ensures selected in catalogue ==> r == catalogue[selected]
    ensures selected !in catalogue ==> r == []
  {
    if selected in catalogue then catalogue[selected] else []
  }

  /** A tile's `productCount`: the length of its category's list. */
  function ProductCount(catalogue: map<string, seq<ProductCardProps>>, id: string): (n: nat)
    requires id in catalogue
    ensures n == |catalogue[id]|
  {
    |catalogue[id]|
  }

  /** The sort key each choice compares by, smallest first; `b.x - a.x` comparators become
      the negated key. "newest" compares creation times, whose date parsing is the parameter
      `createdTime`. Any other choice (the default "featured") has none. */
  function SortKey(sortBy: string, createdTime: ProductCardProps -> real): Option<ProductCardProps -> real> {
    if sortBy == "price-low" then Some((p: ProductCardProps) => p.price)
    else if sortBy == "price-high" then Some((p: ProductCardProps) => -p.price)
    else if sortBy == "rating" then Some((p: ProductCardProps) => -p.rating)
    else if sortBy == "newest" then Some((p: ProductCardProps) => -createdTime(p))
    else if sortBy == "popular" then Some((p: ProductCardProps) => -(p.downloadCount as real))
    else None
  }

  /** `sortedProducts`: a sorted copy of the current products (`Array.prototype.sort` is
      stable), or the copy unchanged for "featured" and any unrecognised choice. */
  function SortedProducts(current: seq<ProductCardProps>, sortBy: string, createdTime: ProductCardProps -> real)
    : (r: seq<ProductCardProps>)
    ensures |r| == |current| && multiset(r) == multiset(current)
    ensures sortBy == "price-low" ==> forall i, j :: 0 <= i < j < |r| ==> r[i].price <= r[j].price
    ensures sortBy == "price-high" ==> forall i, j :: 0 <= i < j < |r| ==> r[i].price >= r[j].price
    ensures sortBy == "rating" ==> forall i, j :: 0 <= i < j < |r| ==> r[i].rating >= r[j].rating
    ensures sortBy == "popular" ==> forall i, j :: 0 <= i < j < |r| ==> r[i].downloadCount >= r[j].downloadCount
    ensures sortBy == "newest" ==> forall i, j :: 0 <= i < j < |r| ==> createdTime(r[i]) >= createdTime(r[j])
    ensures sortBy !in {"price-low", "price-high", "rating", "newest", "popular"} ==> r == current
  {
    match SortKey(sortBy, createdTime)
    case None => current
    case Some(key) =>
      var r := SortBy(current, key);
      assert forall i, j :: 0 <= i < j < |r| ==> key(r[i]) <= key(r[j]);
      r
  }

  /** Every sort is stable: the products that tie on the compared field appear in the same
      relative order as in the category's list. */
  lemma SortIsStable(current: seq<ProductCardProps>, sortBy: string, createdTime: ProductCardProps -> real, k: real)
    requires SortKey(sortBy, createdTime).Some?
    ensures var key := SortKey(sortBy, createdTime).value;
      WithKey(SortedProducts(current, sortBy, createdTime), key, k) == WithKey(current, key, k)
  {
    SortByIsStable(current, SortKey(sortBy, createdTime).value, k);
  }

  /** `handleAddToCart`: the cart line for one unit of the product, priced at its price. */
  function CartLineFor(p: ProductCardProps): (line: CartItem)
    ensures line.id == p.id && line.name == p.title && line.price == p.price
    ensures line.quantity == 1 && line.serviceType == "digital_product"
    ensures line.description == p.description && line.image == p.image && line.category == p.category
  {
    CartItem(p.id, p.title, p.description, p.price, 1, p.image, p.category, "digital_product")
  }

  /** Adding from the category grid puts one more unit of the product in the cart: a new line
      at the end when the id is absent, otherwise one more on the existing line; and the
      card's blanked dates make no difference to the line. */
  lemma AddFromGrid(s: CartState, p: ProductCardProps)
    requires NoDuplicateIds(s.items)
    ensures CartLineFor(Payload(p)) == CartLineFor(p)
    ensures var r := CartReducer(s, AddItem(CartLineFor(p)));
      && r.totalItems == TotalQuantity(s.items) + 1
      && NoDuplicateIds(r.items)
      && (!HasId(s.items, p.id) ==> r.items == s.items + [CartLineFor(p)])
      && (HasId(s.items, p.id) ==> |r.items| == |s.items| && QuantityOf(r.items, p.id) == QuantityOf(s.items, p.id) + 1)
  {
    var line := CartLineFor(p);
    AddItemTotals(s, line);
    if HasId(s.items, p.id) {
      AddExistingItem(s, line);
      var r := CartReducer(s, AddItem(line));
      var k :| 0 <= k < |s.items| && s.items[k].id == p.id;
      FindUnique(s.items, p.id, k);
      FindUnique(r.items, p.id, k);
    } else {
      AddNewItem(s, line);
    }
  }
}
