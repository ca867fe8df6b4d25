/**
 * The product detail panel: the quantity picker clamped to 1..10, the add-to-cart
 * and buy-now buttons, the savings block, the limited-offer banner, and the star
 * row and download label, which reuse the product card's definitions.
 */
module ProductInfo {
  import opened Common
  import opened Cart
  import opened ProductData
  import opened ProductCard
  import opened CategorySection

  const MinQuantity: int := 1
  const MaxQuantity: int := 10

  /** `Math.max(1, Math.min(10, n))`. */
  function ClampQuantity(n: int): (r: int)
    ensures MinQuantity <= r <= MaxQuantity
    ensures MinQuantity <= n <= MaxQuantity ==> r == n
    ensures n < MinQuantity ==> r == MinQuantity
    ensures n > MaxQuantity ==> r == MaxQuantity
  {
    if n < MinQuantity then MinQuantity else if n > MaxQuantity then MaxQuantity else n
  }

  /** Clamping twice is clamping once. */
  lemma ClampIdempotent(n: int)
    ensures ClampQuantity(ClampQuantity(n)) == ClampQuantity(n)
  {
    var r := ClampQuantity(n);
    assert MinQuantity <= r <= MaxQuantity;
  }

  /** The line both action buttons add: the product's line with the picked quantity. */
  function InfoLine(p: ProductCardProps, quantity: int): (line: CartItem)
    ensures line == CartLineFor(p).(quantity := quantity)
    ensures line.id == p.id && line.price == p.price && line.quantity == quantity
  {
    CartLineFor(p).(quantity := quantity)
  }

  /** The panel: the savings amount when the original price is higher, whether the
      limited-offer banner shows, the tags and features, the star row and the download label.
      The panel's own `renderStars` and `formatDownloadCount` have the same bodies as the
      card's, so the card's `Stars` and `FormatDownloadCount` serve for both. */
  datatype PriceView = PriceView(
    savings: Option<real>,
    offerBanner: bool,
    tags: seq<string>,
    features: seq<string>,
    stars: seq<Star>,
    downloads: DownloadLabel)

  function ViewPrice(p: ProductCardProps): (r: PriceView)
    ensures r.savings.Some? <==> p.originalPrice > p.price
    ensures r.savings.Some? ==> r.savings.value == p.originalPrice - p.price && r.savings.value > 0.0
    ensures r.offerBanner <==> p.discount > 0.0
    ensures r.tags == Take(p.tags, 3) && |r.tags| == Min(|p.tags|, 3) && r.tags <= p.tags
    ensures r.features == p.features
    ensures r.stars == Stars(p.rating)
    ensures r.downloads == FormatDownloadCount(p.downloadCount)
  {
    PriceView(
      if p.originalPrice > p.price then Some(p.originalPrice - p.price) else None,
      p.discount > 0.0,
      Take(p.tags, 3),
      p.features,
      Stars(p.rating),
      FormatDownloadCount(p.downloadCount))
  }

  /** Adding from the detail panel with a picked quantity q puts q more units in the cart: the
      badge total rises by q, and a product not yet in the cart gets a line of quantity q at
      its own price, which adds that price times q to the subtotal (`PanelLineTotal`). */
  lemma AddFromPanel(s: CartState, p: ProductCardProps, q: int)
    requires NoDuplicateIds(s.items)
    ensures var r := CartReducer(s, AddItem(InfoLine(p, q)));
      && r.totalItems == TotalQuantity(s.items) + q
      && NoDuplicateIds(r.items)
      && (!HasId(s.items, p.id) ==>
            r.items == s.items + [InfoLine(p, q)] && r.subtotal == Subtotal(s.items) + LineTotal(InfoLine(p, q)))
  {
    var line := InfoLine(p, q);
    AddItemTotals(s, line);
    if HasId(s.items, line.id) {
      AddExistingItem(s, line);
    } else {
      AddNewItem(s, line);
    }
  }

  /** The panel's line costs the product's price times the picked quantity. */
  lemma PanelLineTotal(p: ProductCardProps, q: int)
    ensures LineTotal(InfoLine(p, q)) == p.price * q as real
    ensures p.price >= 0.0 && q >= 1 ==> LineTotal(InfoLine(p, q)) >= p.price
  {
    var line := InfoLine(p, q);
    assert line.price == p.price && line.quantity == q;
    if p.price >= 0.0 && q >= 1 {
      assert p.price * q as real - p.price == p.price * (q - 1) as real;
    }
  }

  /** The panel's own state: the picked quantity and the wishlist flag. */
  class InfoState {
    var quantity: int
    var isWishlisted: bool

    predicate Valid()
      reads this
    {
      MinQuantity <= quantity <= MaxQuantity
    }

    constructor ()
      ensures Valid() && quantity == 1 && !isWishlisted
    {
      quantity := 1;
      isWishlisted := false;
    }

    /** `handleQuantityChange`. */
    method HandleQuantityChange(n: int)
      modifies this
      ensures Valid()
      ensures quantity == ClampQuantity(n) && isWishlisted == old(isWishlisted)
    {
      quantity := ClampQuantity(n);
    }

    /** The "−" button: disabled at quantity 1 or below, otherwise one less. */
    method PressMinus()
      requires Valid()
      modifies this
      ensures Valid()
      ensures old(quantity) <= MinQuantity ==> quantity == old(quantity)
      ensures old(quantity) > MinQuantity ==> quantity == old(quantity) - 1
    {
      if quantity > MinQuantity {
        HandleQuantityChange(quantity - 1);
      }
    }

    /** The "+" button: disabled at quantity 10 or above, otherwise one more. */
    method PressPlus()
      requires Valid()
      modifies this
      ensures Valid()
      ensures old(quantity) >= MaxQuantity ==> quantity == old(quantity)
      ensures old(quantity) < MaxQuantity ==> quantity == old(quantity) + 1
    {
      if quantity < MaxQuantity {
        HandleQuantityChange(quantity + 1);
      }
    }

    /** `handleWishlist`. */
    method HandleWishlist()
      modifies this
      ensures isWishlisted == !old(isWishlisted) && quantity == old(quantity)
    {
      isWishlisted := !isWishlisted;
    }

    /** `handleAddToCart`, which both "Add to Cart" and "Buy Now" run: one ADD_ITEM with the
        picked quantity. */
    method HandleAddToCart(p: ProductCardProps, cart: CartProvider)
      requires Valid()
      modifies cart
      ensures cart.state == CartReducer(old(cart.state), AddItem(InfoLine(p, quantity)))
    {
      cart.AddItem(InfoLine(p, quantity));
    }
  }
}
