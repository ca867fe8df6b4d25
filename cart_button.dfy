/**
 * The cart button in the navigation bar: a badge with the cart's item count and a
 * click that either runs the caller's handler or opens the cart.
 */
module CartButton {
  import opened Cart

  /** What the badge shows: the count itself, or "99+" once the count passes 99. */
  datatype BadgeText = Number(n: int) | NinetyNinePlus

  /** The badge is rendered only when asked for and the cart holds at least one unit. */
  predicate BadgeVisible(showBadge: bool, totalItems: int)
    ensures BadgeVisible(showBadge, totalItems) ==> showBadge
    ensures BadgeVisible(showBadge, totalItems) ==> BadgeLabel(totalItems) != Number(0)
  {
    showBadge && totalItems > 0
  }

  function BadgeLabel(totalItems: int): (r: BadgeText)
    ensures r.NinetyNinePlus? <==> totalItems > 99
    ensures r.Number? ==> r.n == totalItems && r.n <= 99
  {
    if totalItems > 99 then NinetyNinePlus else Number(totalItems)
  }

  /** The badge reads the cart's `totalItems`, the sum of the quantities, not the number of
      lines: adding more units of a line already in the cart raises the badge's count by that
      many while the number of lines stays the same. */
  lemma BadgeCountsUnits(s: CartState, item: CartItem)
    requires NoDuplicateIds(s.items) && HasId(s.items, item.id)
    requires item.quantity > 0 && TotalQuantity(s.items) + item.quantity <= 99
    ensures var r := CartReducer(s, AddItem(item));
      && |r.items| == |s.items|
      && BadgeLabel(r.totalItems) == Number(TotalQuantity(s.items) + item.quantity)
      && BadgeVisible(true, r.totalItems) == (TotalQuantity(s.items) + item.quantity > 0)
  {
    AddExistingItem(s, item);
    AddItemTotals(s, item);
  }

  /** On a well-formed cart the badge shows exactly when the cart has a line. */
  lemma BadgeShownIffLines(s: CartState)
    requires WellFormed(s)
    ensures BadgeVisible(true, s.totalItems) <==> s.items != []
  {
    if s.items != [] {
      assert s.items[0].quantity > 0;
    }
  }

  /** Three units of one line show "3"; a hundred units of one line show "99+". */
  lemma OneLineBadge(line: CartItem)
    ensures BadgeLabel(CartReducer(InitialState, AddItem(line.(quantity := 3))).totalItems) == Number(3)
    ensures BadgeLabel(CartReducer(InitialState, AddItem(line.(quantity := 100))).totalItems) == NinetyNinePlus
  {
    AddItemTotals(InitialState, line.(quantity := 3));
    AddItemTotals(InitialState, line.(quantity := 100));
  }

  /** `handleClick`: with a handler supplied, the handler runs and the cart is left alone;
      without one, the cart opens. Exactly one of the two happens. */
  method HandleClick(hasOnClick: bool, cart: CartProvider) returns (calledOnClick: bool)
    modifies cart
    ensures calledOnClick == hasOnClick
    ensures hasOnClick ==> cart.state == old(cart.state)
    ensures !hasOnClick ==> cart.state == old(cart.state).(isOpen := true)
  {
    if hasOnClick {
      calledOnClick := true;
    } else {
      cart.OpenCart();
      calledOnClick := false;
    }
  }
}
