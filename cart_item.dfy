/**
 * One line of the open cart: the quantity buttons and the remove button. The
 * component keeps no state; it guards the requested quantity and forwards the
 * line's own id to the cart's `updateQuantity` and `removeItem`.
 */
module CartLine {
  import opened Common
  import opened Cart

  /** The three controls of a line. */
  datatype Control = Decrement | Increment | Remove

  /** `handleQuantityChange`: a request below 1 is dropped; otherwise the cart is asked to set
      exactly that quantity on this line. */
  function HandleQuantityChange(item: CartItem, newQuantity: int): (r: Option<CartAction>)
    ensures newQuantity < 1 <==> r.None?
    ensures r.Some? ==> r.value == UpdateQuantity(item.id, newQuantity)
  {
    if newQuantity < 1 then None else Some(UpdateQuantity(item.id, newQuantity))
  }

  /** `handleRemove`: the cart is asked to remove this line's id. */
  function HandleRemove(item: CartItem): (r: CartAction)
    ensures r.RemoveItem? && r.removeId == item.id
  {
    RemoveItem(item.id)
  }

  /** Whether a control is disabled: "−" at quantity 1 or below or while updating; "+" and
      remove only while updating. */
  predicate Disabled(item: CartItem, isUpdating: bool, c: Control)
    ensures isUpdating ==> Disabled(item, isUpdating, c)
    ensures !isUpdating ==> (Disabled(item, isUpdating, c) <==> c == Decrement && item.quantity <= 1)
  {
    match c
    case Decrement => item.quantity <= 1 || isUpdating
    case Increment => isUpdating
    case Remove => isUpdating
  }

  /** The cart action a click on a control dispatches, if any. */
  function Press(item: CartItem, isUpdating: bool, c: Control): (r: Option<CartAction>)
    ensures Disabled(item, isUpdating, c) ==> r.None?
    ensures c == Remove && !isUpdating ==> r == Some(RemoveItem(item.id))
    ensures c == Decrement && !Disabled(item, isUpdating, c) ==> r == Some(UpdateQuantity(item.id, item.quantity - 1))
    ensures c == Increment && !isUpdating && item.quantity >= 0 ==> r == Some(UpdateQuantity(item.id, item.quantity + 1))
  {
    if Disabled(item, isUpdating, c) then None
    else
      match c
      case Decrement => HandleQuantityChange(item, item.quantity - 1)
      case Increment => HandleQuantityChange(item, item.quantity + 1)
      case Remove => Some(HandleRemove(item))
  }

  /** The quantity buttons never remove a line: every action they dispatch to the cart leaves
      the line present with the new quantity, and only the remove button drops it. */
  lemma QuantityButtonsKeepLine(s: CartState, k: int, isUpdating: bool, c: Control)
    requires 0 <= k < |s.items|
    requires NoDuplicateIds(s.items)
    requires Press(s.items[k], isUpdating, c).Some?
    ensures var item := s.items[k];
      var r := CartReducer(s, Press(item, isUpdating, c).value);
      && (c != Remove ==> HasId(r.items, item.id) && QuantityOf(r.items, item.id) >= 1)
      && (c == Decrement ==> QuantityOf(r.items, item.id) == item.quantity - 1)
      && (c == Increment ==> QuantityOf(r.items, item.id) == item.quantity + 1)
      && (c == Remove ==> !HasId(r.items, item.id))
  {
    var item := s.items[k];
    var a := Press(item, isUpdating, c).value;
    if c != Remove {
      UpdateToPositiveSets(s, item.id, a.newQuantity);
      var r := CartReducer(s, a);
      assert r.items[k].id == item.id;
    }
  }

  /** The line total shown under the price. */
  function DisplayedLineTotal(item: CartItem): (r: real)
    ensures r == item.price * item.quantity as real
    ensures item.price >= 0.0 && item.quantity >= 0 ==> r >= 0.0
    ensures item.quantity == 1 ==> r == item.price
  {
    LineTotal(item)
  }

  /** The summary's subtotal is the `Subtotal` reduce over exactly the line totals the open cart
      shows, one per line. */
  lemma DisplayedLinesSumToSubtotal(s: CartState)
    requires TotalsConsistent(s)
    ensures s.subtotal == Subtotal(s.items)
    ensures forall i :: 0 <= i < |s.items| ==> DisplayedLineTotal(s.items[i]) == LineTotal(s.items[i])
  {
  }
}
