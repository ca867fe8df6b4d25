/**
 * The shopping cart: its state, the pricing helper that derives the totals from
 * the lines, the reducer over the eight cart actions, and the provider object
 * that holds one state cell and replaces it through the reducer.
 */
module Cart {
  import opened Common

  /** One cart line; `id` is the line's identity. */
  datatype CartItem = CartItem(
    id: string,
    name: string,
    description: string,
    price: real,
    quantity: int,
    image: string,
    category: string,
    serviceType: string)

  datatype CartState = CartState(
    items: seq<CartItem>,
    isOpen: bool,
    totalItems: int,
    subtotal: real,
    tax: real,
    total: real,
    appliedCoupon: Option<string>,
    couponDiscount: real)

  /** The closed set of actions the reducer understands. */
  datatype CartAction =
    | AddItem(item: CartItem)
    | RemoveItem(removeId: string)
    | UpdateQuantity(updateId: string, newQuantity: int)
    | ClearCart
    | SetCartOpen(open: bool)
    | ApplyCoupon(code: string, discount: real)
    | RemoveCoupon
    | LoadCart(loaded: seq<CartItem>)

  /** The fixed 8% tax rate. */
  const TAX_RATE: real := 0.08

  /** The empty, closed cart with no coupon. */
  const InitialState: CartState := CartState([], false, 0, 0.0, 0.0, 0.0, None, 0.0)

  // ---------------------------------------------------------------------------
  // Sums over the lines

  /** Every line has a non-negative price and a positive quantity. */
  ghost predicate PricedLines(items: seq<CartItem>) {
    forall i :: 0 <= i < |items| ==> items[i].price >= 0.0 && items[i].quantity > 0
  }

  /** Sum of the lines' quantities: with positive quantities, at least one unit per line. */
  function TotalQuantity(items: seq<CartItem>): (r: int)
    ensures PricedLines(items) ==> r >= |items|
  {
    if items == [] then 0 else items[0].quantity + TotalQuantity(items[1..])
  }

  /** `item.price * item.quantity`: what one line costs. */
  function LineTotal(x: CartItem): (r: real)
    ensures x.price >= 0.0 && x.quantity >= 0 ==> r >= 0.0
    ensures x.quantity == 0 ==> r == 0.0
    ensures x.quantity == 1 ==> r == x.price
  {
    x.price * x.quantity as real
  }

  /** Sum of the line totals: never negative while prices and quantities are not. */
  function Subtotal(items: seq<CartItem>): (r: real)
    ensures PricedLines(items) ==> r >= 0.0
  {
    if items == [] then 0.0 else LineTotal(items[0]) + Subtotal(items[1..])
  }

  /** `Math.max(0, x)`. */
  function NonNegative(x: real): (r: real)
    ensures r >= 0.0 && r >= x
    ensures r == x || r == 0.0
  {
    if x < 0.0 then 0.0 else x
  }

  /** The four derived fields agree with the lines and the coupon discount. */
  ghost predicate TotalsConsistent(s: CartState) {
    && s.totalItems == TotalQuantity(s.items)
    && s.subtotal == Subtotal(s.items)
    && s.tax == s.subtotal * TAX_RATE
    && s.total == NonNegative(s.subtotal + s.tax - s.couponDiscount)
  }

  // ---------------------------------------------------------------------------
  // Line lookups and line edits

  predicate HasId(items: seq<CartItem>, id: string) {
    exists i :: 0 <= i < |items| && items[i].id == id
  }

  /** No two lines share an id. */
  ghost predicate NoDuplicateIds(items: seq<CartItem>) {
    forall i, j :: 0 <= i < j < |items| ==> items[i].id != items[j].id
  }

  /** `items.find(item => item.id === id)`: the first line with that id. */
  function FindItem(items: seq<CartItem>, id: string): (r: Option<CartItem>)
    ensures r.None? <==> !HasId(items, id)
    ensures r.Some? ==> exists i :: 0 <= i < |items| && items[i] == r.value && r.value.id == id
                                     && forall j :: 0 <= j < i ==> items[j].id != id
  {
    if items == [] then None
    else if items[0].id == id then Some(items[0])
    else
      var r := FindItem(items[1..], id);
      assert HasId(items, id) ==> HasId(items[1..], id) by {
        if HasId(items, id) {
          var i :| 0 <= i < |items| && items[i].id == id;
          assert items[1..][i - 1].id == id;
        }
      }
      assert r.Some? ==> HasId(items, id) by {
        if r.Some? {
          var i :| 0 <= i < |items[1..]| && items[1..][i] == r.value && r.value.id == id
                   && forall j :: 0 <= j < i ==> items[1..][j].id != id;
          assert items[i + 1] == r.value;
          assert forall j :: 0 <= j < i + 1 ==> items[j].id != id by {
            forall j | 0 <= j < i + 1 ensures items[j].id != id {
              if j > 0 { assert items[j] == items[1..][j - 1]; }
            }
          }
        }
      }
      r
  }

  /** The quantity of the first line with that id, or 0 when there is none. */
  function QuantityOf(items: seq<CartItem>, id: string): int {
    match FindItem(items, id)
    case Some(line) => line.quantity
    case None => 0
  }

  /** The price of the first line with that id, or 0 when there is none. */
  function PriceOf(items: seq<CartItem>, id: string): real {
    match FindItem(items, id)
    case Some(line) => line.price
    case None => 0.0
  }

  /** `items.map(item => item.id === id ? {...item, quantity: item.quantity + q} : item)` */
  function IncreaseQuantity(items: seq<CartItem>, id: string, q: int): (r: seq<CartItem>)
    ensures |r| == |items|
    ensures forall i :: 0 <= i < |items| ==>
      r[i] == if items[i].id == id then items[i].(quantity := items[i].quantity + q) else items[i]
  {
    if items == [] then []
    else
      var head := if items[0].id == id then items[0].(quantity := items[0].quantity + q) else items[0];
      [head] + IncreaseQuantity(items[1..], id, q)
  }

  /** `items.map(item => item.id === id ? {...item, quantity: q} : item)` */
  function SetQuantity(items: seq<CartItem>, id: string, q: int): (r: seq<CartItem>)
    ensures |r| == |items|
    ensures forall i :: 0 <= i < |items| ==>
      r[i] == if items[i].id == id then items[i].(quantity := q) else items[i]
  {
    if items == [] then []
    else
      var head := if items[0].id == id then items[0].(quantity := q) else items[0];
      [head] + SetQuantity(items[1..], id, q)
  }

  /** `items.filter(item => item.id !== id)` */
  function WithoutId(items: seq<CartItem>, id: string): (r: seq<CartItem>)
    ensures |r| <= |items|
    ensures forall i :: 0 <= i < |r| ==> r[i].id != id && r[i] in items
    ensures forall i :: 0 <= i < |items| && items[i].id != id ==> items[i] in r
  {
    if items == [] then []
    else if items[0].id != id then [items[0]] + WithoutId(items[1..], id)
    else WithoutId(items[1..], id)
  }

  /** ADD_ITEM's line edit: raise the quantity of the lines with that id, or append the line. */
  function AddLine(items: seq<CartItem>, item: CartItem): (r: seq<CartItem>)
    ensures HasId(r, item.id)
  {
    if HasId(items, item.id) then
      var updated := IncreaseQuantity(items, item.id, item.quantity);
      assert HasId(updated, item.id) by {
        var i :| 0 <= i < |items| && items[i].id == item.id;
        assert updated[i].id == item.id;
      }
      updated
    else
      var appended := items + [item];
      assert appended[|items|].id == item.id;
      appended
  }

  // ---------------------------------------------------------------------------
  // The pricing helper and the reducer

  /** `calculateCartTotals`: recompute the four derived fields; nothing else changes. */
  function CalculateCartTotals(s: CartState): (r: CartState)
    ensures TotalsConsistent(r)
    ensures r.items == s.items && r.isOpen == s.isOpen
    ensures r.appliedCoupon == s.appliedCoupon && r.couponDiscount == s.couponDiscount
    ensures r.total >= 0.0
  {
    var subtotal := Subtotal(s.items);
    var tax := subtotal * TAX_RATE;
    s.(totalItems := TotalQuantity(s.items),
       subtotal := subtotal,
       tax := tax,
       total := NonNegative(subtotal + tax - s.couponDiscount))
  }

  /** `cartReducer`: the new state after one action. */
  function CartReducer(s: CartState, a: CartAction): (r: CartState)
    ensures a.SetCartOpen? ==> r == s.(isOpen := a.open)
    ensures a.ApplyCoupon? ==>
      r == s.(appliedCoupon := Some(a.code), couponDiscount := a.discount,
              total := NonNegative(s.subtotal + s.tax - a.discount))
    ensures a.RemoveCoupon? ==>
      r == s.(appliedCoupon := None, couponDiscount := 0.0, total := s.subtotal + s.tax)
    ensures a.ClearCart? ==>
      r == s.(items := [], appliedCoupon := None, couponDiscount := 0.0,
              totalItems := 0, subtotal := 0.0, tax := 0.0, total := 0.0)
    ensures a.AddItem? || a.RemoveItem? || a.UpdateQuantity? || a.LoadCart? ==>
      TotalsConsistent(r) && r.isOpen == s.isOpen
      && r.appliedCoupon == s.appliedCoupon && r.couponDiscount == s.couponDiscount
    ensures a.LoadCart? ==> r.items == a.loaded
    ensures a.RemoveItem? ==> !HasId(r.items, a.removeId)
    ensures a.UpdateQuantity? && a.newQuantity <= 0 ==> !HasId(r.items, a.updateId)
    ensures a.AddItem? ==> r.items == AddLine(s.items, a.item)
  {
    match a
    case AddItem(item) =>
      CalculateCartTotals(s.(items := AddLine(s.items, item)))
    case RemoveItem(id) =>
      CalculateCartTotals(s.(items := WithoutId(s.items, id)))
    case UpdateQuantity(id, quantity) =>
      if quantity <= 0 then CalculateCartTotals(s.(items := WithoutId(s.items, id)))
      else CalculateCartTotals(s.(items := SetQuantity(s.items, id, quantity)))
    case ClearCart =>
      s.(items := [], appliedCoupon := None, couponDiscount := 0.0,
         totalItems := 0, subtotal := 0.0, tax := 0.0, total := 0.0)
    case SetCartOpen(open) =>
      s.(isOpen := open)
    case ApplyCoupon(code, discount) =>
      s.(appliedCoupon := Some(code), couponDiscount := discount,
         total := NonNegative(s.subtotal + s.tax - discount))
    case RemoveCoupon =>
      s.(appliedCoupon := None, couponDiscount := 0.0, total := s.subtotal + s.tax)
    case LoadCart(loaded) =>
      CalculateCartTotals(s.(items := loaded))
  }

  // ---------------------------------------------------------------------------
  // Lemmas about the sums

  lemma {:induction false} TotalQuantityAppend(items: seq<CartItem>, x: CartItem)
    ensures TotalQuantity(items + [x]) == TotalQuantity(items) + x.quantity
    ensures Subtotal(items + [x]) == Subtotal(items) + LineTotal(x)
  {
    if items != [] {
      assert (items + [x])[1..] == items[1..] + [x];
      TotalQuantityAppend(items[1..], x);
    }
  }

  lemma {:induction false} NoDuplicateIdsTail(items: seq<CartItem>)
    requires items != [] && NoDuplicateIds(items)
    ensures NoDuplicateIds(items[1..])
    ensures forall i :: 0 <= i < |items[1..]| ==> items[1..][i].id != items[0].id
  {
    forall i | 0 <= i < |items[1..]| ensures items[1..][i].id != items[0].id {
      assert items[1..][i] == items[i + 1];
    }
  }

  /** With unique ids, the first line carrying an id is the only one. */
  lemma FindUnique(items: seq<CartItem>, id: string, k: int)
    requires NoDuplicateIds(items) && 0 <= k < |items| && items[k].id == id
    ensures FindItem(items, id) == Some(items[k])
    ensures QuantityOf(items, id) == items[k].quantity && PriceOf(items, id) == items[k].price
  {
    assert HasId(items, id);
  }

  /** Adding to an id that no line has changes nothing. */
  lemma IncreaseQuantityAbsent(items: seq<CartItem>, id: string, q: int)
    requires forall i :: 0 <= i < |items| ==> items[i].id != id
    ensures IncreaseQuantity(items, id, q) == items
  {
  }

  /** With unique ids, adding `q` to the line at `k` raises the quantity sum by `q` and the
      subtotal by that line's price times `q`. */
  lemma {:induction false} IncreaseQuantitySums(items: seq<CartItem>, id: string, q: int, k: int)
    requires NoDuplicateIds(items) && 0 <= k < |items| && items[k].id == id
    ensures TotalQuantity(IncreaseQuantity(items, id, q)) == TotalQuantity(items) + q
    ensures Subtotal(IncreaseQuantity(items, id, q)) == Subtotal(items) + LineTotal(items[k].(quantity := q))
  {
    var r := IncreaseQuantity(items, id, q);
    NoDuplicateIdsTail(items);
    assert r[1..] == IncreaseQuantity(items[1..], id, q);
    if k == 0 {
      IncreaseQuantityAbsent(items[1..], id, q);
      var x := items[0];
      assert r[0] == x.(quantity := x.quantity + q);
      assert LineTotal(r[0]) == LineTotal(x) + LineTotal(x.(quantity := q));
    } else {
      assert items[0].id != id;
      assert items[1..][k - 1] == items[k];
      IncreaseQuantitySums(items[1..], id, q, k - 1);
      assert r[0] == items[0];
    }
  }

  /** With unique ids, dropping the line at `k` lowers the quantity sum by its quantity and
      the subtotal by its price times quantity. */
  lemma {:induction false} WithoutIdSums(items: seq<CartItem>, id: string, k: int)
    requires NoDuplicateIds(items) && 0 <= k < |items| && items[k].id == id
    ensures TotalQuantity(WithoutId(items, id)) == TotalQuantity(items) - items[k].quantity
    ensures Subtotal(WithoutId(items, id))
         == Subtotal(items) - LineTotal(items[k])
  {
    NoDuplicateIdsTail(items);
    if k == 0 {
      WithoutIdAbsent(items[1..], id);
      assert WithoutId(items, id) == items[1..];
    } else {
      assert items[0].id != id;
      assert items[1..][k - 1] == items[k];
      WithoutIdSums(items[1..], id, k - 1);
      var rest := WithoutId(items[1..], id);
      assert WithoutId(items, id) == [items[0]] + rest;
      assert ([items[0]] + rest)[1..] == rest;
    }
  }

  /** Removing an id that no line has leaves the lines as they are. */
  lemma {:induction false} WithoutIdAbsent(items: seq<CartItem>, id: string)
    requires forall i :: 0 <= i < |items| ==> items[i].id != id
    ensures WithoutId(items, id) == items
  {
    if items != [] {
      WithoutIdAbsent(items[1..], id);
      assert items == [items[0]] + items[1..];
    }
  }

  /** Dropping lines keeps the ids unique. */
  lemma {:induction false} WithoutIdKeepsUnique(items: seq<CartItem>, id: string)
    requires NoDuplicateIds(items)
    ensures NoDuplicateIds(WithoutId(items, id))
  {
    if items != [] {
      NoDuplicateIdsTail(items);
      WithoutIdKeepsUnique(items[1..], id);
      var rest := WithoutId(items[1..], id);
      if items[0].id != id {
        var r := [items[0]] + rest;
        forall i, j | 0 <= i < j < |r| ensures r[i].id != r[j].id {
          if i == 0 {
            assert r[j] == rest[j - 1];
            assert rest[j - 1] in items[1..];
          }
        }
      }
    }
  }

  // ---------------------------------------------------------------------------
  // What each action does to the lines

  /** Adding an id already present adds the incoming quantity to that line: same number of
      lines, same ids in the same order, other lines untouched, ids stay unique. */
  lemma AddExistingItem(s: CartState, item: CartItem)
    requires HasId(s.items, item.id)
    ensures var r := CartReducer(s, AddItem(item));
      && |r.items| == |s.items|
      && (forall i :: 0 <= i < |s.items| ==> r.items[i].id == s.items[i].id)
      && (forall i :: 0 <= i < |s.items| && s.items[i].id != item.id ==> r.items[i] == s.items[i])
      && (forall i :: 0 <= i < |s.items| && s.items[i].id == item.id ==>
            r.items[i] == s.items[i].(quantity := s.items[i].quantity + item.quantity))
      && (NoDuplicateIds(s.items) ==> NoDuplicateIds(r.items))
  {
  }

  /** Adding a new id appends the incoming line at the end; earlier lines keep their order. */
  lemma AddNewItem(s: CartState, item: CartItem)
    requires !HasId(s.items, item.id)
    ensures var r := CartReducer(s, AddItem(item));
      && r.items == s.items + [item]
      && (NoDuplicateIds(s.items) ==> NoDuplicateIds(r.items))
  {
    var r := CartReducer(s, AddItem(item));
    if NoDuplicateIds(s.items) {
      forall i, j | 0 <= i < j < |r.items| ensures r.items[i].id != r.items[j].id {
        if j == |s.items| {
          assert r.items[i] == s.items[i];
        }
      }
    }
  }

  /** With unique ids, ADD_ITEM's line edit raises the quantity sum by exactly the incoming
      quantity, and the subtotal by the incoming quantity times the price of the line it lands
      on: the existing line's price when the id is present (the incoming price is ignored then). */
  lemma AddLineSums(items: seq<CartItem>, item: CartItem)
    requires NoDuplicateIds(items)
    ensures TotalQuantity(AddLine(items, item)) == TotalQuantity(items) + item.quantity
    ensures HasId(items, item.id) ==>
      Subtotal(AddLine(items, item))
      == Subtotal(items) + LineTotal(FindItem(items, item.id).value.(quantity := item.quantity))
    ensures !HasId(items, item.id) ==> Subtotal(AddLine(items, item)) == Subtotal(items) + LineTotal(item)
  {
    if HasId(items, item.id) {
      var k :| 0 <= k < |items| && items[k].id == item.id;
      FindUnique(items, item.id, k);
      IncreaseQuantitySums(items, item.id, item.quantity, k);
    } else {
      TotalQuantityAppend(items, item);
    }
  }

  /** ADD_ITEM's totals, read off the reducer's new state. */
  lemma AddItemTotals(s: CartState, item: CartItem)
    requires NoDuplicateIds(s.items)
    ensures var r := CartReducer(s, AddItem(item));
      && r.totalItems == TotalQuantity(s.items) + item.quantity
      && (HasId(s.items, item.id) ==>
            r.subtotal
            == Subtotal(s.items) + LineTotal(FindItem(s.items, item.id).value.(quantity := item.quantity)))
      && (!HasId(s.items, item.id) ==> r.subtotal == Subtotal(s.items) + LineTotal(item))
  {
    AddLineSums(s.items, item);
  }

  /** REMOVE_ITEM drops every line with that id, keeps every other line, changes nothing when
      the id is absent, and leaves the coupon alone. */
  lemma RemoveItemEffect(s: CartState, id: string)
    ensures var r := CartReducer(s, RemoveItem(id));
      && !HasId(r.items, id)
      && (forall i :: 0 <= i < |s.items| && s.items[i].id != id ==> s.items[i] in r.items)
      && IsSubsequence(r.items, s.items)
      && (!HasId(s.items, id) ==> r.items == s.items)
      && r.appliedCoupon == s.appliedCoupon && r.couponDiscount == s.couponDiscount
      && (NoDuplicateIds(s.items) ==>
            && NoDuplicateIds(r.items)
            && r.totalItems == TotalQuantity(s.items) - QuantityOf(s.items, id))
  {
    WithoutIdSubsequence(s.items, id);
    if !HasId(s.items, id) {
      WithoutIdAbsent(s.items, id);
    }
    if NoDuplicateIds(s.items) {
      WithoutIdKeepsUnique(s.items, id);
      if HasId(s.items, id) {
        var k :| 0 <= k < |s.items| && s.items[k].id == id;
        FindUnique(s.items, id, k);
        WithoutIdSums(s.items, id, k);
      }
    }
  }

  lemma {:induction false} WithoutIdSubsequence(items: seq<CartItem>, id: string)
    ensures IsSubsequence(WithoutId(items, id), items)
  {
    if items != [] {
      WithoutIdSubsequence(items[1..], id);
      var r := WithoutId(items, id);
      if items[0].id != id {
        assert r[1..] == WithoutId(items[1..], id);
      } else if r != [] && r[0] == items[0] {
        assert false;
      }
    }
  }

  /** UPDATE_QUANTITY to zero or below is exactly REMOVE_ITEM. */
  lemma UpdateToNonPositiveRemoves(s: CartState, id: string, quantity: int)
    requires quantity <= 0
    ensures CartReducer(s, UpdateQuantity(id, quantity)) == CartReducer(s, RemoveItem(id))
  {
  }

  /** UPDATE_QUANTITY to a positive quantity sets it on the matching lines only. */
  lemma UpdateToPositiveSets(s: CartState, id: string, quantity: int)
    requires quantity > 0
    ensures var r := CartReducer(s, UpdateQuantity(id, quantity));
      && |r.items| == |s.items|
      && (forall i :: 0 <= i < |s.items| && s.items[i].id != id ==> r.items[i] == s.items[i])
      && (forall i :: 0 <= i < |s.items| && s.items[i].id == id ==> r.items[i] == s.items[i].(quantity := quantity))
      && (HasId(s.items, id) ==> QuantityOf(r.items, id) == quantity)
  {
    var r := CartReducer(s, UpdateQuantity(id, quantity));
    if HasId(s.items, id) {
      var k :| 0 <= k < |r.items| && r.items[k] == FindItem(r.items, id).value
               && r.items[k].id == id && forall j :: 0 <= j < k ==> r.items[j].id != id;
      assert r.items[k] == s.items[k].(quantity := quantity);
    }
  }

  // ---------------------------------------------------------------------------
  // The cart invariant

  /** A well-formed cart: unique ids, non-negative prices, positive quantities, and derived
      fields that agree with the lines. */
  ghost predicate WellFormed(s: CartState) {
    LinesWellFormed(s.items) && TotalsConsistent(s)
  }

  /** An action the storefront actually dispatches: lines added with a non-negative price and
      a positive quantity, and loaded lists that are themselves well-formed. */
  ghost predicate Admissible(a: CartAction) {
    match a
    case AddItem(item) => item.price >= 0.0 && item.quantity > 0
    case LoadCart(loaded) =>
      NoDuplicateIds(loaded) && forall i :: 0 <= i < |loaded| ==> loaded[i].price >= 0.0 && loaded[i].quantity > 0
    case _ => true
  }

  /** Unique ids, non-negative prices and positive quantities. */
  ghost predicate LinesWellFormed(items: seq<CartItem>) {
    NoDuplicateIds(items) && PricedLines(items)
  }

  lemma AddItemKeepsWellFormed(s: CartState, item: CartItem)
    requires WellFormed(s) && item.price >= 0.0 && item.quantity > 0
    ensures WellFormed(CartReducer(s, AddItem(item)))
  {
    var r := CartReducer(s, AddItem(item));
    if HasId(s.items, item.id) {
      AddExistingItem(s, item);
    } else {
      AddNewItem(s, item);
    }
    assert LinesWellFormed(r.items);
  }

  lemma RemoveItemKeepsWellFormed(s: CartState, id: string)
    requires WellFormed(s)
    ensures WellFormed(CartReducer(s, RemoveItem(id)))
  {
    var r := CartReducer(s, RemoveItem(id));
    WithoutIdKeepsUnique(s.items, id);
    assert r.items == WithoutId(s.items, id);
    assert LinesWellFormed(r.items);
  }

  lemma UpdateQuantityKeepsWellFormed(s: CartState, id: string, quantity: int)
    requires WellFormed(s)
    ensures WellFormed(CartReducer(s, UpdateQuantity(id, quantity)))
  {
    var r := CartReducer(s, UpdateQuantity(id, quantity));
    if quantity <= 0 {
      UpdateToNonPositiveRemoves(s, id, quantity);
      RemoveItemKeepsWellFormed(s, id);
    } else {
      UpdateToPositiveSets(s, id, quantity);
      assert forall i :: 0 <= i < |s.items| ==> r.items[i].id == s.items[i].id;
      assert LinesWellFormed(r.items);
    }
  }

  /** Every admissible action keeps a well-formed cart well-formed, and the total is never
      negative afterwards. */
  lemma ReducerPreservesWellFormed(s: CartState, a: CartAction)
    requires WellFormed(s) && Admissible(a)
    ensures WellFormed(CartReducer(s, a))
    ensures CartReducer(s, a).total >= 0.0
  {
    match a
    case AddItem(item) =>
      AddItemKeepsWellFormed(s, item);
    case RemoveItem(id) =>
      RemoveItemKeepsWellFormed(s, id);
    case UpdateQuantity(id, quantity) =>
      UpdateQuantityKeepsWellFormed(s, id, quantity);
    case ClearCart =>
    case SetCartOpen(_) =>
    case ApplyCoupon(_, _) =>
    case RemoveCoupon =>
    case LoadCart(loaded) =>
      assert LinesWellFormed(loaded);
  }

  /** Recomputing the totals of a consistent state changes nothing, and only then. */
  lemma CalculateCartTotalsFixpoint(s: CartState)
    ensures CalculateCartTotals(s) == s <==> TotalsConsistent(s)
  {
  }

  // ---------------------------------------------------------------------------
  // The provider: one state cell replaced through the reducer

  class CartProvider {
    var state: CartState

    constructor ()
      ensures state == InitialState
    {
      state := InitialState;
    }

    method AddItem(item: CartItem)
      modifies this
      ensures state == CartReducer(old(state), CartAction.AddItem(item))
    {
      state := CartReducer(state, CartAction.AddItem(item));
    }

    method RemoveItem(id: string)
      modifies this
      ensures state == CartReducer(old(state), CartAction.RemoveItem(id))
    {
      state := CartReducer(state, CartAction.RemoveItem(id));
    }

    method UpdateQuantity(id: string, quantity: int)
      modifies this
      ensures state == CartReducer(old(state), CartAction.UpdateQuantity(id, quantity))
    {
      state := CartReducer(state, CartAction.UpdateQuantity(id, quantity));
    }

    method ClearCart()
      modifies this
      ensures state == CartReducer(old(state), CartAction.ClearCart)
      ensures state.items == [] && state.total == 0.0 && state.isOpen == old(state.isOpen)
    {
      state := CartReducer(state, CartAction.ClearCart);
    }

    method OpenCart()
      modifies this
      ensures state == old(state).(isOpen := true)
    {
      state := CartReducer(state, SetCartOpen(true));
    }

    method CloseCart()
      modifies this
      ensures state == old(state).(isOpen := false)
    {
      state := CartReducer(state, SetCartOpen(false));
    }

    /** Flips `isOpen` and changes nothing else. */
    method ToggleCart()
      modifies this
      ensures state == old(state).(isOpen := !old(state).isOpen)
    {
      state := CartReducer(state, SetCartOpen(!state.isOpen));
    }

    method ApplyCoupon(code: string, discount: real)
      modifies this
      ensures state == CartReducer(old(state), CartAction.ApplyCoupon(code, discount))
    {
      state := CartReducer(state, CartAction.ApplyCoupon(code, discount));
    }

    method RemoveCoupon()
      modifies this
      ensures state == CartReducer(old(state), CartAction.RemoveCoupon)
    {
      state := CartReducer(state, CartAction.RemoveCoupon);
    }

    /** The quantity of the first line with that id, or 0 when no line has it. */
    method GetItemQuantity(id: string) returns (q: int)
      ensures !HasId(state.items, id) ==> q == 0
      ensures HasId(state.items, id) ==>
        exists i :: 0 <= i < |state.items| && state.items[i].id == id && q == state.items[i].quantity
                    && forall j :: 0 <= j < i ==> state.items[j].id != id
    {
      q := QuantityOf(state.items, id);
    }

    /** Whether some line has that id. */
    method IsItemInCart(id: string) returns (b: bool)
      ensures b <==> exists i :: 0 <= i < |state.items| && state.items[i].id == id
    {
      b := FindItem(state.items, id).Some?;
    }
  }

  // ---------------------------------------------------------------------------
  // Worked scenarios

  /** Adding the same id with quantities 2 and 3 gives one line of quantity 5. */
  lemma SameIdTwice(line: CartItem)
    ensures var s1 := CartReducer(InitialState, AddItem(line.(quantity := 2)));
            var s2 := CartReducer(s1, AddItem(line.(quantity := 3)));
            |s2.items| == 1 && s2.items[0].quantity == 5 && s2.totalItems == 5
  {
    var first := line.(quantity := 2);
    var s1 := CartReducer(InitialState, AddItem(first));
    AddNewItem(InitialState, first);
    assert s1.items == [first];
    AddExistingItem(s1, line.(quantity := 3));
    var s2 := CartReducer(s1, AddItem(line.(quantity := 3)));
    assert s2.items == [first.(quantity := 5)];
    assert TotalQuantity(s2.items) == 5;
  }

  /** A line of 100, a 20 coupon, then removing the line: the coupon survives the removal and
      the total is clamped to 0. */
  lemma CouponSurvivesRemoval(line: CartItem)
    requires line.price == 100.0 && line.quantity == 1
    ensures var s1 := CartReducer(InitialState, AddItem(line));
            var s2 := CartReducer(s1, ApplyCoupon("SAVE20", 20.0));
            var s3 := CartReducer(s2, RemoveItem(line.id));
            && s1.totalItems == 1 && s1.subtotal == 100.0 && s1.tax == 8.0 && s1.total == 108.0
            && s2.total == 88.0
            && s3.items == [] && s3.total == 0.0
            && s3.appliedCoupon == Some("SAVE20") && s3.couponDiscount == 20.0
  {
    var s1 := CartReducer(InitialState, AddItem(line));
    AddNewItem(InitialState, line);
    assert s1.items == [line];
    assert TotalQuantity([line]) == 1;
    assert Subtotal([line]) == 100.0;
    var s2 := CartReducer(s1, ApplyCoupon("SAVE20", 20.0));
    assert s2.items == [line];
    assert WithoutId([line], line.id) == [];
    var s3 := CartReducer(s2, RemoveItem(line.id));
    assert s3.items == [];
    assert Subtotal(s3.items) == 0.0;
  }
}
