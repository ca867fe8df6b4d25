/**
 * The cart summary panel: the fixed coupon table, the apply-coupon handler that
 * forwards a valid code to the cart, and the rule for the discount row.
 */
module CartSummary {
  import opened Common
  import opened Text
  import opened Cart

  /** The coupon codes the panel accepts, each with its percentage off the subtotal. */
  const ValidCoupons: map<string, int> :=
    map["SAVE20" := 20, "WELCOME10" := 10, "FREESHIP" := 15, "NEWCUSTOMER" := 25, "LOYALTY" := 30]

  /** The percentage of an exact (already upper-cased) code, if it is one of the five. */
  function CouponPercent(code: string): (r: Option<int>)
    ensures r.Some? <==> code in {"SAVE20", "WELCOME10", "FREESHIP", "NEWCUSTOMER", "LOYALTY"}
    ensures r.Some? ==> 10 <= r.value <= 30 && r.value == ValidCoupons[code]
    ensures code == "SAVE20" ==> r == Some(20)
    ensures code == "WELCOME10" ==> r == Some(10)
    ensures code == "FREESHIP" ==> r == Some(15)
    ensures code == "NEWCUSTOMER" ==> r == Some(25)
    ensures code == "LOYALTY" ==> r == Some(30)
  {
    if code in ValidCoupons then Some(ValidCoupons[code]) else None
  }

  /** `subtotal * percent / 100`: for a percentage from 10 to 30, between a tenth and three
      tenths of a non-negative subtotal, and positive exactly when the subtotal is. */
  function PercentOf(subtotal: real, percent: int): (r: real)
    ensures subtotal >= 0.0 && 10 <= percent <= 30 ==>
      subtotal / 10.0 <= r <= subtotal * 3.0 / 10.0 && r <= subtotal && (r > 0.0 <==> subtotal > 0.0)
  {
    var d := subtotal * percent as real / 100.0;
    ScaledBetween(subtotal, percent as real, d);
    d
  }

  lemma ScaledBetween(x: real, p: real, d: real)
    requires d == x * p / 100.0
    ensures x >= 0.0 && 10.0 <= p <= 30.0 ==> x / 10.0 <= d <= x * 3.0 / 10.0 && d <= x && (d > 0.0 <==> x > 0.0)
  {
    if x >= 0.0 && 10.0 <= p <= 30.0 {
      var xp := x * p;
      assert x * (p - 10.0) >= 0.0 && x * (30.0 - p) >= 0.0;
      assert x * 10.0 <= xp <= x * 30.0;
      assert d * 100.0 == xp;
    }
  }

  /** What applying the typed code does: nothing for blank input or an unknown code, and for
      a known code the upper-cased code with `subtotal * percent / 100` as the discount. The
      lookup upper-cases the text but does not trim it. */
  function ApplyCouponOutcome(typed: string, subtotal: real): (r: Option<(string, real)>)
    ensures IsBlank(typed) ==> r == None
    ensures r.None? <==> IsBlank(typed) || CouponPercent(ToUpper(typed)).None?
    ensures r.Some? ==> r.value.0 == ToUpper(typed) && r.value.0 in ValidCoupons
    ensures r.Some? ==> r.value.1 == PercentOf(subtotal, ValidCoupons[r.value.0])
    ensures r.Some? ==> 10 <= ValidCoupons[r.value.0] <= 30
  {
    if IsBlank(typed) then None
    else
      match CouponPercent(ToUpper(typed))
      case Some(percent) => Some((ToUpper(typed), PercentOf(subtotal, percent)))
      case None => None
  }

  /** The discount is between 10% and 30% of a non-negative subtotal, so never more than it. */
  lemma DiscountWithinSubtotal(typed: string, subtotal: real)
    requires subtotal >= 0.0
    ensures var r := ApplyCouponOutcome(typed, subtotal);
      r.Some? ==> subtotal / 10.0 <= r.value.1 <= subtotal * 3.0 / 10.0 && r.value.1 <= subtotal
  {
    var r := ApplyCouponOutcome(typed, subtotal);
    if r.Some? {
      assert 10 <= ValidCoupons[r.value.0] <= 30;
    }
  }

  /** The lookup is not trimmed: a code typed with a leading space is refused although the
      blank check passes. */
  lemma PaddedCodeRefused(subtotal: real)
    ensures ApplyCouponOutcome(" SAVE20", subtotal) == None
    ensures !IsBlank(" SAVE20")
  {
    assert Trim(" SAVE20") != [] by {
      assert !IsWhitespace(" SAVE20"[1]);
    }
    assert ToUpper(" SAVE20") != "SAVE20" by {
      assert ToUpper(" SAVE20")[0] == ' ';
    }
    assert |ToUpper(" SAVE20")| == 7;
  }

  /** Lower-case input is accepted and forwarded upper-cased. */
  lemma LowerCaseCodeAccepted(subtotal: real)
    ensures ApplyCouponOutcome("save20", subtotal) == Some(("SAVE20", subtotal * 20.0 / 100.0))
  {
    assert ToUpper("save20") == "SAVE20";
    assert CouponPercent("SAVE20") == Some(20);
    assert PercentOf(subtotal, 20) == subtotal * 20.0 / 100.0;
    assert !IsBlank("save20") by {
      assert !IsWhitespace("save20"[0]);
      assert Trim("save20") != [];
    }
  }

  /** Applying a code the panel accepted to a well-formed cart never needs the clamp at 0:
      the new total is exactly subtotal + tax - discount, and the cart stays well-formed. */
  lemma AcceptedCouponNeverClamps(s: CartState, typed: string)
    requires WellFormed(s)
    requires ApplyCouponOutcome(typed, s.subtotal).Some?
    ensures var (code, discount) := ApplyCouponOutcome(typed, s.subtotal).value;
      var r := CartReducer(s, ApplyCoupon(code, discount));
      && r.total == s.subtotal + s.tax - discount
      && r.appliedCoupon == Some(code)
      && WellFormed(r)
  {
    DiscountWithinSubtotal(typed, s.subtotal);
  }

  /** The discount row is shown only for a positive discount. */
  predicate DiscountRowShown(couponDiscount: real)
    ensures DiscountRowShown(couponDiscount) <==> couponDiscount > 0.0
  {
    couponDiscount > 0.0
  }

  /** An accepted code shows the discount row iff the subtotal is positive: on an empty cart
      the coupon is recorded with a zero discount and the row stays hidden. Removing the
      coupon or clearing the cart hides it. */
  lemma DiscountRowAfterCoupon(s: CartState, typed: string)
    requires s.subtotal >= 0.0
    ensures var o := ApplyCouponOutcome(typed, s.subtotal);
      o.Some? ==> (DiscountRowShown(CartReducer(s, ApplyCoupon(o.value.0, o.value.1)).couponDiscount)
                   <==> s.subtotal > 0.0)
    ensures !DiscountRowShown(CartReducer(s, RemoveCoupon).couponDiscount)
    ensures !DiscountRowShown(CartReducer(s, ClearCart).couponDiscount)
  {
    var o := ApplyCouponOutcome(typed, s.subtotal);
    if o.Some? {
      assert 10 <= ValidCoupons[o.value.0] <= 30;
    }
  }

  /** The panel's input field; `handleApplyCoupon` reads the cart's subtotal and, for an
      accepted code, applies it to the cart and clears the field. An unknown code leaves both
      as they were (the alert is not modelled). */
  class CouponForm {
    var couponCode: string

    constructor ()
      ensures couponCode == ""
    {
      couponCode := "";
    }

    /** Typing into the field. */
    method SetCouponCode(text: string)
      modifies this
      ensures couponCode == text
    {
      couponCode := text;
    }

    method HandleApplyCoupon(cart: CartProvider)
      modifies this, cart
      ensures var o := ApplyCouponOutcome(old(couponCode), old(cart.state.subtotal));
        && (o.None? ==> couponCode == old(couponCode) && cart.state == old(cart.state))
        && (o.Some? ==> couponCode == "" && cart.state == CartReducer(old(cart.state), ApplyCoupon(o.value.0, o.value.1)))
    {
      var o := ApplyCouponOutcome(couponCode, cart.state.subtotal);
      match o
      case Some((code, discount)) =>
        cart.ApplyCoupon(code, discount);
        couponCode := "";
      case None =>
    }
  }
}
