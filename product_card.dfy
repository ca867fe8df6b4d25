/**
 * The product card: the star row, the download-count label, what each of the
 * three variants displays, the payload its callbacks receive, and the wishlist
 * and hover flags it holds.
 */
module ProductCard {
  import opened Common
  import opened ProductData

  // ---------------------------------------------------------------------------
  // Stars

  datatype Star = Full | Half | Empty

  /** `Math.ceil` on a real. */
  function Ceil(x: real): int {
    -((-x).Floor)
  }

  /** `rating % 1 === 0`: the rating has no fractional part. */
  predicate IsWhole(x: real) {
    x == x.Floor as real
  }

  /** `n` copies of one star; a count below zero gives none, as a `for` loop that never runs. */
  function Repeat(s: Star, n: int): (r: seq<Star>)
    ensures |r| == if n < 0 then 0 else n
    ensures forall i :: 0 <= i < |r| ==> r[i] == s
  {
    seq(if n < 0 then 0 else n, _ => s)
  }

  /** The stars `renderStars` pushes: floor(rating) full ones, a half one when the rating is not
      whole, then 5 - ceil(rating) empty ones. */
  function Stars(rating: real): (r: seq<Star>)
    ensures forall i :: 0 <= i < |r| ==> (r[i] == Full <==> i < rating.Floor)
    ensures Half in r <==> !IsWhole(rating)
  {
    var full := Repeat(Full, rating.Floor);
    var half: seq<Star> := if IsWhole(rating) then [] else [Half];
    var empty := Repeat(Empty, 5 - Ceil(rating));
    assert Half !in full && Half !in empty;
    full + half + empty
  }

  /** `renderStars`: the three push loops. */
  method RenderStars(rating: real) returns (stars: seq<Star>)
    ensures stars == Stars(rating)
  {
    stars := [];
    var fullStars := rating.Floor;
    var i := 0;
    while i < fullStars
      invariant 0 <= i <= if fullStars < 0 then 0 else fullStars
      invariant stars == Repeat(Full, i)
      decreases fullStars - i
    {
      stars := stars + [Full];
      i := i + 1;
    }
    assert stars == Repeat(Full, fullStars);
    if !IsWhole(rating) {
      stars := stars + [Half];
    }
    var prefix := stars;
    var emptyStars := 5 - Ceil(rating);
    i := 0;
    while i < emptyStars
      invariant 0 <= i <= if emptyStars < 0 then 0 else emptyStars
      invariant stars == prefix + Repeat(Empty, i)
      decreases emptyStars - i
    {
      stars := stars + [Empty];
      i := i + 1;
    }
    assert stars == prefix + Repeat(Empty, emptyStars);
  }

  /** `Math.ceil` is `Math.floor` for a whole number and one more otherwise. */
  lemma CeilFloor(x: real)
    ensures IsWhole(x) ==> Ceil(x) == x.Floor
    ensures !IsWhole(x) ==> Ceil(x) == x.Floor + 1
  {
    var f := x.Floor;
    assert f as real <= x < f as real + 1.0;
    if IsWhole(x) {
      assert -x == (-f) as real;
      assert (-x).Floor == -f;
    } else {
      assert (-f - 1) as real < -x < (-f) as real;
      assert (-x).Floor == -f - 1;
    }
  }

  /** For a rating in [0, 5] the row has exactly five stars: floor(rating) full, one half iff the
      rating is not whole, and the rest empty. */
  lemma StarsTotalFive(rating: real)
    requires 0.0 <= rating <= 5.0
    ensures var s := Stars(rating);
      && |s| == 5
      && |Repeat(Full, rating.Floor)| == rating.Floor
      && (Half in s <==> !IsWhole(rating))
      && s[..rating.Floor] == Repeat(Full, rating.Floor)
  {
    CeilFloor(rating);
    var s := Stars(rating);
    var f := rating.Floor;
    assert 0 <= f <= 5;
    if IsWhole(rating) {
      assert forall i :: 0 <= i < |s| ==> s[i] != Half;
    } else {
      assert s[f] == Half;
    }
  }

  /** A rating of 4.8 shows four full stars and a half star; 4.0 shows four full and one empty. */
  lemma StarsExamples()
    ensures Stars(4.8) == [Full, Full, Full, Full, Half]
    ensures Stars(4.0) == [Full, Full, Full, Full, Empty]
  {
    assert (4.8).Floor == 4;
    CeilFloor(4.8);
    assert Repeat(Full, 4) == [Full, Full, Full, Full];
    assert Repeat(Empty, 0) == [];
    CeilFloor(4.0);
    assert Repeat(Empty, 1) == [Empty];
  }

  // ---------------------------------------------------------------------------
  // Download counts

  /** The label of `formatDownloadCount`: a number of millions or thousands to one decimal place
      (held as an integer count of tenths), or the count itself. */
  datatype DownloadLabel = Millions(tenths: int) | Thousands(tenths: int) | Plain(count: int)

  /** `x.toFixed(1)` for x >= 0, as the integer number of tenths it prints, rounding the exact
      value half-up. The source rounds the binary double nearest to x instead, which differs
      when x lies on a tie that the double misses (1.15 is stored just below 1.15). */
  function Tenths(x: real): (r: int)
    requires x >= 0.0
    ensures r >= 0
    ensures (r as real) / 10.0 - 0.05 <= x < (r as real) / 10.0 + 0.05
  {
    (x * 10.0 + 0.5).Floor
  }

  /** `formatDownloadCount` as written: "M" from one million, "K" from one thousand. */
  function FormatDownloadCount(count: int): (r: DownloadLabel)
    ensures r.Millions? <==> count >= 1000000
    ensures r.Thousands? <==> 1000 <= count < 1000000
    ensures r.Plain? <==> count < 1000
    ensures r.Plain? ==> r.count == count
    ensures r.Millions? ==> r.tenths == Tenths(count as real / 1000000.0) && r.tenths >= 10
    ensures r.Thousands? ==> r.tenths == Tenths(count as real / 1000.0) && r.tenths >= 10
  {
    if count >= 1000000 then Millions(Tenths(count as real / 1000000.0))
    else if count >= 1000 then Thousands(Tenths(count as real / 1000.0))
    else Plain(count)
  }

  /** Just below one million the thousands label rounds up to "1000.0K" instead of moving on
      to "1.0M". */
  lemma ThousandsLabelReachesOneThousand()
    ensures FormatDownloadCount(999950) == Thousands(10000)
  {
    assert 999950 as real / 1000.0 == 999.95;
    assert (999.95 * 10.0 + 0.5).Floor == 10000;
  }

  /** The label with the suffix chosen after rounding: "M" as soon as the thousands label would
      reach 1000.0. */
  function FormatDownloadCountRounded(count: int): (r: DownloadLabel)
    ensures r.Millions? <==> count >= 999950
    ensures r.Thousands? <==> 1000 <= count < 999950
    ensures r.Plain? <==> count < 1000
    ensures r.Plain? ==> r.count == count
  {
    if count >= 999950 then Millions(Tenths(count as real / 1000000.0))
    else if count >= 1000 then Thousands(Tenths(count as real / 1000.0))
    else Plain(count)
  }

  /** The corrected label never shows 1000.0 or more of thousands, always shows at least 1.0 of
      either unit, and agrees with the written one except on 999,950..999,999. */
  lemma RoundedLabelInRange(count: int)
    ensures var r := FormatDownloadCountRounded(count);
      && (r.Thousands? ==> 10 <= r.tenths < 10000)
      && (r.Millions? ==> r.tenths >= 10)
      && (count < 999950 || count >= 1000000 ==> r == FormatDownloadCount(count))
  {
    var r := FormatDownloadCountRounded(count);
    if r.Thousands? {
      var x := count as real / 1000.0;
      assert 1.0 <= x < 999.95;
      assert x * 10.0 + 0.5 < 10000.0;
    }
    if r.Millions? {
      var x := count as real / 1000000.0;
      assert x >= 0.99995;
      assert x * 10.0 + 0.5 >= 10.0;
    }
  }

  // ---------------------------------------------------------------------------
  // What a card displays

  datatype Variant = Default | Compact | Featured

  /** The rule-driven parts of a rendered card. */
  datatype CardView = CardView(
    struckOriginalPrice: Option<real>,
    discountBadge: Option<real>,
    newBadge: bool,
    bestSellerBadge: bool,
    tags: seq<string>,
    features: seq<string>,
    stars: seq<Star>,
    downloads: DownloadLabel)

  function Min(a: int, b: int): int {
    if a <= b then a else b
  }

  /** `list.slice(0, n)`: the prefix of length min(n, |s|). */
  function Take<T>(s: seq<T>, n: nat): (r: seq<T>)
    ensures |r| == Min(|s|, n)
    ensures r <= s
  {
    if |s| <= n then s else s[..n]
  }

  function Render(p: ProductCardProps, v: Variant): (r: CardView)
    ensures r.struckOriginalPrice.Some? <==> p.originalPrice > p.price
    ensures r.struckOriginalPrice.Some? ==> r.struckOriginalPrice.value == p.originalPrice
    ensures r.discountBadge.Some? <==> p.discount > 0.0
    ensures r.discountBadge.Some? ==> r.discountBadge.value == p.discount
    ensures r.newBadge <==> p.isNew == Some(true)
    ensures r.bestSellerBadge <==> p.isBestSeller == Some(true)
    ensures |r.tags| <= 3 && r.tags <= p.tags && (v != Default ==> r.tags == [])
    ensures |r.features| <= 4 && r.features <= p.features && (v == Compact ==> r.features == [])
    ensures v == Default ==> r.tags == Take(p.tags, 3) && |r.tags| == Min(|p.tags|, 3)
    ensures v != Compact ==> r.features == Take(p.features, 4) && |r.features| == Min(|p.features|, 4)
    ensures r.downloads == FormatDownloadCount(p.downloadCount)
    ensures r.stars == Stars(p.rating)
  {
    CardView(
      if p.originalPrice > p.price then Some(p.originalPrice) else None,
      if p.discount > 0.0 then Some(p.discount) else None,
      Truthy(p.isNew),
      Truthy(p.isBestSeller),
      if v == Default then Take(p.tags, 3) else [],
      if v == Compact then [] else Take(p.features, 4),
      Stars(p.rating),
      FormatDownloadCount(p.downloadCount))
  }

  /** What the add-to-cart, wishlist and quick-view callbacks receive: the card's own fields
      with both dates blanked. */
  function Payload(p: ProductCardProps): (r: ProductCardProps)
    ensures r.createdAt == "" && r.updatedAt == ""
    ensures r.(createdAt := p.createdAt, updatedAt := p.updatedAt) == p
  {
    p.(createdAt := "", updatedAt := "")
  }

  // ---------------------------------------------------------------------------
  // The card's own state

  class CardState {
    var isWishlisted: bool
    var isHovered: bool

    constructor ()
      ensures !isWishlisted && !isHovered
    {
      isWishlisted := false;
      isHovered := false;
    }

    /** `handleWishlist`: flips the flag and hands the payload to the callback. */
    method HandleWishlist(p: ProductCardProps) returns (sent: ProductCardProps)
      modifies this
      ensures isWishlisted == !old(isWishlisted) && isHovered == old(isHovered)
      ensures sent == Payload(p)
    {
      isWishlisted := !isWishlisted;
      sent := Payload(p);
    }

    method MouseEnter()
      modifies this
      ensures isHovered && isWishlisted == old(isWishlisted)
    {
      isHovered := true;
    }

    method MouseLeave()
      modifies this
      ensures !isHovered && isWishlisted == old(isWishlisted)
    {
      isHovered := false;
    }
  }
}
