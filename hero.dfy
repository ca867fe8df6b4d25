/**
 * The home page's hero carousel: four slides, next/previous index arithmetic, the
 * animation lock that ignores navigation mid-transition, the hover pause and the
 * current/left/right placement of each slide.
 */
module Hero {

  const SlideCount: int := 4

  /** JavaScript's `%` on integers: the remainder takes the sign of the dividend. */
  function JsRem(a: int, n: int): (r: int)
    requires n > 0
    ensures a >= 0 ==> r == a % n && 0 <= r < n
    ensures a < 0 ==> -n < r <= 0
  {
    if a >= 0 then a % n else -((-a) % n)
  }

  /** `(currentIndex + 1) % slides.length`. */
  function NextIndex(i: int): (r: int)
    ensures 0 <= i < SlideCount ==> 0 <= r < SlideCount && r == if i == SlideCount - 1 then 0 else i + 1
  {
    JsRem(i + 1, SlideCount)
  }

  /** `(currentIndex - 1 + slides.length) % slides.length`. */
  function PrevIndex(i: int): (r: int)
    ensures 0 <= i < SlideCount ==> 0 <= r < SlideCount && r == if i == 0 then SlideCount - 1 else i - 1
  {
    JsRem(i - 1 + SlideCount, SlideCount)
  }

  /** Next and previous undo each other on slide indices. */
  lemma NextPrevInverse(i: int)
    requires 0 <= i < SlideCount
    ensures PrevIndex(NextIndex(i)) == i
    ensures NextIndex(PrevIndex(i)) == i
  {
  }

  /** Going forward SlideCount times from any slide comes back to it. */
  lemma {:induction false} FullTurn(i: int, k: nat)
    requires 0 <= i < SlideCount
    ensures 0 <= Iterate(i, k) < SlideCount
    ensures Iterate(i, k) == (i + k) % SlideCount
  {
    if k > 0 {
      FullTurn(i, k - 1);
    }
  }

  /** The slide reached after k forward steps. */
  function Iterate(i: int, k: nat): int
    decreases k
  {
    if k == 0 then i else NextIndex(Iterate(i, k - 1))
  }

  /** Where a slide sits relative to the current one. */
  datatype Placement = Current | Left | Right

  function Place(index: int, current: int): (r: Placement)
    ensures r == Current <==> index == current
    ensures r == Left <==> index < current
    ensures r == Right <==> index > current
  {
    if index == current then Current else if index < current then Left else Right
  }

  /** Wrapping from the last slide to the first moves every other slide to the right, so the
      first slide and the others are not on the same side as after an ordinary step. */
  lemma WrapPlacesAllRight(index: int)
    requires 0 <= index < SlideCount
    ensures var next := NextIndex(SlideCount - 1);
      next == 0 && (index != 0 ==> Place(index, next) == Right)
  {
  }

  class Carousel {
    var currentIndex: int
    var isAnimating: bool
    var isPaused: bool

    predicate Valid()
      reads this
    {
      0 <= currentIndex < SlideCount
    }

    constructor ()
      ensures Valid() && currentIndex == 0 && !isAnimating && !isPaused
    {
      currentIndex := 0;
      isAnimating := false;
      isPaused := false;
    }

    /** `goToSlide`: ignored mid-transition; otherwise moves to the slide and starts the
        transition lock (the 300 ms timer that lifts it is `AnimationEnd`). */
    method GoToSlide(index: int)
      requires Valid() && 0 <= index < SlideCount
      modifies this
      ensures Valid() && isPaused == old(isPaused)
      ensures old(isAnimating) ==> currentIndex == old(currentIndex) && isAnimating
      ensures !old(isAnimating) ==> currentIndex == index && isAnimating
    {
      if isAnimating {
        return;
      }
      isAnimating := true;
      currentIndex := index;
    }

    /** The timer callback that ends a transition. */
    method AnimationEnd()
      modifies this
      ensures !isAnimating && currentIndex == old(currentIndex) && isPaused == old(isPaused)
    {
      isAnimating := false;
    }

    method GoToNextSlide()
      requires Valid()
      modifies this
      ensures Valid() && isPaused == old(isPaused) && isAnimating
      ensures currentIndex == if old(isAnimating) then old(currentIndex) else NextIndex(old(currentIndex))
    {
      GoToSlide(NextIndex(currentIndex));
    }

    method GoToPrevSlide()
      requires Valid()
      modifies this
      ensures Valid() && isPaused == old(isPaused) && isAnimating
      ensures currentIndex == if old(isAnimating) then old(currentIndex) else PrevIndex(old(currentIndex))
    {
      GoToSlide(PrevIndex(currentIndex));
    }

    /** One autoplay interval firing: no interval is running while paused. */
    method AutoplayTick()
      requires Valid()
      modifies this
      ensures Valid() && isPaused == old(isPaused)
      ensures old(isPaused) ==> currentIndex == old(currentIndex) && isAnimating == old(isAnimating)
      ensures !old(isPaused) && !old(isAnimating) ==> currentIndex == NextIndex(old(currentIndex))
    {
      if !isPaused {
        GoToNextSlide();
      }
    }

    method MouseEnter()
      modifies this
      ensures isPaused && currentIndex == old(currentIndex) && isAnimating == old(isAnimating)
    {
      isPaused := true;
    }

    method MouseLeave()
      modifies this
      ensures !isPaused && currentIndex == old(currentIndex) && isAnimating == old(isAnimating)
    {
      isPaused := false;
    }

    /** The placement `slides.map` gives every slide: exactly one is current, those before it
        sit left and those after it right. */
    function Placements(): (places: seq<Placement>)
      requires Valid()
      reads this
      ensures |places| == SlideCount
      ensures forall i :: 0 <= i < SlideCount ==> places[i] == Place(i, currentIndex)
      ensures places[currentIndex] == Current
      ensures forall i :: 0 <= i < SlideCount && i != currentIndex ==> places[i] != Current
    {
      var current := currentIndex;
      seq(SlideCount, i => Place(i, current))
    }
  }
}
