/**
 * The product image gallery: which image is shown, and the zoom toggle and zoom
 * level with its half-step buttons.
 */
module Gallery {
  import opened Common

  const MinZoom: real := 1.0
  const MaxZoom: real := 4.0

  /** `Math.max(1, Math.min(4, level))`. */
  function ClampZoom(level: real): (r: real)
    ensures MinZoom <= r <= MaxZoom
    ensures MinZoom <= level <= MaxZoom ==> r == level
    ensures level < MinZoom ==> r == MinZoom
    ensures level > MaxZoom ==> r == MaxZoom
  {
    if level < MinZoom then MinZoom else if level > MaxZoom then MaxZoom else level
  }

  class ImageGallery {
    /** The `images` prop: fixed for the gallery's lifetime. */
    const images: seq<string>
    var selectedImage: int
    var isZoomed: bool
    var zoomLevel: real
    /** The zoom level counted in half steps: the buttons only ever move it by 0.5. */
    ghost var halfSteps: int

    ghost predicate Valid()
      reads this
    {
      && MinZoom <= zoomLevel <= MaxZoom
      && zoomLevel == halfSteps as real / 2.0
      && (selectedImage == 0 || 0 <= selectedImage < |images|)
    }

    constructor (images: seq<string>)
      ensures Valid()
      ensures this.images == images && selectedImage == 0 && !isZoomed && zoomLevel == 1.0
    {
      this.images := images;
      selectedImage := 0;
      isZoomed := false;
      zoomLevel := 1.0;
      halfSteps := 2;
    }

    /** `handleImageSelect`, run by the thumbnail at `index`: show it and drop the zoom. */
    method HandleImageSelect(index: int)
      requires Valid() && 0 <= index < |images|
      modifies this
      ensures Valid()
      ensures selectedImage == index && !isZoomed && zoomLevel == 1.0
    {
      selectedImage := index;
      isZoomed := false;
      zoomLevel := 1.0;
      halfSteps := 2;
    }

    /** `handleZoom`, run by a click on the image: zoomed in at 2, or back out at 1. */
    method HandleZoom()
      requires Valid()
      modifies this
      ensures Valid()
      ensures isZoomed == !old(isZoomed)
      ensures isZoomed ==> zoomLevel == 2.0
      ensures !isZoomed ==> zoomLevel == 1.0
      ensures selectedImage == old(selectedImage)
    {
      if isZoomed {
        isZoomed := false;
        zoomLevel := 1.0;
        halfSteps := 2;
      } else {
        isZoomed := true;
        zoomLevel := 2.0;
        halfSteps := 4;
      }
    }

    /** `handleZoomChange`: the requested level clamped to [1, 4]. */
    method HandleZoomChange(newLevel: real)
      modifies this
      ensures zoomLevel == ClampZoom(newLevel)
      ensures isZoomed == old(isZoomed) && selectedImage == old(selectedImage) && halfSteps == old(halfSteps)
    {
      zoomLevel := ClampZoom(newLevel);
    }

    /** The zoom-in button: half a step up, at most 4. */
    method ZoomIn()
      requires Valid()
      modifies this
      ensures Valid()
      ensures zoomLevel == ClampZoom(old(zoomLevel) + 0.5)
      ensures old(zoomLevel) < MaxZoom ==> zoomLevel == old(zoomLevel) + 0.5
      ensures isZoomed == old(isZoomed) && selectedImage == old(selectedImage)
    {
      var steps := if halfSteps < 8 then halfSteps + 1 else 8;
      HandleZoomChange(zoomLevel + 0.5);
      halfSteps := steps;
    }

    /** The zoom-out button: half a step down, at least 1. */
    method ZoomOut()
      requires Valid()
      modifies this
      ensures Valid()
      ensures zoomLevel == ClampZoom(old(zoomLevel) - 0.5)
      ensures old(zoomLevel) > MinZoom ==> zoomLevel == old(zoomLevel) - 0.5
      ensures isZoomed == old(isZoomed) && selectedImage == old(selectedImage)
    {
      var steps := if halfSteps > 2 then halfSteps - 1 else 2;
      HandleZoomChange(zoomLevel - 0.5);
      halfSteps := steps;
    }

    /** `resetZoom`. */
    method ResetZoom()
      requires Valid()
      modifies this
      ensures Valid()
      ensures !isZoomed && zoomLevel == 1.0 && selectedImage == old(selectedImage)
    {
      isZoomed := false;
      zoomLevel := 1.0;
      halfSteps := 2;
    }

    /** The percentage badge, shown while zoomed: `Math.round(zoomLevel * 100)`, which is exact
        because the level moves in half steps. */
    method ZoomIndicator() returns (percent: Option<int>)
      requires Valid()
      ensures percent.Some? <==> isZoomed
      ensures percent.Some? ==> percent.value as real == zoomLevel * 100.0
      ensures percent.Some? ==> 100 <= percent.value <= 400 && percent.value % 50 == 0
    {
      if isZoomed {
        var p := (zoomLevel * 100.0 + 0.5).Floor;
        assert zoomLevel * 100.0 == (halfSteps * 50) as real;
        assert p == halfSteps * 50;
        percent := Some(p);
      } else {
        percent := None;
      }
    }

    /** The "k of n" counter under the thumbnails; thumbnails and counter appear only for more
        than one image. */
    method Counter() returns (counter: Option<(int, int)>)
      requires Valid()
      ensures counter.Some? <==> |images| > 1
      ensures counter.Some? ==> counter.value == (selectedImage + 1, |images|)
      ensures counter.Some? ==> 1 <= counter.value.0 <= counter.value.1
    {
      if |images| > 1 {
        counter := Some((selectedImage + 1, |images|));
      } else {
        counter := None;
      }
    }
  }
}
