/** From a face box reported by the detector to the rectangle the overlay
    takes on screen. The detector reports in the sensor's axes, which are
    turned by 90 degrees against the portrait preview, and the front camera
    preview is mirrored, so the mapping swaps axes, scales into the video
    box, shifts vertically and mirrors horizontally. */
module FaceRectMapper {
  import opened Geometry
  import opened FrameGeometry

  /** A detector face box: its size is never negative. */
  predicate ValidFace(faceBounds: Rect) {
    IsNonNegative(faceBounds.size)
  }

  /** The overlay rectangle for a face, given the two scale factors and the
      video box: the face's x becomes the overlay's y, scaled by the height
      factor and shifted by the box's y origin; the face's y becomes the
      overlay's x, scaled by the width factor, mirrored against the parent
      width, and moved left by half the overlay width and by half the box's
      x origin. */
  function MapWith(faceBounds: Rect, parent: Size, widthScale: real, heightScale: real, box: Rect): Rect {
    var width := faceBounds.size.height * widthScale;
    var height := faceBounds.size.width * heightScale;
    Rect(Point(parent.width - faceBounds.origin.y * widthScale - width / 2.0 - box.origin.x / 2.0,
               faceBounds.origin.x * heightScale + box.origin.y),
         Size(width, height))
  }

  /** Reference definition of the overlay rectangle: both axes are scaled by
      the single aspect-fill factor, within the aspect-fill box. */
  function MappedFace(faceBounds: Rect, aperture: Size, parent: Size): Rect
    requires ValidInputs(parent, aperture)
  {
    var s := FillScale(parent, aperture);
    MapWith(faceBounds, parent, s, s, FillBox(parent, aperture))
  }

  /** The last two steps of the mapping on a rectangle of non-negative size:
      `offsetBy` only moves the origin down by the box's y origin, and the
      final rectangle keeps the size and mirrors the x origin. */
  lemma ShiftThenMirror(faceRect: Rect, parent: Size, box: Rect)
    requires IsNonNegative(faceRect.size)
    ensures var shifted := OffsetBy(faceRect, 0.0, box.origin.y);
      Rect(Point(parent.width - shifted.origin.x - shifted.size.width / 2.0 - box.origin.x / 2.0,
                 shifted.origin.y),
           Size(Width(shifted), Height(shifted)))
      == Rect(Point(parent.width - faceRect.origin.x - faceRect.size.width / 2.0 - box.origin.x / 2.0,
                    faceRect.origin.y + box.origin.y),
              faceRect.size)
  {
  }

  /** A product of non-negative factors is non-negative.
      Only a hint for the solver's nonlinear arithmetic, not a property of
      the model. */
  lemma NonNegativeProduct(p: real, q: real)
    requires 0.0 <= p && 0.0 <= q
    ensures 0.0 <= p * q
  {
  }

  /** Multiplying by a positive factor keeps a strict order. */
  lemma ScaleStrict(p: real, q: real, s: real)
    requires 0.0 < s && p < q
    ensures p * s < q * s
  {
    assert q * s - p * s == (q - p) * s;
  }

  /** The two scale factors the source computes separately are one and the
      same: the video box has the rotated aperture's aspect, so the face is
      scaled uniformly, by the aspect-fill factor, which is positive. */
  lemma UniformScale(parent: Size, aperture: Size)
    requires ValidInputs(parent, aperture)
    ensures var box := FillBox(parent, aperture);
      && box.size.width / aperture.height == FillScale(parent, aperture)
      && box.size.height / aperture.width == FillScale(parent, aperture)
      && 0.0 < FillScale(parent, aperture)
  {
    var s := FillScale(parent, aperture);
    assert (aperture.height * s) / aperture.height == s;
    assert (aperture.width * s) / aperture.width == s;
    assert 0.0 < parent.height / aperture.width;
  }

  /** For a face of non-negative size and one non-negative factor on both
      axes, the overlay has a non-negative size and the face's aspect with
      the axes swapped. */
  lemma MapWithSize(faceBounds: Rect, parent: Size, scale: real, box: Rect)
    requires ValidFace(faceBounds) && 0.0 <= scale
    ensures var r := MapWith(faceBounds, parent, scale, scale, box);
      && 0.0 <= r.size.width && 0.0 <= r.size.height
      && r.size.width * faceBounds.size.width == r.size.height * faceBounds.size.height
  {
    var w, h := faceBounds.size.width, faceBounds.size.height;
    assert 0.0 <= h * scale && 0.0 <= w * scale;
    assert (h * scale) * w == (w * scale) * h;
  }

  /** The reference mapping in the source's own terms: the width scale is the
      video box width over the aperture height, the height scale the video
      box height over the aperture width. */
  lemma MappedFaceScales(faceBounds: Rect, aperture: Size, parent: Size)
    requires ValidInputs(parent, aperture) && ValidFace(faceBounds)
    ensures var box := FillBox(parent, aperture);
            var r := MappedFace(faceBounds, aperture, parent);
      && r.size.width == faceBounds.size.height * (box.size.width / aperture.height)
      && r.size.height == faceBounds.size.width * (box.size.height / aperture.width)
      && r.origin.y == faceBounds.origin.x * (box.size.height / aperture.width) + box.origin.y
      && r.origin.x == parent.width - faceBounds.origin.y * (box.size.width / aperture.height)
                       - r.size.width / 2.0 - box.origin.x / 2.0
      && 0.0 <= r.size.width && 0.0 <= r.size.height
      && r.size.width * faceBounds.size.width == r.size.height * faceBounds.size.height
  {
    UniformScale(parent, aperture);
    MapWithSize(faceBounds, parent, FillScale(parent, aperture), FillBox(parent, aperture));
  }

  /** The steps of `calculateFaceRect` after the video box is known, in the
      source's order: swap the axes of the face, scale each axis by its
      factor, move down by the box's y origin, then mirror horizontally. For
      non-negative factors the result is MapWith: the sizes are the swapped
      face sizes times their factors and never negative. */
  method PlaceInBox(faceBounds: Rect, parent: Size, widthScaleBy: real, heightScaleBy: real, previewBox: Rect)
    returns (frame: Rect)
    requires ValidFace(faceBounds) && 0.0 <= widthScaleBy && 0.0 <= heightScaleBy
    ensures frame == MapWith(faceBounds, parent, widthScaleBy, heightScaleBy, previewBox)
    ensures 0.0 <= frame.size.width && 0.0 <= frame.size.height
  {
    var faceRect := faceBounds;

    faceRect := faceRect.(size := Size(faceRect.size.height, faceRect.size.width));
    faceRect := faceRect.(origin := Point(faceRect.origin.y, faceRect.origin.x));

    faceRect := faceRect.(size := faceRect.size.(width := faceRect.size.width * widthScaleBy));
    faceRect := faceRect.(size := faceRect.size.(height := faceRect.size.height * heightScaleBy));
    faceRect := faceRect.(origin := faceRect.origin.(x := faceRect.origin.x * widthScaleBy));
    faceRect := faceRect.(origin := faceRect.origin.(y := faceRect.origin.y * heightScaleBy));

    NonNegativeProduct(faceBounds.size.height, widthScaleBy);
    NonNegativeProduct(faceBounds.size.width, heightScaleBy);
    ShiftThenMirror(faceRect, parent, previewBox);

    faceRect := OffsetBy(faceRect, 0.0, previewBox.origin.y);
    frame := Rect(Point(parent.width - faceRect.origin.x - faceRect.size.width / 2.0 - previewBox.origin.x / 2.0,
                        faceRect.origin.y),
                  Size(Width(faceRect), Height(faceRect)));
  }

  /** `calculateFaceRect`, with the preview layer's frame size passed in as
      `parent`: the video box, the two scale factors, then the placement.
      The result is the face swapped, scaled into the video box, shifted by
      its y origin and mirrored; its size keeps the face's aspect with the
      axes swapped. */
  method CalculateFaceRect(faceBounds: Rect, aperture: Size, parent: Size) returns (frame: Rect)
    requires ValidInputs(parent, aperture) && ValidFace(faceBounds)
    ensures var box := FillBox(parent, aperture);
      && frame.size.width == faceBounds.size.height * (box.size.width / aperture.height)
      && frame.size.height == faceBounds.size.width * (box.size.height / aperture.width)
      && frame.origin.y == faceBounds.origin.x * (box.size.height / aperture.width) + box.origin.y
      && frame.origin.x == parent.width - faceBounds.origin.y * (box.size.width / aperture.height)
                           - frame.size.width / 2.0 - box.origin.x / 2.0
    ensures 0.0 <= frame.size.width && 0.0 <= frame.size.height
    ensures frame.size.width * faceBounds.size.width == frame.size.height * faceBounds.size.height
    ensures frame == MappedFace(faceBounds, aperture, parent)
  {
    var previewBox := VideoBox(parent, aperture);

    var widthScaleBy := previewBox.size.width / aperture.height;
    var heightScaleBy := previewBox.size.height / aperture.width;
    UniformScale(parent, aperture);

    frame := PlaceInBox(faceBounds, parent, widthScaleBy, heightScaleBy, previewBox);
    MappedFaceScales(faceBounds, aperture, parent);
  }

  /** Moving a face along the sensor's y axis moves its overlay the opposite
      way along x, by the width factor; moving it along the sensor's x axis
      moves its overlay the same way along y, by the height factor. */
  lemma MapWithOrder(a: Rect, b: Rect, parent: Size, widthScale: real, heightScale: real, box: Rect)
    requires a.size == b.size
    ensures MapWith(b, parent, widthScale, heightScale, box).origin.x - MapWith(a, parent, widthScale, heightScale, box).origin.x
            == -(b.origin.y - a.origin.y) * widthScale
    ensures MapWith(b, parent, widthScale, heightScale, box).origin.y - MapWith(a, parent, widthScale, heightScale, box).origin.y
            == (b.origin.x - a.origin.x) * heightScale
  {
    assert b.origin.y * widthScale - a.origin.y * widthScale == (b.origin.y - a.origin.y) * widthScale;
    assert b.origin.x * heightScale - a.origin.x * heightScale == (b.origin.x - a.origin.x) * heightScale;
  }

  /** The horizontal mirror: moving a face down the sensor's y axis by d moves
      its overlay left by d times the scale, so the overlay's x strictly
      decreases as the face's y grows (size and parent fixed). */
  lemma MirrorReversesHorizontalOrder(a: Rect, b: Rect, aperture: Size, parent: Size)
    requires ValidInputs(parent, aperture)
    requires a.size == b.size && a.origin.y < b.origin.y
    ensures MappedFace(b, aperture, parent).origin.x - MappedFace(a, aperture, parent).origin.x
            == -(b.origin.y - a.origin.y) * FillScale(parent, aperture)
    ensures MappedFace(b, aperture, parent).origin.x < MappedFace(a, aperture, parent).origin.x
  {
    var s := FillScale(parent, aperture);
    UniformScale(parent, aperture);
    MapWithOrder(a, b, parent, s, s, FillBox(parent, aperture));
    ScaleStrict(0.0, b.origin.y - a.origin.y, s);
  }

  /** The sensor's x axis becomes the overlay's y axis without mirroring: a
      face further along x lands strictly lower on screen, by the scaled
      distance (size and parent fixed). */
  lemma SwapKeepsVerticalOrder(a: Rect, b: Rect, aperture: Size, parent: Size)
    requires ValidInputs(parent, aperture)
    requires a.size == b.size && a.origin.x < b.origin.x
    ensures MappedFace(b, aperture, parent).origin.y - MappedFace(a, aperture, parent).origin.y
            == (b.origin.x - a.origin.x) * FillScale(parent, aperture)
    ensures MappedFace(a, aperture, parent).origin.y < MappedFace(b, aperture, parent).origin.y
  {
    var s := FillScale(parent, aperture);
    UniformScale(parent, aperture);
    MapWithOrder(a, b, parent, s, s, FillBox(parent, aperture));
    ScaleStrict(0.0, b.origin.x - a.origin.x, s);
  }

  /** With one non-negative factor on both axes, a face lying within
      [0, extent] along the sensor's x axis lands within [oy, oy + extent x
      factor] on screen, where oy is the box's y origin. */
  lemma MapWithVerticalRange(faceBounds: Rect, parent: Size, scale: real, box: Rect, extent: real)
    requires ValidFace(faceBounds) && 0.0 <= scale
    requires 0.0 <= faceBounds.origin.x && faceBounds.origin.x + faceBounds.size.width <= extent
    ensures var r := MapWith(faceBounds, parent, scale, scale, box);
      && box.origin.y <= r.origin.y
      && r.origin.y + r.size.height <= box.origin.y + extent * scale
  {
    NonNegativeProduct(faceBounds.origin.x, scale);
    assert faceBounds.origin.x * scale + faceBounds.size.width * scale
        == (faceBounds.origin.x + faceBounds.size.width) * scale;
    NonNegativeProduct(extent - (faceBounds.origin.x + faceBounds.size.width), scale);
    assert (extent - (faceBounds.origin.x + faceBounds.size.width)) * scale
        == extent * scale - (faceBounds.origin.x + faceBounds.size.width) * scale;
  }

  /** A face lying within the aperture along the sensor's x axis lands, on
      screen, within the vertical extent of the video box shifted down by
      its y origin. */
  lemma FaceStaysInShiftedBoxVertically(faceBounds: Rect, aperture: Size, parent: Size)
    requires ValidInputs(parent, aperture) && ValidFace(faceBounds)
    requires 0.0 <= faceBounds.origin.x && faceBounds.origin.x + faceBounds.size.width <= aperture.width
    ensures var box := FillBox(parent, aperture);
            var r := MappedFace(faceBounds, aperture, parent);
      && box.origin.y <= r.origin.y
      && r.origin.y + r.size.height <= box.origin.y + box.size.height
  {
    var s := FillScale(parent, aperture);
    UniformScale(parent, aperture);
    MapWithVerticalRange(faceBounds, parent, s, FillBox(parent, aperture), aperture.width);
  }

  /** MapWith sees the face and the factors only through their products. */
  lemma MapWithScaledFace(faceBounds: Rect, parent: Size, scale: real, k: real, box: Rect)
    requires k != 0.0
    ensures MapWith(ScaleRect(faceBounds, k), parent, scale / k, scale / k, box)
            == MapWith(faceBounds, parent, scale, scale, box)
  {
    CancelScale(faceBounds.size.height, scale, k);
    CancelScale(faceBounds.size.width, scale, k);
    CancelScale(faceBounds.origin.x, scale, k);
    CancelScale(faceBounds.origin.y, scale, k);
    var small := MapWith(ScaleRect(faceBounds, k), parent, scale / k, scale / k, box);
    assert small.size.width == faceBounds.size.height * scale;
    assert small.origin.x == parent.width - faceBounds.origin.y * scale - small.size.width / 2.0 - box.origin.x / 2.0;
  }

  /** The overlay depends only on where the face lies relative to the clean
      aperture: measuring the face and the aperture in pixels k times
      smaller (a higher-resolution capture) gives the same rectangle on
      screen. */
  lemma OverlayIndependentOfResolution(faceBounds: Rect, aperture: Size, parent: Size, k: real)
    requires ValidInputs(parent, aperture) && 0.0 < k
    ensures ValidInputs(parent, ScaleSize(aperture, k))
    ensures MappedFace(ScaleRect(faceBounds, k), ScaleSize(aperture, k), parent)
            == MappedFace(faceBounds, aperture, parent)
  {
    FillScaleOfScaledAperture(parent, aperture, k);
    VideoBoxDependsOnlyOnAspect(parent, aperture, k);
    MapWithScaledFace(faceBounds, parent, FillScale(parent, aperture), k, FillBox(parent, aperture));
  }

  /** A 30 x 40 face at (100, 50) on the 1080 x 1920 preview of a 1920 x 1080
      aperture: the scale is 1 and the box has no offset, so the overlay is
      the face with its axes swapped, mirrored to x = 1080 - 50 - 40 / 2. */
  lemma FullHdPortraitFace()
    ensures MappedFace(Rect(Point(100.0, 50.0), Size(30.0, 40.0)), Size(1920.0, 1080.0), Size(1080.0, 1920.0))
            == Rect(Point(1010.0, 100.0), Size(40.0, 30.0))
  {
    FullHdPortraitBox();
    assert FillScale(Size(1080.0, 1920.0), Size(1920.0, 1080.0)) == 1.0;
  }
}
