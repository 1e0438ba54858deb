/** The rectangle the camera image occupies relative to the preview layer.
    The preview layer shows the video with aspect-fill gravity, and the
    sensor delivers its frames rotated by 90 degrees against the portrait
    screen, so the aperture's height plays the part of the image width. */
module FrameGeometry {
  import opened Geometry

  /** What `videoBox` divides by must be non-zero: both sides of the clean
      aperture and the height of the preview frame. Sizes are never negative. */
  predicate ValidInputs(frame: Size, aperture: Size) {
    0.0 < aperture.width && 0.0 < aperture.height && 0.0 < frame.height && 0.0 <= frame.width
  }

  /** Aspect ratio of the aperture turned by 90 degrees. */
  function ApertureRatio(aperture: Size): real
    requires aperture.width != 0.0
  {
    aperture.height / aperture.width
  }

  /** Aspect ratio of the preview frame. */
  function ViewRatio(frame: Size): real
    requires frame.height != 0.0
  {
    frame.width / frame.height
  }

  /** The aspect-fill scale: the larger of the two per-axis factors that take
      the rotated aperture onto the frame. */
  function FillScale(frame: Size, aperture: Size): real
    requires ValidInputs(frame, aperture)
  {
    Max(frame.width / aperture.height, frame.height / aperture.width)
  }

  /** The rotated aperture scaled by `scale`, placed so that its origin
      records half of the overflow past the frame on each axis. */
  function BoxWith(frame: Size, aperture: Size, scale: real): Rect {
    var size := Size(aperture.height * scale, aperture.width * scale);
    Rect(Point((size.width - frame.width) / 2.0, (size.height - frame.height) / 2.0), size)
  }

  /** Reference definition of the video box: the rotated aperture scaled by
      the aspect-fill factor and centred on the frame. */
  function FillBox(frame: Size, aperture: Size): Rect
    requires ValidInputs(frame, aperture)
  {
    BoxWith(frame, aperture, FillScale(frame, aperture))
  }

  /** For a positive divisor, comparing with a quotient is comparing the
      product. */
  lemma QuotientBound(a: real, b: real, c: real)
    requires 0.0 < c
    ensures a <= b * c <==> a / c <= b
    ensures b * c <= a <==> b <= a / c
  {
    assert (a / c) * c == a;
    if a <= b * c {
      assert (a / c) * c <= b * c;
    }
    if a / c <= b {
      assert (a / c) * c <= b * c;
    }
    if b * c <= a {
      assert b * c <= (a / c) * c;
    }
    if b <= a / c {
      assert b * c <= (a / c) * c;
    }
  }

  /** Comparing the two aspect ratios is comparing the two per-axis scales:
      the frame is relatively wider than the rotated aperture exactly when
      fitting its width needs the larger factor. */
  lemma RatioOrder(frame: Size, aperture: Size)
    requires ValidInputs(frame, aperture)
    ensures ViewRatio(frame) > ApertureRatio(aperture)
            <==> frame.width / aperture.height > frame.height / aperture.width
  {
    var p := frame.width * aperture.width;
    var q := frame.height * aperture.height;
    // both comparisons are p > q after clearing the positive denominators
    assert ViewRatio(frame) == p / (frame.height * aperture.width);
    assert ApertureRatio(aperture) == q / (frame.height * aperture.width);
    assert frame.width / aperture.height == p / (aperture.width * aperture.height);
    assert frame.height / aperture.width == q / (aperture.width * aperture.height);
    QuotientBound(p, q / (frame.height * aperture.width), frame.height * aperture.width);
    QuotientBound(p, q / (aperture.width * aperture.height), aperture.width * aperture.height);
  }

  /** FillScale is the least factor at which the rotated aperture covers the
      whole frame: any smaller factor leaves part of the frame uncovered. */
  lemma FillScaleIsLeastCover(frame: Size, aperture: Size, t: real)
    requires ValidInputs(frame, aperture)
    ensures frame.width <= aperture.height * t && frame.height <= aperture.width * t
            <==> FillScale(frame, aperture) <= t
  {
    QuotientBound(frame.width, t, aperture.height);
    QuotientBound(frame.height, t, aperture.width);
  }

  /** The reference box covers the frame, fits it exactly on at least one
      axis, keeps the rotated aperture's aspect, and is centred on the frame
      with non-negative origin. */
  lemma FillBoxCovers(frame: Size, aperture: Size)
    requires ValidInputs(frame, aperture)
    ensures var box := FillBox(frame, aperture);
      && frame.width <= box.size.width && frame.height <= box.size.height
      && (box.size.width == frame.width || box.size.height == frame.height)
      && box.size.width * aperture.width == box.size.height * aperture.height
      && 0.0 <= box.origin.x && 0.0 <= box.origin.y
      && box.size.width - box.origin.x == frame.width + box.origin.x
      && box.size.height - box.origin.y == frame.height + box.origin.y
  {
    var s := FillScale(frame, aperture);
    FillScaleIsLeastCover(frame, aperture, s);
    assert aperture.height * (frame.width / aperture.height) == frame.width;
    assert aperture.width * (frame.height / aperture.width) == frame.height;
  }

  /** `videoBox(frameSize:apertureSize:)`: the assignments of the source in
      their order. The box covers the frame (aspect fill), so the branches
      for a box narrower or shorter than the frame are never taken. */
  method VideoBox(frame: Size, aperture: Size) returns (videoBox: Rect)
    requires ValidInputs(frame, aperture)
    ensures ViewRatio(frame) > ApertureRatio(aperture) ==> videoBox.size.width == frame.width
    ensures ViewRatio(frame) <= ApertureRatio(aperture) ==> videoBox.size.height == frame.height
    ensures videoBox.size.width * aperture.width == videoBox.size.height * aperture.height
    ensures frame.width <= videoBox.size.width && frame.height <= videoBox.size.height
    ensures videoBox.origin.x == Abs(videoBox.size.width - frame.width) / 2.0
    ensures videoBox.origin.y == Abs(videoBox.size.height - frame.height) / 2.0
    ensures videoBox == FillBox(frame, aperture)
  {
    var apertureRatio := aperture.height / aperture.width;
    var viewRatio := frame.width / frame.height;

    var size := ZeroSize;

    RatioOrder(frame, aperture);
    if viewRatio > apertureRatio {
      size := size.(width := frame.width);
      size := size.(height := aperture.width * (frame.width / aperture.height));
      assert aperture.height * (frame.width / aperture.height) == frame.width;
    } else {
      size := size.(width := aperture.height * (frame.height / aperture.width));
      size := size.(height := frame.height);
      assert aperture.width * (frame.height / aperture.width) == frame.height;
    }
    FillBoxCovers(frame, aperture);

    videoBox := Rect(ZeroPoint, size);

    if size.width < frame.width {
      videoBox := videoBox.(origin := videoBox.origin.(x := (frame.width - size.width) / 2.0));
    } else {
      videoBox := videoBox.(origin := videoBox.origin.(x := (size.width - frame.width) / 2.0));
    }

    if size.height < frame.height {
      videoBox := videoBox.(origin := videoBox.origin.(y := (frame.height - size.height) / 2.0));
    } else {
      videoBox := videoBox.(origin := videoBox.origin.(y := (size.height - frame.height) / 2.0));
    }
  }

  /** A product of positive factors is positive.
      Only a hint for the solver's nonlinear arithmetic, not a property of
      the model. */
  lemma PositiveProduct(a: real, b: real)
    requires 0.0 < a && 0.0 < b
    ensures 0.0 < a * b
  {
  }

  /** Dividing by b * k is dividing by b, then by k.
      Only a hint for the solver's nonlinear arithmetic, not a property of
      the model. */
  lemma DivideTwice(a: real, b: real, k: real)
    requires b != 0.0 && k != 0.0
    ensures a / (b * k) == (a / b) / k
  {
  }

  /** A factor k on one side and 1/k on the other cancel.
      Only a hint for the solver's nonlinear arithmetic, not a property of
      the model. */
  lemma CancelScale(a: real, s: real, k: real)
    requires k != 0.0
    ensures (a * k) * (s / k) == a * s
  {
  }

  /** Dividing by a positive k commutes with taking the larger value. */
  lemma MaxOverPositive(a: real, b: real, k: real)
    requires 0.0 < k
    ensures Max(a / k, b / k) == Max(a, b) / k
  {
    QuotientBound(a, b / k, k);
    assert (b / k) * k == b;
  }

  /** An aperture k times larger in both sides needs a factor k times
      smaller. */
  lemma FillScaleOfScaledAperture(frame: Size, aperture: Size, k: real)
    requires ValidInputs(frame, aperture) && 0.0 < k
    ensures ValidInputs(frame, ScaleSize(aperture, k))
    ensures FillScale(frame, ScaleSize(aperture, k)) == FillScale(frame, aperture) / k
  {
    var big := ScaleSize(aperture, k);
    PositiveProduct(aperture.width, k);
    PositiveProduct(aperture.height, k);
    var a, b := frame.width / aperture.height, frame.height / aperture.width;
    DivideTwice(frame.width, aperture.height, k);
    DivideTwice(frame.height, aperture.width, k);
    assert FillScale(frame, big) == Max(a / k, b / k);
    MaxOverPositive(a, b, k);
  }

  /** BoxWith sees the aperture and the factor only through their product. */
  lemma BoxWithScaledAperture(frame: Size, aperture: Size, scale: real, k: real)
    requires k != 0.0
    ensures BoxWith(frame, ScaleSize(aperture, k), scale / k) == BoxWith(frame, aperture, scale)
  {
    CancelScale(aperture.height, scale, k);
    CancelScale(aperture.width, scale, k);
  }

  /** The video box depends on the clean aperture only through its aspect
      ratio: an aperture k times larger in both sides gives the same box. */
  lemma VideoBoxDependsOnlyOnAspect(frame: Size, aperture: Size, k: real)
    requires ValidInputs(frame, aperture) && 0.0 < k
    ensures ValidInputs(frame, ScaleSize(aperture, k))
    ensures FillBox(frame, ScaleSize(aperture, k)) == FillBox(frame, aperture)
  {
    FillScaleOfScaledAperture(frame, aperture, k);
    BoxWithScaledAperture(frame, aperture, FillScale(frame, aperture), k);
  }

  /** A portrait 1080 x 1920 preview over a 1920 x 1080 aperture: the two
      ratios are equal, so the height branch is taken and the box is the
      frame itself. */
  lemma FullHdPortraitBox()
    ensures FillBox(Size(1080.0, 1920.0), Size(1920.0, 1080.0)) == Rect(Point(0.0, 0.0), Size(1080.0, 1920.0))
    ensures ViewRatio(Size(1080.0, 1920.0)) == ApertureRatio(Size(1920.0, 1080.0))
  {
    assert FillScale(Size(1080.0, 1920.0), Size(1920.0, 1080.0)) == 1.0;
  }
}
