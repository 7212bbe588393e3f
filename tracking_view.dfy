/**
 * The overlay view of the guidance screen: it stores the target and hand
 * points it draws, and converts between the detector's normalized image
 * coordinates and view points.
 */
module TrackingView {
  import opened Geometry
  import opened Numeric

  const LookAroundMessage: string := "Look around for a target object"
  const UncenteredOffset: real := 20.0

  /** The drag rectangle spanned by a start point and a drag vector, with non-negative size. */
  function RubberbandingRect(start: Point, vector: Point): (r: Rect)
    ensures r.size.width >= 0.0 && r.size.height >= 0.0
    ensures r.origin.x == Min(start.x, start.x + vector.x) && r.origin.y == Min(start.y, start.y + vector.y)
    ensures r.size.width == Abs(vector.x) && r.size.height == Abs(vector.y)
  {
    var pt1 := start;
    var pt2 := Point(start.x + vector.x, start.y + vector.y);
    Rect(Point(Min(pt1.x, pt2.x), Min(pt1.y, pt2.y)), Size(Abs(pt1.x - pt2.x), Abs(pt1.y - pt2.y)))
  }

  /**
   * The drag rectangle relative to the displayed image area, with the
   * origin moved to the lower-left corner as Vision expects; the zero
   * rectangle while the image area has no positive size.
   */
  function RubberbandingRectNormalized(start: Point, vector: Point, imageAreaRect: Rect): (r: Rect)
    ensures !(imageAreaRect.size.width > 0.0 && imageAreaRect.size.height > 0.0) ==> r == ZeroRect
    ensures imageAreaRect.size.width > 0.0 && imageAreaRect.size.height > 0.0 ==>
      Denormalize(r, imageAreaRect) == RubberbandingRect(start, vector)
  {
    if !(imageAreaRect.size.width > 0.0 && imageAreaRect.size.height > 0.0) then ZeroRect
    else
      var rect := RubberbandingRect(start, vector);
      var ia := imageAreaRect;
      var x := (rect.origin.x - ia.origin.x) / ia.size.width;
      var y := (rect.origin.y - ia.origin.y) / ia.size.height;
      var w := rect.size.width / ia.size.width;
      var h := rect.size.height / ia.size.height;
      var r := Rect(Point(x, 1.0 - y - h), Size(w, h));
      DenormalizeInverts(rect, ia);
      r
  }

  /** From Vision's normalized lower-left coordinates back to a view rectangle in the image area. */
  function Denormalize(r: Rect, ia: Rect): Rect {
    Rect(Point(r.origin.x * ia.size.width + ia.origin.x, (1.0 - r.origin.y - r.size.height) * ia.size.height + ia.origin.y),
         Size(r.size.width * ia.size.width, r.size.height * ia.size.height))
  }

  lemma DenormalizeInverts(rect: Rect, ia: Rect)
    requires ia.size.width > 0.0 && ia.size.height > 0.0
    ensures
      var h := rect.size.height / ia.size.height;
      var y := (rect.origin.y - ia.origin.y) / ia.size.height;
      Denormalize(Rect(Point((rect.origin.x - ia.origin.x) / ia.size.width, 1.0 - y - h),
                       Size(rect.size.width / ia.size.width, h)), ia) == rect
  {
    var h := rect.size.height / ia.size.height;
    var y := (rect.origin.y - ia.origin.y) / ia.size.height;
    assert (1.0 - (1.0 - y - h) - h) == y;
  }

  /**
   * The fraction of the camera image's width that falls outside the screen
   * on each side: `(pixelWidth - screenWidthInPixels) / (2 * screenWidthInPixels)`.
   */
  function OutsideFactor(pixelWidth: real, screenWidthInPixels: real): real
    requires screenWidthInPixels != 0.0
  {
    (pixelWidth - screenWidthInPixels) / (2.0 * screenWidthInPixels)
  }

  /**
   * `scale(cornerPoint:)`: a normalized detector point to a view point. The
   * x axis is mirrored and cropped by the part of the camera image outside
   * the screen, then both axes are scaled to the image area.
   */
  function Scale(point: Point, area: Size, pixelWidth: real, screenWidthInPixels: real): (r: Point)
    requires screenWidthInPixels != 0.0 && 1.0 - 2.0 * OutsideFactor(pixelWidth, screenWidthInPixels) != 0.0
    ensures r.x * (1.0 - 2.0 * OutsideFactor(pixelWidth, screenWidthInPixels))
         == ((1.0 - point.x) - OutsideFactor(pixelWidth, screenWidthInPixels)) * area.width
    ensures r.y == point.y * area.height
  {
    var f := OutsideFactor(pixelWidth, screenWidthInPixels);
    var scaledX := ((1.0 - point.x) - f) / (1.0 - 2.0 * f);
    MulDivCancels((1.0 - point.x) - f, 1.0 - 2.0 * f);
    Point(scaledX * area.width, point.y * area.height)
  }

  /** `Scale` is defined unless the camera image is exactly twice as wide as the screen. */
  lemma ScaleDefinedUnlessDoubleWidth(pixelWidth: real, screenWidthInPixels: real)
    requires screenWidthInPixels != 0.0
    ensures 1.0 - 2.0 * OutsideFactor(pixelWidth, screenWidthInPixels) != 0.0 <==> pixelWidth != 2.0 * screenWidthInPixels
  {
    var sw := screenWidthInPixels;
    var f := OutsideFactor(pixelWidth, sw);
    MulDivCancels(pixelWidth - sw, 2.0 * sw);
    assert f * (2.0 * sw) == pixelWidth - sw;
    assert (1.0 - 2.0 * f) * sw == 2.0 * sw - pixelWidth;
  }

  /** The normalized detector point that `Scale` sends to a given view point. */
  function Unscale(q: Point, area: Size, pixelWidth: real, screenWidthInPixels: real): Point
    requires screenWidthInPixels != 0.0 && area.width != 0.0 && area.height != 0.0
  {
    var f := OutsideFactor(pixelWidth, screenWidthInPixels);
    Point(1.0 - (q.x / area.width * (1.0 - 2.0 * f) + f), q.y / area.height)
  }

  /** `Unscale` undoes `Scale` whenever the image area has a non-zero size. */
  lemma ScaleRoundTrip(point: Point, area: Size, pixelWidth: real, screenWidthInPixels: real)
    requires screenWidthInPixels != 0.0 && 1.0 - 2.0 * OutsideFactor(pixelWidth, screenWidthInPixels) != 0.0
    requires area.width != 0.0 && area.height != 0.0
    ensures Unscale(Scale(point, area, pixelWidth, screenWidthInPixels), area, pixelWidth, screenWidthInPixels) == point
  {
    var f := OutsideFactor(pixelWidth, screenWidthInPixels);
    var d := 1.0 - 2.0 * f;
    var r := Scale(point, area, pixelWidth, screenWidthInPixels);
    var sx := ((1.0 - point.x) - f) / d;
    assert r.x == sx * area.width;
    DivCancels(sx, area.width);
    DivCancels(point.y, area.height);
    MulDivCancels((1.0 - point.x) - f, d);
    var u := Unscale(r, area, pixelWidth, screenWidthInPixels);
    assert u.x == 1.0 - (r.x / area.width * d + f);
    assert r.x / area.width == sx;
    assert u.x == point.x;
  }

  lemma DivCancels(a: real, b: real)
    requires b != 0.0
    ensures a * b / b == a
  {
  }

  lemma DivAdds(a: real, b: real, d: real)
    requires d != 0.0
    ensures a / d + b / d == (a + b) / d
  {
  }

  lemma DivSelf(d: real)
    requires d != 0.0
    ensures d / d == 1.0
  {
  }

  lemma MulDivCancels(a: real, b: real)
    requires b != 0.0
    ensures a / b * b == a
  {
  }

  /** Mirrored points land symmetrically: their x coordinates add up to the area width. */
  lemma ScaleMirrors(point: Point, area: Size, pixelWidth: real, screenWidthInPixels: real)
    requires screenWidthInPixels != 0.0 && 1.0 - 2.0 * OutsideFactor(pixelWidth, screenWidthInPixels) != 0.0
    ensures Scale(point, area, pixelWidth, screenWidthInPixels).x
          + Scale(Point(1.0 - point.x, point.y), area, pixelWidth, screenWidthInPixels).x == area.width
  {
    var f := OutsideFactor(pixelWidth, screenWidthInPixels);
    var d := 1.0 - 2.0 * f;
    var a := ((1.0 - point.x) - f) / d;
    var b := ((1.0 - (1.0 - point.x)) - f) / d;
    assert Scale(point, area, pixelWidth, screenWidthInPixels).x == a * area.width;
    assert Scale(Point(1.0 - point.x, point.y), area, pixelWidth, screenWidthInPixels).x == b * area.width;
    DivAdds((1.0 - point.x) - f, (1.0 - (1.0 - point.x)) - f, d);
    assert ((1.0 - point.x) - f) + ((1.0 - (1.0 - point.x)) - f) == d;
    DivSelf(d);
    assert a + b == 1.0;
    assert a * area.width + b * area.width == (a + b) * area.width;
  }

  /**
   * `scaleRect`: a normalized box size to view points, each axis scaled by
   * its own camera-to-screen factor.
   */
  function ScaleRect(width: real, height: real, pixelSize: Size, screenSize: Size,
                     screenWidthInPixels: real, screenHeightInPixels: real): (r: (real, real))
    requires screenWidthInPixels != 0.0 && screenHeightInPixels != 0.0
    ensures r.0 * screenWidthInPixels == pixelSize.width * screenSize.width * width
    ensures r.1 * screenHeightInPixels == pixelSize.height * screenSize.height * height
  {
    var scaleWidthFactor := pixelSize.width / screenWidthInPixels;
    var scaleHeightFactor := pixelSize.height / screenHeightInPixels;
    (scaleWidthFactor * screenSize.width * width, scaleHeightFactor * screenSize.height * height)
  }

  /** `ScaleRect` is linear in each axis. */
  lemma ScaleRectLinear(k: real, width: real, height: real, pixelSize: Size, screenSize: Size, swp: real, shp: real)
    requires swp != 0.0 && shp != 0.0
    ensures ScaleRect(k * width, k * height, pixelSize, screenSize, swp, shp).0 == k * ScaleRect(width, height, pixelSize, screenSize, swp, shp).0
    ensures ScaleRect(k * width, k * height, pixelSize, screenSize, swp, shp).1 == k * ScaleRect(width, height, pixelSize, screenSize, swp, shp).1
  {
  }

  class TrackingImageView {
    var imageAreaRect: Rect
    var targetPoint: Point
    var targetHeight: real
    var targetWidth: real
    var handPoint: Point
    var trackingRect: Rect
    var cvPixelSize: Size
    var indicationMessage: string
    var rubberbandingStart: Point
    var rubberbandingVector: Point
    const screenSize: Size
    const screenScale: real
    const screenWidthInPixels: real
    const screenHeightInPixels: real

    /** The screen has positive size and scale. */
    ghost predicate Valid() {
      screenSize.width > 0.0 && screenSize.height > 0.0 && screenScale > 0.0
      && screenWidthInPixels == screenSize.width * screenScale
      && screenHeightInPixels == screenSize.height * screenScale
    }

    constructor(screenSize: Size, screenScale: real)
      requires screenSize.width > 0.0 && screenSize.height > 0.0 && screenScale > 0.0
      ensures Valid() && this.screenSize == screenSize && this.screenScale == screenScale
      ensures IsReset() && imageAreaRect == ZeroRect
      ensures rubberbandingStart == Origin && rubberbandingVector == Origin
    {
      this.screenSize := screenSize;
      this.screenScale := screenScale;
      screenWidthInPixels := screenSize.width * screenScale;
      screenHeightInPixels := screenSize.height * screenScale;
      imageAreaRect := ZeroRect;
      targetPoint := Origin;
      targetHeight := 0.0;
      targetWidth := 0.0;
      handPoint := Origin;
      trackingRect := ZeroRect;
      cvPixelSize := ZeroSize;
      indicationMessage := LookAroundMessage;
      rubberbandingStart := Origin;
      rubberbandingVector := Origin;
      new;
      PixelsPositive(screenSize, screenScale);
    }

    /** Every field `resetTracking` restores holds its default. */
    ghost predicate IsReset()
      reads this
    {
      targetPoint == Origin && targetHeight == 0.0 && targetWidth == 0.0 && handPoint == Origin
      && trackingRect == ZeroRect && cvPixelSize == ZeroSize && indicationMessage == LookAroundMessage
    }

    method ResetTracking()
      modifies this
      ensures IsReset()
      ensures imageAreaRect == old(imageAreaRect)
      ensures rubberbandingStart == old(rubberbandingStart) && rubberbandingVector == old(rubberbandingVector)
    {
      targetPoint := Origin;
      targetHeight := 0.0;
      targetWidth := 0.0;
      handPoint := Origin;
      trackingRect := ZeroRect;
      cvPixelSize := ZeroSize;
      indicationMessage := LookAroundMessage;
    }

    /**
     * The geometry a render pass records: the tracking rectangle is the
     * drawn rectangle and, when there is a camera image, the image area is
     * the aspect-fill placement, as wide and tall as the tracking rectangle
     * and centred vertically.
     */
    method Layout(rect: Rect, imageSize: Size, hasImage: bool)
      requires hasImage ==> imageSize.width > 0.0 && imageSize.height > 0.0
      modifies this
      ensures trackingRect == rect
      ensures !hasImage ==> imageAreaRect == old(imageAreaRect)
      ensures hasImage ==> imageAreaRect.origin.x == 0.0 && imageAreaRect.size == Size(rect.Width(), rect.Height())
      ensures hasImage ==>
        imageAreaRect.origin.y == ((rect.size.height - ((rect.size.width / (imageSize.height / imageSize.width)).Floor as real)) / 2.0).Floor as real
      ensures targetPoint == old(targetPoint) && handPoint == old(handPoint) && cvPixelSize == old(cvPixelSize)
      ensures targetWidth == old(targetWidth) && targetHeight == old(targetHeight)
      ensures indicationMessage == old(indicationMessage)
    {
      trackingRect := rect;
      if hasImage {
        var aspectRatio := imageSize.height / imageSize.width;
        var fillHeight := (rect.size.width / aspectRatio).Floor as real;
        var imageY := ((rect.size.height - fillHeight) / 2.0).Floor as real;
        imageAreaRect := Rect(Point(0.0, imageY), Size(trackingRect.Width(), trackingRect.Height()));
      }
    }
  }

  lemma PixelsPositive(s: Size, k: real)
    requires s.width > 0.0 && s.height > 0.0 && k > 0.0
    ensures s.width * k > 0.0 && s.height * k > 0.0
  {
  }
}
