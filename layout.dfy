/** The geometry `setupBounds` derives from the drawable's pixel bounds: a
    centred outer rectangle, the circle bounds the rim and bar are stroked
    on, the two contour rings, and the two radii. */
module Layout {
  import opened Java

  /** A rectangle whose corners are Java `int`s (the float rectangles the
      drawable stores are built from `int` expressions). */
  datatype Rect = Rect(left: Int32, top: Int32, right: Int32, bottom: Int32)

  /** A float rectangle, modelled over the reals. */
  datatype RealRect = RealRect(left: real, top: real, right: real, bottom: real)

  /** `inner` lies within `outer` and has no negative extent. */
  predicate Within(inner: Rect, outer: Rect) {
    && outer.left <= inner.left <= inner.right <= outer.right
    && outer.top <= inner.top <= inner.bottom <= outer.bottom
  }

  /** The padding on either side of one axis: half of what `side` exceeds the
      shorter of the two sides by, truncated. */
  function AxisPadding(side: Int32, other: Int32): Int32 {
    Quot2(Sub(side, Min(side, other)))
  }

  /** `rectBounds` of a `width` x `height` region: the region minus its
      paddings. */
  function OuterRect(width: Int32, height: Int32): Rect {
    var px, py := AxisPadding(width, height), AxisPadding(height, width);
    Rect(px, py, Sub(width, px), Sub(height, py))
  }

  /** `r` shrunk by `d` on each of its four sides, in `int` arithmetic. */
  function Inset(r: Rect, d: Int32): Rect {
    Rect(Add(r.left, d), Add(r.top, d), Sub(r.right, d), Sub(r.bottom, d))
  }

  function AsReal(r: Rect): RealRect {
    RealRect(r.left as real, r.top as real, r.right as real, r.bottom as real)
  }

  /** `r` shrunk by `d` on each side; grown when `d` is negative. */
  function RealInset(r: RealRect, d: real): RealRect {
    RealRect(r.left + d, r.top + d, r.right - d, r.bottom - d)
  }

  /** How far both contour rings lie from the circle bounds: half the rim
      width plus half the contour width. */
  function ContourOffset(rimWidth: Int32, contourSize: real): real {
    rimWidth as real / 2.0 + contourSize / 2.0
  }

  /** `fullRadius` as `setupBounds` computes it: half of the region width
      less the right padding and the bar width. */
  function FullRadius(width: Int32, height: Int32, barWidth: Int32): Int32 {
    Quot2(Sub(Sub(width, AxisPadding(width, height)), barWidth))
  }

  /** `circleRadius` as `setupBounds` computes it from `fullRadius`. */
  function CircleRadius(fullRadius: Int32, barWidth: Int32): Int32 {
    Add(Sub(fullRadius, barWidth), 1)
  }

  /** Everything `setupBounds` derives from a `width` x `height` region, the
      bar width, the rim width and the contour size. */
  datatype Geometry = Geometry(
    xPadding: Int32, yPadding: Int32, rectBounds: Rect, circleBounds: Rect,
    circleInnerContour: RealRect, circleOuterContour: RealRect,
    fullRadius: Int32, circleRadius: Int32)

  function SetupGeometry(width: Int32, height: Int32, barWidth: Int32, rimWidth: Int32, contourSize: real): Geometry {
    var outer := OuterRect(width, height);
    var circle := Inset(outer, barWidth);
    var offset := ContourOffset(rimWidth, contourSize);
    var full := FullRadius(width, height, barWidth);
    Geometry(AxisPadding(width, height), AxisPadding(height, width), outer, circle,
             RealInset(AsReal(circle), offset), RealInset(AsReal(circle), -offset),
             full, CircleRadius(full, barWidth))
  }

  /** For a region of non-negative size the outer rectangle is centred (equal
      paddings on opposite sides), at least one axis has no padding, and it
      is a square of the shorter side, one pixel wider or taller when the
      excess on the other axis is odd. */
  lemma OuterRectIsCentredSquare(width: Int32, height: Int32)
    requires 0 <= width && 0 <= height
    ensures var r, m := OuterRect(width, height), Min(width, height);
      && r.left == width - r.right && r.top == height - r.bottom
      && r.left == (width - m) / 2 && r.top == (height - m) / 2
      && (r.left == 0 || r.top == 0)
      && r.right - r.left == m + (width - m) % 2
      && r.bottom - r.top == m + (height - m) % 2
  {
  }

  /** With non-negative sizes and a bar at most half the shorter side, the
      circle bounds lie within the outer rectangle, which lies within the
      region; the circle bounds are the outer rectangle shrunk by exactly the
      bar width on every side. */
  lemma BoundsNest(width: Int32, height: Int32, barWidth: Int32)
    requires 0 <= width && 0 <= height && 0 <= barWidth
    requires 2 * barWidth <= Min(width, height)
    ensures var outer := OuterRect(width, height);
      var circle := Inset(outer, barWidth);
      && Within(outer, Rect(0, 0, width, height))
      && Within(circle, outer)
      && circle.left - outer.left == outer.right - circle.right == barWidth
      && circle.top - outer.top == outer.bottom - circle.bottom == barWidth
  {
    OuterRectIsCentredSquare(width, height);
  }

  /** The contour rings straddle the circle bounds at the same distance
      inside and outside. */
  lemma ContoursStraddleCircle(circle: Rect, rimWidth: Int32, contourSize: real)
    requires 0 <= rimWidth && 0.0 <= contourSize
    ensures var d, c := ContourOffset(rimWidth, contourSize), AsReal(circle);
      var inner, outer := RealInset(c, d), RealInset(c, -d);
      && outer.left <= c.left <= inner.left && inner.right <= c.right <= outer.right
      && outer.top <= c.top <= inner.top && inner.bottom <= c.bottom <= outer.bottom
      && inner.left - c.left == c.left - outer.left == c.right - inner.right == outer.right - c.right == d
      && inner.top - c.top == c.top - outer.top == c.bottom - inner.bottom == outer.bottom - c.bottom == d
      && d == rimWidth as real / 2.0 + contourSize / 2.0
  {
  }

  /** `fullRadius` is half the x coordinate of the circle bounds' right edge,
      measured from the region's left edge rather than from the circle's. */
  lemma FullRadiusFromRightEdge(width: Int32, height: Int32, barWidth: Int32)
    ensures FullRadius(width, height, barWidth) == Quot2(Inset(OuterRect(width, height), barWidth).right)
  {
  }

  /** On a square region the full radius reaches the outer edge of the bar
      (stroked centred on the circle bounds) and the inner circle reaches one
      pixel past the bar's inner edge, up to the truncations: doubled, the
      radii are the circle bounds' width plus or minus the bar width. */
  lemma SquareRadii(side: Int32, barWidth: Int32)
    requires 0 <= barWidth && 2 * barWidth <= side
    ensures var circle := Inset(OuterRect(side, side), barWidth);
      var full := FullRadius(side, side, barWidth);
      var cw := circle.right - circle.left;
      && cw == side - 2 * barWidth
      && cw + barWidth - 1 <= 2 * full <= cw + barWidth
      && cw - barWidth + 1 <= 2 * CircleRadius(full, barWidth) <= cw - barWidth + 2
  {
    BoundsNest(side, side, barWidth);
  }

  /** `fullRadius` leaves out the left padding, so once a region is wider
      than tall by at least twice the bar width, the inner circle is wider
      than the circle bounds it is meant to fill. */
  lemma WideInnerCircleOverflows(width: Int32, height: Int32, barWidth: Int32)
    requires 0 <= barWidth && 2 * barWidth <= height && height + 2 * barWidth <= width
    ensures var circle := Inset(OuterRect(width, height), barWidth);
      circle.right - circle.left < 2 * CircleRadius(FullRadius(width, height, barWidth), barWidth)
  {
    var px := AxisPadding(width, height);
    assert px == (width - height) / 2 && barWidth <= px;
  }

  /** 400 x 200 with the default bar width of 20 gives circle bounds 160
      wide and an inner radius of 121, while 220 x 200, not wide enough,
      gives circle bounds 160 wide and an inner radius of 76. */
  lemma LandscapeInnerCircleOverflows()
    ensures Inset(OuterRect(400, 200), 20) == Rect(120, 20, 280, 180)
    ensures FullRadius(400, 200, 20) == 140
    ensures CircleRadius(FullRadius(400, 200, 20), 20) == 121
    ensures Inset(OuterRect(220, 200), 20) == Rect(30, 20, 190, 180)
    ensures CircleRadius(FullRadius(220, 200, 20), 20) == 76
  {
  }
}
