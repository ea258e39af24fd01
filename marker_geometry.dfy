/** The zoom-to-geometry scaler shared by both marker builders: a clamped
    linear interpolation gives the photo width, every other dimension is
    scaled from its base value by photoWidth / 160 and held above a floor,
    and the icon's container and anchors are composed from the card. */
module MarkerGeometry {
  import opened Common

  // Base dimensions of the marker at its largest size.
  const BasePhotoWidth: int := 160
  const BaseBorder: int := 12
  const BaseCaptionHeight: int := 30
  const BasePinOffset: int := 25
  const BasePinFontSize: int := 30
  const BaseRotationBuffer: int := 12

  // Photo width targets and the zoom levels at which they are reached.
  const MinPhotoWidth: int := 40
  const MaxPhotoWidth: int := BasePhotoWidth
  const ZoomForMinSize: real := 7.0
  const ZoomForMaxSize: real := 13.0

  /** Clamped linear interpolation: `minValue` at or below `minThreshold`,
      `maxValue` at or above `maxThreshold`, a straight line in between. */
  function Interpolate(current: real, minThreshold: real, maxThreshold: real,
                       minValue: real, maxValue: real): (r: real)
    ensures current <= minThreshold ==> r == minValue
    ensures minThreshold < current && maxThreshold <= current ==> r == maxValue
    ensures minThreshold < current < maxThreshold ==>
              (r - minValue) * (maxThreshold - minThreshold)
                == (current - minThreshold) * (maxValue - minValue)
    ensures minValue <= maxValue ==> minValue <= r <= maxValue
  {
    if current <= minThreshold then minValue
    else if current >= maxThreshold then maxValue
    else
      var range := maxThreshold - minThreshold;
      var valueRange := maxValue - minValue;
      var t := (current - minThreshold) / range;
      assert t * range == current - minThreshold;
      var u := 1.0 - t;
      assert u * range == range - t * range;
      assert u * range == maxThreshold - current;
      PositiveFactor(t, range);
      PositiveFactor(u, range);
      assert minValue <= maxValue ==> 0.0 <= t * valueRange <= valueRange by {
        if minValue <= maxValue { ScaleBelow(t, valueRange); }
      }
      minValue + t * valueRange
  }

  lemma PositiveFactor(a: real, b: real)
    requires b > 0.0 && a * b > 0.0
    ensures a > 0.0
  {
  }

  lemma ScaleBelow(t: real, v: real)
    requires 0.0 <= t <= 1.0 && 0.0 <= v
    ensures 0.0 <= t * v <= v
  {
    assert v - t * v == (1.0 - t) * v;
  }

  /** Between the thresholds the interpolation never decreases. */
  lemma InterpolateMonotone(c1: real, c2: real, minThreshold: real, maxThreshold: real,
                            minValue: real, maxValue: real)
    requires minThreshold < maxThreshold && minValue <= maxValue && c1 <= c2
    ensures Interpolate(c1, minThreshold, maxThreshold, minValue, maxValue)
         <= Interpolate(c2, minThreshold, maxThreshold, minValue, maxValue)
  {
    var range := maxThreshold - minThreshold;
    var valueRange := maxValue - minValue;
    if minThreshold < c1 && c2 < maxThreshold {
      var t1 := (c1 - minThreshold) / range;
      var t2 := (c2 - minThreshold) / range;
      assert t1 <= t2;
      assert t2 * valueRange - t1 * valueRange == (t2 - t1) * valueRange;
    }
  }

  /** The photo width at a zoom level: Math.max(20, Math.round(interpolate(...))). */
  function PhotoWidth(zoom: real): (w: int)
    ensures MinPhotoWidth <= w <= MaxPhotoWidth
    ensures zoom <= ZoomForMinSize ==> w == MinPhotoWidth
    ensures zoom >= ZoomForMaxSize ==> w == MaxPhotoWidth
  {
    var v := Interpolate(zoom, ZoomForMinSize, ZoomForMaxSize,
                         MinPhotoWidth as real, MaxPhotoWidth as real);
    RoundMonotone(MinPhotoWidth as real, v);
    RoundMonotone(v, MaxPhotoWidth as real);
    RoundOfInt(MinPhotoWidth);
    RoundOfInt(MaxPhotoWidth);
    Max(20, Round(v))
  }

  lemma PhotoWidthMonotone(z1: real, z2: real)
    requires z1 <= z2
    ensures PhotoWidth(z1) <= PhotoWidth(z2)
  {
    InterpolateMonotone(z1, z2, ZoomForMinSize, ZoomForMaxSize,
                        MinPhotoWidth as real, MaxPhotoWidth as real);
    RoundMonotone(Interpolate(z1, ZoomForMinSize, ZoomForMaxSize, MinPhotoWidth as real, MaxPhotoWidth as real),
                  Interpolate(z2, ZoomForMinSize, ZoomForMaxSize, MinPhotoWidth as real, MaxPhotoWidth as real));
  }

  /** A dimension scaled with the photo: Math.max(floor, Math.round(base * photoWidth / 160)).
      It never falls below its floor, never exceeds the larger of floor and
      base, and equals the base at full photo size. */
  function Scaled(floor: int, base: int, photoWidth: int): (r: int)
    requires 0 <= base && 0 <= photoWidth <= MaxPhotoWidth
    ensures floor <= r <= Max(floor, base)
    ensures photoWidth == MaxPhotoWidth ==> r == Max(floor, base)
  {
    var scaleFactor := photoWidth as real / MaxPhotoWidth as real;
    ScaleBelow(scaleFactor, base as real);
    RoundMonotone(base as real * scaleFactor, base as real);
    RoundOfInt(base);
    Max(floor, Round(base as real * scaleFactor))
  }

  lemma ScaledMonotone(floor: int, base: int, w1: int, w2: int)
    requires 0 <= base && 0 <= w1 <= w2 <= MaxPhotoWidth
    ensures Scaled(floor, base, w1) <= Scaled(floor, base, w2)
  {
    var s1 := w1 as real / MaxPhotoWidth as real;
    var s2 := w2 as real / MaxPhotoWidth as real;
    assert s1 <= s2;
    assert base as real * s2 - base as real * s1 == base as real * (s2 - s1);
    RoundMonotone(base as real * s1, base as real * s2);
  }

  /** The pixel dimensions of one marker card. */
  datatype Dimensions = Dimensions(
    photoWidth: int,
    photoHeight: int,
    border: int,
    captionHeight: int,
    pinOffset: int,
    pinFontSize: int,
    captionFontSize: int,
    rotationBuffer: int)

  /** All card dimensions at a zoom level; the two marker builders differ
      only in the base caption font size they pass. */
  function DimensionsAt(zoom: real, captionFontBase: nat): (d: Dimensions)
    ensures MinPhotoWidth <= d.photoWidth <= MaxPhotoWidth && d.photoHeight == d.photoWidth
    ensures 4 <= d.border <= BaseBorder
    ensures 15 <= d.captionHeight <= BaseCaptionHeight
    ensures 10 <= d.pinOffset <= BasePinOffset
    ensures 14 <= d.pinFontSize <= BasePinFontSize
    ensures 8 <= d.captionFontSize <= Max(8, captionFontBase)
    ensures 6 <= d.rotationBuffer <= BaseRotationBuffer
  {
    var w := PhotoWidth(zoom);
    Dimensions(
      w, w,
      Scaled(4, BaseBorder, w),
      Scaled(15, BaseCaptionHeight, w),
      Scaled(10, BasePinOffset, w),
      Scaled(14, BasePinFontSize, w),
      Scaled(8, captionFontBase, w),
      Scaled(6, BaseRotationBuffer, w))
  }

  /** Zooming in never shrinks any dimension of the card. */
  lemma DimensionsMonotone(z1: real, z2: real, captionFontBase: nat)
    requires z1 <= z2
    ensures var d1, d2 := DimensionsAt(z1, captionFontBase), DimensionsAt(z2, captionFontBase);
      d1.photoWidth <= d2.photoWidth && d1.photoHeight <= d2.photoHeight &&
      d1.border <= d2.border && d1.captionHeight <= d2.captionHeight &&
      d1.pinOffset <= d2.pinOffset && d1.pinFontSize <= d2.pinFontSize &&
      d1.captionFontSize <= d2.captionFontSize && d1.rotationBuffer <= d2.rotationBuffer
  {
    var w1, w2 := PhotoWidth(z1), PhotoWidth(z2);
    PhotoWidthMonotone(z1, z2);
    ScaledMonotone(4, BaseBorder, w1, w2);
    ScaledMonotone(15, BaseCaptionHeight, w1, w2);
    ScaledMonotone(10, BasePinOffset, w1, w2);
    ScaledMonotone(14, BasePinFontSize, w1, w2);
    ScaledMonotone(8, captionFontBase, w1, w2);
    ScaledMonotone(6, BaseRotationBuffer, w1, w2);
  }

  /** At or below zoom 7 the photo is 40 pixels wide, a quarter of its base,
      and every dimension but the caption font sits at its floor. */
  lemma DimensionsAtMinZoom(zoom: real, captionFontBase: nat)
    requires zoom <= ZoomForMinSize
    ensures DimensionsAt(zoom, captionFontBase)
         == Dimensions(40, 40, 4, 15, 10, 14, Max(8, Round(captionFontBase as real / 4.0)), 6)
  {
    assert PhotoWidth(zoom) == 40;
    assert 40 as real / 160 as real == 0.25;
    assert captionFontBase as real * 0.25 == captionFontBase as real / 4.0;
    assert Round(12.0 * 0.25) == 3;
    assert Round(30.0 * 0.25) == 8;
    assert Round(25.0 * 0.25) == 6;
  }

  /** At or above zoom 13 every dimension equals its base value. */
  lemma DimensionsAtMaxZoom(zoom: real, captionFontBase: nat)
    requires zoom >= ZoomForMaxSize
    ensures DimensionsAt(zoom, captionFontBase)
         == Dimensions(160, 160, 12, 30, 25, 30, Max(8, captionFontBase), 12)
  {
  }

  /** The icon's geometry, in the units Leaflet's divIcon takes. */
  datatype IconGeometry = IconGeometry(
    cardWidth: int,
    cardHeight: int,
    containerWidth: int,
    containerHeight: int,
    anchorX: real,
    anchorY: real,
    popupAnchorX: real,
    popupAnchorY: real)

  /** Composes container and anchors around a card of the given height:
      the card is photo plus a border on each side wide, the container adds
      the rotation buffer (and the pin above the card), the icon anchor is
      horizontally centred at the pin's tip and the popup opens above the pin. */
  function IconLayout(d: Dimensions, cardHeight: int): (g: IconGeometry)
    ensures g.cardWidth == d.photoWidth + 2 * d.border && g.cardHeight == cardHeight
    ensures g.containerWidth == g.cardWidth + d.rotationBuffer
    ensures g.containerHeight == cardHeight + d.pinOffset + d.rotationBuffer
    ensures 2.0 * g.anchorX == g.containerWidth as real
    ensures g.anchorY == d.pinOffset as real + d.rotationBuffer as real / 2.0
    ensures g.popupAnchorX == 0.0
    ensures g.popupAnchorY == -(cardHeight as real / 2.0) - d.pinOffset as real
  {
    var cardWidth := d.photoWidth + 2 * d.border;
    var containerWidth := cardWidth + d.rotationBuffer;
    var containerHeight := cardHeight + d.pinOffset + d.rotationBuffer;
    IconGeometry(
      cardWidth, cardHeight, containerWidth, containerHeight,
      containerWidth as real / 2.0,
      d.pinOffset as real + d.rotationBuffer as real / 2.0,
      0.0,
      -(cardHeight as real / 2.0) - d.pinOffset as real)
  }

  /** For every zoom the anchor point lies strictly inside the icon's box
      and the popup opens above the anchor. */
  lemma AnchorInsideIcon(d: Dimensions, cardHeight: int)
    requires d.photoWidth > 0 && d.border >= 0 && d.rotationBuffer > 0 && d.pinOffset > 0
    requires cardHeight > 0
    ensures var g := IconLayout(d, cardHeight);
      0.0 < g.anchorX < g.containerWidth as real &&
      0.0 < g.anchorY < g.containerHeight as real &&
      g.popupAnchorY < 0.0
  {
  }

  /** Everything the marker builder needs to draw one card at one zoom. */
  datatype RenderSpec = RenderSpec(dims: Dimensions, icon: IconGeometry)
}
