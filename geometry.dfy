/**
 * Integer arithmetic, bounds and path shapes shared by both versions of the
 * RoundableImageView widget.
 *
 * A Java `int` is modelled as an `Int32` and every `int` operation the widget
 * performs wraps explicitly; the widget's `float` values (radii, stroke width,
 * centres) are modelled as `real`.
 */
module Geometry {

  const MinInt32: int := -0x8000_0000
  const MaxInt32: int := 0x7fff_ffff
  const Int32Span: int := 0x1_0000_0000

  /** A Java `int`. */
  type Int32 = x: int | MinInt32 <= x <= MaxInt32

  /** The margin added to the circular border radius against anti-aliasing seams (0.3f). */
  const BorderAlphaMargin: real := 0.3

  predicate InInt32(x: int) {
    MinInt32 <= x <= MaxInt32
  }

  /** Two's-complement wrap-around of an exact result into a Java `int`. */
  function Wrap32(x: int): (r: Int32)
    ensures (r - x) % Int32Span == 0
    ensures InInt32(x) ==> r == x
  {
    var m := x % Int32Span;
    if m <= MaxInt32 then m else m - Int32Span
  }

  /** `Math.max(int, int)` */
  function Max(a: int, b: int): int {
    if a >= b then a else b
  }

  /** `Math.min(int, int)` */
  function Min(a: int, b: int): int {
    if a <= b then a else b
  }

  /** The view's size and padding, all owned by the host layout. */
  datatype Bounds = Bounds(
    width: Int32, height: Int32,
    paddingLeft: Int32, paddingTop: Int32, paddingRight: Int32, paddingBottom: Int32)

  /** Width left when the larger horizontal padding is taken off both sides (exact arithmetic). */
  function EffectiveWidth(b: Bounds): int {
    b.width - 2 * Max(b.paddingLeft, b.paddingRight)
  }

  /** Height left when the larger vertical padding is taken off both sides (exact arithmetic). */
  function EffectiveHeight(b: Bounds): int {
    b.height - 2 * Max(b.paddingTop, b.paddingBottom)
  }

  /** No intermediate `int` of `LowerDimen` leaves the 32-bit range. */
  predicate FitsInt32(b: Bounds) {
    && InInt32(2 * Max(b.paddingLeft, b.paddingRight)) && InInt32(EffectiveWidth(b))
    && InInt32(2 * Max(b.paddingTop, b.paddingBottom)) && InInt32(EffectiveHeight(b))
  }

  /**
   * `getLowerDimenValue`: the smaller of the two effective dimensions, computed
   * with Java `int` arithmetic. When nothing overflows it is exactly the smaller
   * of the effective width and height.
   */
  function LowerDimen(b: Bounds): (r: Int32)
    ensures FitsInt32(b) ==> r == Min(EffectiveWidth(b), EffectiveHeight(b))
    ensures FitsInt32(b) ==> r <= EffectiveWidth(b) && r <= EffectiveHeight(b)
  {
    var w := Wrap32(b.width - Wrap32(2 * Max(b.paddingLeft, b.paddingRight)));
    var h := Wrap32(b.height - Wrap32(2 * Max(b.paddingTop, b.paddingBottom)));
    Min(w, h)
  }

  /**
   * An Android `Path` as the widget uses it: reset (empty), one clockwise
   * circle, or one clockwise rounded rectangle spanning (0, 0, right, bottom)
   * with the radii array copied at the time it was added.
   */
  datatype Path =
    | Empty
    | Circle(cx: real, cy: real, radius: real)
    | RoundRect(right: real, bottom: real, radii: seq<real>)

  /** What the path builders read from the widget besides its bounds. */
  datatype Style = Style(isCircle: bool, corners: seq<real>, strokeWidth: real, hasBorder: bool)

  /** Radius of the circular clip. */
  function ClipRadius(b: Bounds): real {
    LowerDimen(b) as real / 2.0
  }

  /**
   * Radius of the circular border: half a stroke inside the clip circle, pushed
   * out by the anti-aliasing margin. It is negative once the stroke is wider
   * than the lower dimension plus twice the margin.
   */
  function BorderRadius(b: Bounds, strokeWidth: real): (r: real)
    ensures r == ClipRadius(b) - strokeWidth / 2.0 + BorderAlphaMargin
    ensures r < 0.0 <==> strokeWidth > LowerDimen(b) as real + 2.0 * BorderAlphaMargin
  {
    (LowerDimen(b) as real - strokeWidth) / 2.0 + BorderAlphaMargin
  }

  /** The path `getClipPath` builds after a reset. */
  function ClipShape(b: Bounds, s: Style): (p: Path)
    ensures p != Empty
    ensures p.Circle? <==> s.isCircle
  {
    if s.isCircle then
      Circle(b.width as real / 2.0, b.height as real / 2.0, ClipRadius(b))
    else
      RoundRect(b.width as real, b.height as real, s.corners)
  }

  /** The path `getBorderPath` builds after a reset. */
  function BorderShape(b: Bounds, s: Style): (p: Path)
    ensures p != Empty
    ensures p.Circle? <==> s.isCircle
  {
    if s.isCircle then
      Circle(b.width as real / 2.0, b.height as real / 2.0, BorderRadius(b, s.strokeWidth))
    else
      RoundRect(b.width as real, b.height as real, s.corners)
  }

  /**
   * The circular border is concentric with the circular clip, centred in the
   * view, and lies inside the clip exactly when the stroke is wider than twice
   * the margin.
   */
  lemma CircleBorderInsetFromClip(b: Bounds, s: Style)
    requires s.isCircle
    ensures ClipShape(b, s).Circle? && BorderShape(b, s).Circle?
    ensures ClipShape(b, s).cx == BorderShape(b, s).cx == b.width as real / 2.0
    ensures ClipShape(b, s).cy == BorderShape(b, s).cy == b.height as real / 2.0
    ensures BorderShape(b, s).radius == ClipShape(b, s).radius - s.strokeWidth / 2.0 + BorderAlphaMargin
    ensures BorderShape(b, s).radius < ClipShape(b, s).radius <==> s.strokeWidth > 2.0 * BorderAlphaMargin
  {
  }

  /**
   * The rounded-rectangle clip and border ignore padding: they span the whole
   * view and coincide with each other.
   */
  lemma RoundRectIgnoresPadding(b1: Bounds, b2: Bounds, s: Style)
    requires !s.isCircle
    requires b1.width == b2.width && b1.height == b2.height
    ensures ClipShape(b1, s) == RoundRect(b1.width as real, b1.height as real, s.corners)
    ensures ClipShape(b1, s) == ClipShape(b2, s) == BorderShape(b1, s) == BorderShape(b2, s)
  {
  }

  /**
   * Padding on one side only still shrinks the circle on both: padding left
   * = p on an n x n view gives lower dimension n - 2p (80 for n = 100,
   * p = 10) and a clip circle of radius n/2 - p centred in the view.
   */
  lemma OneSidedPaddingShrinksCircle(n: Int32, p: Int32)
    requires 0 <= p && 2 * p <= n
    ensures LowerDimen(Bounds(n, n, p, 0, 0, 0)) == n - 2 * p
    ensures ClipShape(Bounds(n, n, p, 0, 0, 0), Style(true, [], 0.0, false)) ==
      Circle(n as real / 2.0, n as real / 2.0, n as real / 2.0 - p as real)
  {
    assert FitsInt32(Bounds(n, n, p, 0, 0, 0));
  }

  /**
   * A stroke wider than the circle plus twice the margin gives the border
   * circle a negative radius; nothing guards against it (a 200-wide stroke on
   * a 100 x 100 circle gives -49.7).
   */
  lemma OversizedStrokeGivesNegativeRadius(n: Int32, stroke: real)
    requires 0 <= n && stroke > n as real + 2.0 * BorderAlphaMargin
    ensures BorderShape(Bounds(n, n, 0, 0, 0, 0), Style(true, [], stroke, true)) ==
      Circle(n as real / 2.0, n as real / 2.0, (n as real - stroke) / 2.0 + BorderAlphaMargin)
    ensures BorderShape(Bounds(n, n, 0, 0, 0, 0), Style(true, [], stroke, true)).radius < 0.0
  {
    assert FitsInt32(Bounds(n, n, 0, 0, 0, 0));
  }

  /**
   * A padding of 0x50000000 or more makes `2 * padding` wrap to a negative
   * `int`: the exact effective width is negative, yet the lower dimension of
   * a w x w view comes out as w, as if there were no padding at all.
   */
  lemma HugePaddingWrapsAround(w: Int32, p: Int32)
    requires 0x5000_0000 <= p && 0 <= w < 0x2000_0000
    ensures EffectiveWidth(Bounds(w, w, p, 0, 0, 0)) < 0
    ensures LowerDimen(Bounds(w, w, p, 0, 0, 0)) == w
  {
    assert Wrap32(2 * p) == 2 * p - Int32Span;
    assert Wrap32(w - Wrap32(2 * p)) == w - 2 * p + Int32Span;
  }
}
