/**
 * `dev.warwas.RoundableImageView`, the AndroidX version of the widget: its
 * style state, the corner-radius resolver, the setters, and the path cache as
 * `onDraw` and `onSizeChanged` drive it.
 *
 * Differences from the support-library version (module SupportView):
 * `SetCornersRadiusArray` also resets the common radius, there are four
 * per-corner setters, and `OnDraw` never restores the layer it saves.
 */
module AndroidxView {
  import opened Geometry
  import opened Corners
  import opened Attributes
  import opened PathCache
  import opened Surface

  class RoundableImageView {
    // Size and padding: written by the host layout, read by the widget.
    var width: Int32
    var height: Int32
    var paddingLeft: Int32
    var paddingTop: Int32
    var paddingRight: Int32
    var paddingBottom: Int32

    var isCircle: bool
    var commonRadius: real
    var topLeft: real
    var topRight: real
    var bottomRight: real
    var bottomLeft: real
    /** The radii array handed to `addRoundRect`; may be the caller's own array. */
    var corners: array<real>

    /** The public `borderWidth` field; only construction writes it. */
    var borderWidth: real
    /** The border paint's stroke width. */
    var strokeWidth: real
    var hasBorder: bool

    var hasSizeChanged: bool
    var clipPath: Path
    var borderPath: Path

    /** The border is drawn exactly when the stroke is positive. */
    ghost predicate Valid()
      reads this
    {
      hasBorder <==> strokeWidth > 0.0
    }

    function CurrentBounds(): Bounds
      reads this
    {
      Bounds(width, height, paddingLeft, paddingTop, paddingRight, paddingBottom)
    }

    function CurrentRadii(): Radii
      reads this
    {
      Radii(commonRadius, topLeft, topRight, bottomRight, bottomLeft)
    }

    function CurrentStyle(): Style
      reads this, corners
    {
      Style(isCircle, corners[..], strokeWidth, hasBorder)
    }

    function CurrentCache(): Cache
      reads this
    {
      Cache(clipPath, borderPath, hasSizeChanged)
    }

    /** `init`: store the styled attributes, start with empty paths, then run the resolver. */
    constructor (attrs: StyledAttributes)
      ensures Valid()
      ensures CurrentBounds() == Bounds(0, 0, 0, 0, 0, 0)
      ensures isCircle == attrs.isCircle
      ensures CurrentRadii() == Resolve(RadiiOf(attrs))
      ensures fresh(corners) && corners[..] == Pairwise(CurrentRadii())
      ensures borderWidth == strokeWidth == attrs.borderWidth
      ensures hasBorder == (attrs.borderWidth > 0.0)
      ensures CurrentCache() == Cache(Empty, Empty, false)
    {
      width, height := 0, 0;
      paddingLeft, paddingTop, paddingRight, paddingBottom := 0, 0, 0, 0;
      isCircle := attrs.isCircle;
      commonRadius := attrs.commonRadius;
      topLeft, topRight := attrs.topLeft, attrs.topRight;
      bottomRight, bottomLeft := attrs.bottomRight, attrs.bottomLeft;
      borderWidth := attrs.borderWidth;
      hasBorder := attrs.borderWidth > 0.0;
      strokeWidth := attrs.borderWidth;
      hasSizeChanged := false;
      clipPath, borderPath := Empty, Empty;
      corners := new real[0];
      new;
      CreateCornerRadius();
    }

    /**
     * `createCornerRadius`: allocates a fresh 8-slot array; a positive common
     * radius fills it and overwrites the four corner fields, otherwise the
     * slots are taken pairwise from the corner fields.
     */
    method CreateCornerRadius()
      modifies this`corners, this`topLeft, this`topRight, this`bottomRight, this`bottomLeft
      ensures fresh(corners) && corners.Length == CornerRadiusCount
      ensures CurrentRadii() == Resolve(old(CurrentRadii()))
      ensures corners[..] == Pairwise(CurrentRadii())
    {
      var a := new real[CornerRadiusCount];
      if commonRadius > 0.0 {
        forall k | 0 <= k < a.Length {
          a[k] := commonRadius;
        }
        topLeft, topRight, bottomLeft, bottomRight := commonRadius, commonRadius, commonRadius, commonRadius;
      } else {
        a[0] := topLeft;
        a[1] := topLeft;
        a[2] := topRight;
        a[3] := topRight;
        a[4] := bottomRight;
        a[5] := bottomRight;
        a[6] := bottomLeft;
        a[7] := bottomLeft;
      }
      corners := a;
    }

    /** `setCommonRoundedCornersRadius`: store the radius and re-run the resolver. */
    method SetCommonRoundedCornersRadius(radius: real)
      modifies this`commonRadius, this`corners, this`topLeft, this`topRight, this`bottomRight, this`bottomLeft
      ensures commonRadius == radius
      ensures CurrentRadii() == Resolve(old(CurrentRadii()).(common := radius))
      ensures fresh(corners) && corners[..] == Pairwise(CurrentRadii())
    {
      commonRadius := radius;
      CreateCornerRadius();
    }

    method GetCornerRadius() returns (radius: real)
      ensures radius == commonRadius
    {
      radius := commonRadius;
    }

    /** Hands out the stored array itself, not a copy. */
    method GetCornersRadiusArray() returns (a: array<real>)
      ensures a == corners
    {
      a := corners;
    }

    /**
     * `setCornersRadiusArray`: keeps the caller's array by reference, whatever
     * its length, and resets the common radius; the corner fields are left
     * alone and the resolver does not run.
     */
    method SetCornersRadiusArray(a: array<real>)
      modifies this`corners, this`commonRadius
      ensures corners == a && commonRadius == 0.0
    {
      corners := a;
      commonRadius := 0.0;
    }

    /** `setBorderWidth`: the border is on exactly when the width is positive; `borderWidth` is not updated. */
    method SetBorderWidth(w: real)
      modifies this`hasBorder, this`strokeWidth
      ensures Valid()
      ensures hasBorder == (w > 0.0) && strokeWidth == w
    {
      hasBorder := w > 0.0;
      strokeWidth := w;
    }

    // The per-corner setters change their own field only: the radii array and
    // the cached paths keep the old value until the resolver next runs.

    method SetTopLeftCornerRadius(radius: real)
      modifies this`topLeft
      ensures topLeft == radius
    {
      topLeft := radius;
    }

    method SetTopRightCornerRadius(radius: real)
      modifies this`topRight
      ensures topRight == radius
    {
      topRight := radius;
    }

    method SetBottomRightCornerRadius(radius: real)
      modifies this`bottomRight
      ensures bottomRight == radius
    {
      bottomRight := radius;
    }

    method SetBottomLeftCornerRadius(radius: real)
      modifies this`bottomLeft
      ensures bottomLeft == radius
    {
      bottomLeft := radius;
    }

    /** `getClipPath`: returns the cached clip path, rebuilding it on a miss. */
    method GetClipPath() returns (p: Path)
      modifies this`clipPath
      ensures CurrentCache() == FetchClip(CurrentBounds(), CurrentStyle(), old(CurrentCache()))
      ensures p == clipPath
    {
      if clipPath != Empty && !hasSizeChanged {
        return clipPath;
      }
      clipPath := Empty;
      if isCircle {
        var lowerDimen := LowerDimen(CurrentBounds());
        clipPath := Circle(width as real / 2.0, height as real / 2.0, lowerDimen as real / 2.0);
      } else {
        clipPath := RoundRect(width as real, height as real, corners[..]);
      }
      p := clipPath;
    }

    /** `getBorderPath`: returns the cached border path; a rebuild clears the size-changed flag. */
    method GetBorderPath() returns (p: Path)
      modifies this`borderPath, this`hasSizeChanged
      ensures CurrentCache() == FetchBorder(CurrentBounds(), CurrentStyle(), old(CurrentCache()))
      ensures p == borderPath
    {
      if borderPath != Empty && !hasSizeChanged {
        return borderPath;
      }
      hasSizeChanged := false;
      borderPath := Empty;
      if isCircle {
        var lowerDimen := LowerDimen(CurrentBounds()) as real - strokeWidth;
        var radius := lowerDimen / 2.0 + BorderAlphaMargin;
        borderPath := Circle(width as real / 2.0, height as real / 2.0, radius);
      } else {
        DrawRoundedBorderPath();
      }
      p := borderPath;
    }

    /**
     * `drawRoundedBorderPath`: adds the full-view rounded rectangle to the
     * border path, which `GetBorderPath` has just reset.
     */
    method DrawRoundedBorderPath()
      requires borderPath == Empty
      modifies this`borderPath
      ensures borderPath == RoundRect(width as real, height as real, corners[..])
    {
      borderPath := RoundRect(width as real, height as real, corners[..]);
    }

    /** `onSizeChanged`: overwrites the flag with whether the size really changed. */
    method OnSizeChanged(w: Int32, h: Int32, oldw: Int32, oldh: Int32)
      modifies this`hasSizeChanged
      ensures CurrentCache() == AfterSizeChanged(old(CurrentCache()), w, h, oldw, oldh)
    {
      hasSizeChanged := w != oldw || h != oldh;
    }

    /**
     * The path fetches of `onDraw`: the clip path is drawn, a layer is saved
     * and never restored, and the border path is fetched and drawn only when
     * there is a border.
     */
    method OnDraw(canvas: Canvas)
      modifies this`clipPath, this`borderPath, this`hasSizeChanged, canvas
      ensures CurrentCache() == AfterDraw(CurrentBounds(), CurrentStyle(), old(CurrentCache()))
      ensures canvas.drawn == old(canvas.drawn) + DrawnPaths(CurrentBounds(), CurrentStyle(), old(CurrentCache()))
      ensures canvas.Valid() && canvas.saveCount == old(canvas.saveCount) + 1
    {
      var clip := GetClipPath();
      canvas.DrawPath(clip);
      var _ := canvas.SaveLayer();
      if hasBorder {
        var border := GetBorderPath();
        canvas.DrawPath(border);
      }
    }

    /** The host's layout pass (not part of the widget): a new size is reported through `OnSizeChanged`. */
    method SetFrame(w: Int32, h: Int32)
      modifies this`width, this`height, this`hasSizeChanged
      ensures width == w && height == h
      ensures CurrentCache() == if w != old(width) || h != old(height)
                                then AfterSizeChanged(old(CurrentCache()), w, h, old(width), old(height))
                                else old(CurrentCache())
    {
      var oldw, oldh := width, height;
      width, height := w, h;
      if w != oldw || h != oldh {
        OnSizeChanged(w, h, oldw, oldh);
      }
    }

    /** The host's `setPadding` (not part of the widget). */
    method SetPadding(left: Int32, top: Int32, right: Int32, bottom: Int32)
      modifies this`paddingLeft, this`paddingTop, this`paddingRight, this`paddingBottom
      ensures CurrentBounds() == Bounds(width, height, left, top, right, bottom)
    {
      paddingLeft, paddingTop, paddingRight, paddingBottom := left, top, right, bottom;
    }
  }

  /**
   * Setting a positive common radius and then 0 leaves every slot at the
   * positive radius: the corner values from before are gone.
   */
  method CommonRadiusResetKeepsClobberedCorners(v: RoundableImageView, x: real)
    requires x > 0.0
    modifies v
    ensures v.CurrentRadii() == Radii(0.0, x, x, x, x)
    ensures v.corners[..] == seq(CornerRadiusCount, _ => x)
  {
    v.SetCommonRoundedCornersRadius(x);
    v.SetCommonRoundedCornersRadius(0.0);
    ClobberedCornersSurviveReset(old(v.CurrentRadii()), x);
  }

  /**
   * A per-corner value reaches the radii array only when the resolver next
   * runs with a common radius that is not positive.
   */
  method CornerEditWaitsForResolver(v: RoundableImageView, y: real)
    modifies v
    ensures v.corners[..] == Pairwise(Radii(0.0, y, old(v.topRight), old(v.bottomRight), old(v.bottomLeft)))
  {
    ghost var before := v.corners;
    v.SetTopLeftCornerRadius(y);
    assert v.corners == before;
    v.SetCommonRoundedCornersRadius(0.0);
  }

  /** After `setCornersRadiusArray` the reported common radius is 0, whatever was set before. */
  method CornerRadiusAfterArray(v: RoundableImageView, x: real, a: array<real>) returns (r: real)
    modifies v
    ensures r == 0.0
    ensures v.corners == a
  {
    v.SetCommonRoundedCornersRadius(x);
    v.SetCornersRadiusArray(a);
    r := v.GetCornerRadius();
  }
}
