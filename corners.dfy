/**
 * The corner-radius resolver of `createCornerRadius`, as a specification on
 * values: which per-corner radii survive it and which 8-slot array it
 * produces.
 */
module Corners {

  /** Length of the radii array handed to `Path.addRoundRect`. */
  const CornerRadiusCount: nat := 8

  /** The common radius and the four per-corner radii, in the widget's fields. */
  datatype Radii = Radii(common: real, topLeft: real, topRight: real, bottomRight: real, bottomLeft: real)

  /** Radius of corner `k`, corners numbered clockwise from the top left. */
  function Corner(r: Radii, k: nat): real
    requires k < 4
  {
    if k == 0 then r.topLeft
    else if k == 1 then r.topRight
    else if k == 2 then r.bottomRight
    else r.bottomLeft
  }

  /** The 8-slot layout `addRoundRect` expects: an (x, y) radius pair per corner. */
  function Pairwise(r: Radii): (s: seq<real>)
    ensures |s| == CornerRadiusCount
    ensures forall i :: 0 <= i < |s| ==> s[i] == Corner(r, i / 2)
  {
    [r.topLeft, r.topLeft, r.topRight, r.topRight,
     r.bottomRight, r.bottomRight, r.bottomLeft, r.bottomLeft]
  }

  /** The radii fields after `createCornerRadius`: a positive common radius overwrites every corner. */
  function Resolve(r: Radii): Radii {
    if r.common > 0.0 then Radii(r.common, r.common, r.common, r.common, r.common) else r
  }

  /**
   * What the resolver produces: a positive common radius fills all eight
   * slots and replaces every corner field; otherwise the slots come pairwise
   * from the corner fields, which stay as they were (negative common radii
   * included).
   */
  lemma ResolvedLayout(r: Radii)
    ensures Resolve(r).common == r.common
    ensures r.common > 0.0 ==> forall i :: 0 <= i < CornerRadiusCount ==> Pairwise(Resolve(r))[i] == r.common
    ensures r.common > 0.0 ==> forall k :: 0 <= k < 4 ==> Corner(Resolve(r), k) == r.common
    ensures r.common <= 0.0 ==> Resolve(r) == r
    ensures r.common <= 0.0 ==>
      Pairwise(Resolve(r)) == [r.topLeft, r.topLeft, r.topRight, r.topRight, r.bottomRight, r.bottomRight, r.bottomLeft, r.bottomLeft]
  {
  }

  /** Running the resolver twice changes nothing more. */
  lemma ResolveIdempotent(r: Radii)
    ensures Resolve(Resolve(r)) == Resolve(r)
  {
  }

  /**
   * Setting a positive common radius and then resetting it to 0 does not give
   * back the earlier per-corner radii: they were overwritten, so every slot
   * keeps the old common radius.
   */
  lemma ClobberedCornersSurviveReset(r: Radii, x: real)
    requires x > 0.0
    ensures Resolve(Resolve(r.(common := x)).(common := 0.0)) == Radii(0.0, x, x, x, x)
    ensures Pairwise(Resolve(Resolve(r.(common := x)).(common := 0.0))) == seq(CornerRadiusCount, _ => x)
  {
  }
}

/** The styled attributes `init` reads, and their defaults. */
module Attributes {
  import opened Corners

  datatype StyledAttributes = StyledAttributes(
    isCircle: bool,
    commonRadius: real,
    topLeft: real, topRight: real, bottomRight: real, bottomLeft: real,
    borderWidth: real)

  /** Every attribute absent: a rectangle, radii 0, no border. */
  const Defaults := StyledAttributes(false, 0.0, 0.0, 0.0, 0.0, 0.0, 0.0)

  function RadiiOf(a: StyledAttributes): Radii {
    Radii(a.commonRadius, a.topLeft, a.topRight, a.bottomRight, a.bottomLeft)
  }
}
