/**
 * The lazy path cache of `getClipPath` / `getBorderPath` and its size-changed
 * flag, as a state machine on values. Both versions of the widget share it.
 */
module PathCache {
  import opened Geometry

  /** The two cached paths and the `hasSizeCHanged` flag. */
  datatype Cache = Cache(clip: Path, border: Path, sizeChanged: bool)

  /** A cached path is returned as it is when it is non-empty and no size change is pending. */
  predicate Hit(p: Path, c: Cache) {
    p != Empty && !c.sizeChanged
  }

  /**
   * `getClipPath`: on a miss the clip path is reset and rebuilt from the
   * current bounds and style. It never touches the flag or the border path.
   */
  function FetchClip(b: Bounds, s: Style, c: Cache): (r: Cache)
    ensures r.clip != Empty
    ensures r.border == c.border && r.sizeChanged == c.sizeChanged
  {
    if Hit(c.clip, c) then c else c.(clip := ClipShape(b, s))
  }

  /**
   * `getBorderPath`: on a miss the border path is reset and rebuilt and the
   * flag is cleared. Afterwards no size change is pending either way.
   */
  function FetchBorder(b: Bounds, s: Style, c: Cache): (r: Cache)
    ensures r.border != Empty && !r.sizeChanged
    ensures r.clip == c.clip
  {
    if Hit(c.border, c) then c else c.(border := BorderShape(b, s), sizeChanged := false)
  }

  /** The path fetches of `onDraw`: the clip path, then the border path only when there is a border. */
  function AfterDraw(b: Bounds, s: Style, c: Cache): (r: Cache)
    ensures r.clip != Empty
    ensures s.hasBorder ==> r.border != Empty && !r.sizeChanged
    ensures !s.hasBorder ==> r.border == c.border && r.sizeChanged == c.sizeChanged
  {
    var c1 := FetchClip(b, s, c);
    if s.hasBorder then FetchBorder(b, s, c1) else c1
  }

  /** The paths one `onDraw` hands to `drawPath`, in order. */
  function DrawnPaths(b: Bounds, s: Style, c: Cache): (ps: seq<Path>)
    ensures |ps| == if s.hasBorder then 2 else 1
    ensures forall i :: 0 <= i < |ps| ==> ps[i] != Empty
  {
    var r := AfterDraw(b, s, c);
    [r.clip] + if s.hasBorder then [r.border] else []
  }

  /** `onSizeChanged`: the flag is overwritten, not merely set. */
  function AfterSizeChanged(c: Cache, w: int, h: int, oldw: int, oldh: int): (r: Cache)
    ensures r.clip == c.clip && r.border == c.border
    ensures r.sizeChanged <==> w != oldw || h != oldh
  {
    c.(sizeChanged := w != oldw || h != oldh)
  }

  /** `n` successive draws with nothing else happening in between. */
  function Redraw(b: Bounds, s: Style, c: Cache, n: nat): Cache
    decreases n
  {
    if n == 0 then c else Redraw(b, s, AfterDraw(b, s, c), n - 1)
  }

  /**
   * A clean cache holding every path the draw needs is returned unchanged,
   * whatever the current bounds, shape and radii: changing them does not
   * invalidate it.
   */
  lemma CleanCacheIgnoresStyle(b: Bounds, s: Style, c: Cache)
    requires c.clip != Empty && !c.sizeChanged
    requires s.hasBorder ==> c.border != Empty
    ensures AfterDraw(b, s, c) == c
    ensures DrawnPaths(b, s, c) == [c.clip] + if s.hasBorder then [c.border] else []
  {
  }

  /**
   * After a real size change the next draw rebuilds the clip path, and the
   * border path too when there is a border; only then is the flag cleared.
   */
  lemma SizeChangeForcesRebuild(b: Bounds, s: Style, c: Cache, w: int, h: int, oldw: int, oldh: int)
    requires w != oldw || h != oldh
    ensures AfterDraw(b, s, AfterSizeChanged(c, w, h, oldw, oldh)).clip == ClipShape(b, s)
    ensures s.hasBorder ==> AfterDraw(b, s, AfterSizeChanged(c, w, h, oldw, oldh)) == Cache(ClipShape(b, s), BorderShape(b, s), false)
    ensures !s.hasBorder ==> AfterDraw(b, s, AfterSizeChanged(c, w, h, oldw, oldh)).sizeChanged
  {
  }

  /**
   * A second `onSizeChanged` reporting no change cancels a pending rebuild:
   * a non-empty clip path then survives the next draw.
   */
  lemma UnchangedSizeCancelsPendingRebuild(b: Bounds, s: Style, c: Cache, w: int, h: int, oldw: int, oldh: int)
    requires c.clip != Empty && (s.hasBorder ==> c.border != Empty)
    ensures AfterDraw(b, s, AfterSizeChanged(AfterSizeChanged(c, w, h, oldw, oldh), w, h, w, h)) == c.(sizeChanged := false)
  {
  }

  /** A second draw right after a first changes neither the cache nor what is painted. */
  lemma AfterDrawIdempotent(b: Bounds, s: Style, c: Cache)
    ensures AfterDraw(b, s, AfterDraw(b, s, c)) == AfterDraw(b, s, c)
    ensures DrawnPaths(b, s, AfterDraw(b, s, c)) == DrawnPaths(b, s, c)
  {
  }

  /** Redrawing with unchanged bounds and style reuses the cache the first draw left. */
  lemma {:induction false} RedrawSettles(b: Bounds, s: Style, c: Cache, n: nat)
    requires n >= 1
    ensures Redraw(b, s, c, n) == AfterDraw(b, s, c)
    decreases n
  {
    if n > 1 {
      RedrawSettles(b, s, AfterDraw(b, s, c), n - 1);
      AfterDrawIdempotent(b, s, c);
    }
  }

  /**
   * Without a border nothing ever clears the flag: however many draws follow,
   * a pending size change stays pending and the border path stays as it was.
   */
  lemma {:induction false} FlagPersistsWithoutBorder(b: Bounds, s: Style, c: Cache, n: nat)
    requires !s.hasBorder
    ensures Redraw(b, s, c, n).sizeChanged == c.sizeChanged
    ensures Redraw(b, s, c, n).border == c.border
    decreases n
  {
    if n > 0 {
      FlagPersistsWithoutBorder(b, s, AfterDraw(b, s, c), n - 1);
    }
  }

  /**
   * With a size change pending and no border, every draw rebuilds the clip
   * path, so a shape or radius change between two draws does take effect.
   */
  lemma DirtyCacheFollowsStyleWithoutBorder(b: Bounds, s1: Style, s2: Style, c: Cache)
    requires c.sizeChanged && !s1.hasBorder
    ensures AfterDraw(b, s2, AfterDraw(b, s1, c)).clip == ClipShape(b, s2)
  {
  }
}
