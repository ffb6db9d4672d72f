# RoundableImageView: style state and path cache

`RoundableImageView` is an Android image view. It clips its content to a circle or to a rounded rectangle and can stroke a matching border. The repository holds two near-identical copies of the widget:

- `dev.warwas.RoundableImageView` (AndroidX), modelled in `androidx_view.dfy` as `AndroidxView.RoundableImageView`;
- `pl.roundableimageview.RoundableImageView` (support library), modelled in `support_view.dfy` as `SupportView.RoundableImageView`.

The pixel drawing belongs to Android's graphics stack. The model covers the widget's own logic:

- **Corner-radius resolver** (`createCornerRadius`). It allocates a fresh 8-slot radii array. A positive common radius fills every slot and overwrites the four per-corner fields. Otherwise the slots are taken pairwise from the corner fields as TL,TL,TR,TR,BR,BR,BL,BL. `corners.dfy` (module `Corners`) specifies it on values as `Pairwise(Resolve(r))`. Each class's `CreateCornerRadius` is proved against that.
- **Setters** for the common radius, the radii array, the border width and, in the AndroidX version only, the four corners. Field-level `modifies` frames state what each setter leaves untouched.
- **Lower dimension** (`getLowerDimenValue`), computed with Java `int` arithmetic. The 32-bit wrap-around is written out (`Geometry.Wrap32`). From it come the circle clip radius, `lowerDim / 2`, and the circle border radius, `(lowerDim − stroke) / 2 + 0.3`. The rounded-rectangle clip and border span the whole view and ignore padding (`geometry.dfy`).
- **Lazy path cache** (`getClipPath`, `getBorderPath`, `onSizeChanged`, the path fetches of `onDraw`). `path_cache.dfy` (module `PathCache`) models it as a state machine on values: `FetchClip`, `FetchBorder`, `AfterDraw`, `AfterSizeChanged`. Each class method is proved to perform exactly that transition on its fields. The lemmas pin down the cache's quirks:
  - only `getBorderPath` clears the size-changed flag;
  - `onDraw` reaches `getBorderPath` only when there is a border;
  - a clean, non-empty cache ignores later shape and radius changes;
  - without a border, a pending size change never clears, so the clip path is rebuilt on every draw.
- **Canvas** (`surface.dfy`). The surface is reduced to the paths passed to `drawPath` and the save-stack depth. The support-library `onDraw` restores the depth that `saveLayer` returned. The AndroidX `onDraw` never restores, so each draw leaves the depth one higher.

The model follows the code as written, including these behaviours a user of the widget might not expect:

- Per-corner setters do not re-run the resolver. Their value reaches the radii array only the next time the common radius is set to something that is not positive (`AndroidxView.CornerEditWaitsForResolver`).
- Setting the common radius back to 0 does not restore earlier per-corner radii. They were overwritten (`Corners.ClobberedCornersSurviveReset`).
- `setCornersRadiusArray` does not run the resolver. It stores the caller's array by reference.
- The circular border radius is negative once the stroke exceeds the lower dimension plus 0.6 (`Geometry.OversizedStrokeGivesNegativeRadius`). Nothing guards against it.
- `setBorderWidth` does not update the public `borderWidth` field.

Values the host owns are plain fields: the view's size and padding. `SetFrame` and `SetPadding` stand for the host's layout pass. `SetFrame` reports a real size change through `OnSizeChanged`, as Android's `View.setFrame` does.

## Model

| member | source | states |
|---|---|---|
| `Geometry.Wrap32` | library/src/main/java/dev/warwas/RoundableImageView.java:295-296 | a Java `int` result is the exact result modulo 2^32 in the signed range, and equals it when it fits |
| `Geometry.LowerDimen` | library/src/main/java/dev/warwas/RoundableImageView.java:291-299 | when no `int` overflows, the lower dimension is min(W − 2·max(pl,pr), H − 2·max(pt,pb)) and bounds both effective dimensions |
| `Geometry.BorderRadius` | library/src/main/java/dev/warwas/RoundableImageView.java:254-257 | the circular border radius is the clip radius minus half the stroke plus 0.3, and is negative exactly when the stroke exceeds lowerDim + 0.6 |
| `Geometry.ClipShape` | library/src/main/java/dev/warwas/RoundableImageView.java:278-286 | a rebuilt clip path is never empty and is a circle exactly when `isCircle` |
| `Geometry.BorderShape` | library/src/main/java/dev/warwas/RoundableImageView.java:254-268 | a rebuilt border path is never empty and is a circle exactly when `isCircle` |
| `Geometry.CircleBorderInsetFromClip` | library/src/main/java/dev/warwas/RoundableImageView.java:254-281 | the circle border is concentric with the circle clip at (W/2, H/2), its radius is clip − stroke/2 + 0.3, and it lies inside the clip iff stroke > 0.6 |
| `Geometry.RoundRectIgnoresPadding` | library/src/main/java/dev/warwas/RoundableImageView.java:265-285 | the rounded-rect clip and border both span (0,0,W,H), coincide and do not depend on padding |
| `Geometry.OneSidedPaddingShrinksCircle` | library/src/main/java/dev/warwas/RoundableImageView.java:291-299 | padding p on the left of an n×n view gives lower dimension n − 2p and a centred clip circle of radius n/2 − p (80 and 40 for n = 100, p = 10) |
| `Geometry.OversizedStrokeGivesNegativeRadius` | library/src/main/java/dev/warwas/RoundableImageView.java:254-257 | on an n×n circle a stroke wider than n + 0.6 gives the border circle the negative radius (n − stroke)/2 + 0.3 (−49.7 for n = 100, stroke 200) |
| `Geometry.HugePaddingWrapsAround` | library/src/main/java/dev/warwas/RoundableImageView.java:292-298 | a padding of at least 0x50000000 makes `2 * padding` wrap: the exact effective width is negative, yet the lower dimension of a w×w view is w |
| `Corners.Pairwise` | library/src/main/java/dev/warwas/RoundableImageView.java:311-320 | the radii array has 8 slots and slot i holds the radius of corner i/2, corners in TL, TR, BR, BL order |
| `Corners.ResolvedLayout` | library/src/main/java/dev/warwas/RoundableImageView.java:301-321 | a common radius > 0 fills all 8 slots and overwrites all four corners; a common radius ≤ 0 (negative included) gives [TL,TL,TR,TR,BR,BR,BL,BL] and leaves the corners unchanged |
| `Corners.ResolveIdempotent` | library/src/main/java/dev/warwas/RoundableImageView.java:305-310 | running the resolver again changes nothing more |
| `Corners.ClobberedCornersSurviveReset` | library/src/main/java/dev/warwas/RoundableImageView.java:96-100 | common radius r > 0 then 0 leaves every corner and every slot at r, whatever the corners were before |
| `PathCache.FetchClip` | library/src/main/java/dev/warwas/RoundableImageView.java:270-289 | `getClipPath` leaves a non-empty clip path and never touches the size-changed flag or the border path |
| `PathCache.FetchBorder` | library/src/main/java/dev/warwas/RoundableImageView.java:246-263 | `getBorderPath` leaves a non-empty border path with no size change pending, and does not touch the clip path |
| `PathCache.AfterDraw` | library/src/main/java/dev/warwas/RoundableImageView.java:153-173 | a draw leaves a non-empty clip path; with a border, also a non-empty border path and a cleared flag; without one, the border path and the flag are untouched |
| `PathCache.DrawnPaths` | library/src/main/java/dev/warwas/RoundableImageView.java:159-172 | a draw paints one path, or two when there is a border, and none of them is empty |
| `PathCache.AfterSizeChanged` | library/src/main/java/dev/warwas/RoundableImageView.java:175-179 | `onSizeChanged` overwrites the flag with (w ≠ oldw ∨ h ≠ oldh) and keeps both cached paths |
| `PathCache.CleanCacheIgnoresStyle` | library/src/main/java/dev/warwas/RoundableImageView.java:246-274 | a non-empty clean cache is returned unchanged and painted as it is, whatever the current bounds, shape or radii |
| `PathCache.SizeChangeForcesRebuild` | library/src/main/java/dev/warwas/RoundableImageView.java:246-286 | after a real size change the next draw rebuilds the clip path, and the border path too when there is one; only then is the flag cleared |
| `PathCache.UnchangedSizeCancelsPendingRebuild` | library/src/main/java/dev/warwas/RoundableImageView.java:176-177 | a later `onSizeChanged` reporting equal sizes cancels a pending rebuild, so the cached paths survive the next draw |
| `PathCache.AfterDrawIdempotent` | library/src/main/java/dev/warwas/RoundableImageView.java:153-173 | a second draw right after a first changes neither the cache nor the painted paths |
| `PathCache.RedrawSettles` | library/src/main/java/dev/warwas/RoundableImageView.java:153-173 | any number n ≥ 1 of draws with unchanged bounds and style leaves the cache the first draw left |
| `PathCache.FlagPersistsWithoutBorder` | library/src/main/java/dev/warwas/RoundableImageView.java:170-172 | without a border, any number of draws leaves the size-changed flag and the border path as they were |
| `PathCache.DirtyCacheFollowsStyleWithoutBorder` | library/src/main/java/dev/warwas/RoundableImageView.java:270-286 | with a size change pending and no border, a style change between two draws reaches the clip path |
| `AndroidxView.RoundableImageView.constructor` | library/src/main/java/dev/warwas/RoundableImageView.java:193-222 | `init` stores the attributes, resolves the radii into a fresh array, sets hasBorder ⇔ borderWidth > 0 with the stroke equal to `borderWidth`, and starts with empty paths and a clear flag |
| `AndroidxView.RoundableImageView.CreateCornerRadius` | library/src/main/java/dev/warwas/RoundableImageView.java:301-321 | `corners` is a fresh 8-slot array equal to the pairwise layout of the resolved radii, and the corner fields become the resolved ones |
| `AndroidxView.RoundableImageView.SetCommonRoundedCornersRadius` | library/src/main/java/dev/warwas/RoundableImageView.java:96-100 | stores the radius and re-runs the resolver on it |
| `AndroidxView.RoundableImageView.GetCornerRadius` | library/src/main/java/dev/warwas/RoundableImageView.java:102-104 | returns the stored common radius |
| `AndroidxView.RoundableImageView.GetCornersRadiusArray` | library/src/main/java/dev/warwas/RoundableImageView.java:106-108 | returns the stored array itself (same reference) |
| `AndroidxView.RoundableImageView.SetCornersRadiusArray` | library/src/main/java/dev/warwas/RoundableImageView.java:110-114 | stores the caller's array by reference, any length, and sets the common radius to 0; corners, paths and flag untouched |
| `AndroidxView.RoundableImageView.SetBorderWidth` | library/src/main/java/dev/warwas/RoundableImageView.java:116-120 | hasBorder ⇔ w > 0 and stroke = w; the public `borderWidth` field is untouched |
| `AndroidxView.RoundableImageView.SetTopLeftCornerRadius` | library/src/main/java/dev/warwas/RoundableImageView.java:127-130 | changes only the top-left field; array, common radius and paths untouched |
| `AndroidxView.RoundableImageView.SetTopRightCornerRadius` | library/src/main/java/dev/warwas/RoundableImageView.java:132-135 | changes only the top-right field |
| `AndroidxView.RoundableImageView.SetBottomRightCornerRadius` | library/src/main/java/dev/warwas/RoundableImageView.java:137-140 | changes only the bottom-right field |
| `AndroidxView.RoundableImageView.SetBottomLeftCornerRadius` | library/src/main/java/dev/warwas/RoundableImageView.java:142-145 | changes only the bottom-left field |
| `AndroidxView.RoundableImageView.GetClipPath` | library/src/main/java/dev/warwas/RoundableImageView.java:270-289 | performs the `FetchClip` transition on the cached paths and flag, and returns the clip path |
| `AndroidxView.RoundableImageView.GetBorderPath` | library/src/main/java/dev/warwas/RoundableImageView.java:246-263 | performs the `FetchBorder` transition on the cached paths and flag, and returns the border path |
| `AndroidxView.RoundableImageView.DrawRoundedBorderPath` | library/src/main/java/dev/warwas/RoundableImageView.java:265-268 | the reset border path becomes the rounded rectangle (0,0,W,H) with the current radii |
| `AndroidxView.RoundableImageView.OnSizeChanged` | library/src/main/java/dev/warwas/RoundableImageView.java:175-179 | performs the `AfterSizeChanged` transition |
| `AndroidxView.RoundableImageView.OnDraw` | library/src/main/java/dev/warwas/RoundableImageView.java:152-173 | performs the `AfterDraw` transition, draws `DrawnPaths` in order, and leaves the save depth one higher (the layer is never restored) |
| `AndroidxView.CommonRadiusResetKeepsClobberedCorners` | library/src/main/java/dev/warwas/RoundableImageView.java:96-100 | on the object: common radius x > 0 then 0 leaves all four corners and all 8 slots at x |
| `AndroidxView.CornerEditWaitsForResolver` | library/src/main/java/dev/warwas/RoundableImageView.java:127-130 | a top-left edit leaves the array alone, and reaches it when the common radius is next set to 0 |
| `AndroidxView.CornerRadiusAfterArray` | library/src/main/java/dev/warwas/RoundableImageView.java:110-114 | after `setCornersRadiusArray`, `getCornerRadius` returns 0 whatever was set before |
| `SupportView.RoundableImageView.constructor` | library/src/main/java/pl/roundableimageview/RoundableImageView.java:55-88 | `init` stores the attributes, hasBorder ⇔ the read `borderWidth` > 0 with the stroke equal to it, resolves the radii into a fresh array, and starts with empty paths and a clear flag |
| `SupportView.RoundableImageView.CreateCornerRadius` | library/src/main/java/pl/roundableimageview/RoundableImageView.java:212-236 | the loop fills a fresh 8-slot array; the array equals the pairwise layout of the resolved radii, and the corner fields become the resolved ones |
| `SupportView.RoundableImageView.SetCommonRoundedCornersRadius` | library/src/main/java/pl/roundableimageview/RoundableImageView.java:277-281 | stores the radius and re-runs the resolver on it |
| `SupportView.RoundableImageView.GetCornerRadius` | library/src/main/java/pl/roundableimageview/RoundableImageView.java:283-285 | returns the stored common radius |
| `SupportView.RoundableImageView.GetCornersRadiusArray` | library/src/main/java/pl/roundableimageview/RoundableImageView.java:287-289 | returns the stored array itself (same reference) |
| `SupportView.RoundableImageView.SetCornersRadiusArray` | library/src/main/java/pl/roundableimageview/RoundableImageView.java:291-294 | stores the caller's array by reference, any length, and changes nothing else; the common radius is not reset |
| `SupportView.RoundableImageView.SetBorderWidth` | library/src/main/java/pl/roundableimageview/RoundableImageView.java:238-242 | hasBorder ⇔ w > 0 and stroke = w; the public `borderWidth` field is untouched |
| `SupportView.RoundableImageView.GetClipPath` | library/src/main/java/pl/roundableimageview/RoundableImageView.java:179-200 | performs the `FetchClip` transition and returns the clip path |
| `SupportView.RoundableImageView.GetBorderPath` | library/src/main/java/pl/roundableimageview/RoundableImageView.java:145-163 | performs the `FetchBorder` transition and returns the border path |
| `SupportView.RoundableImageView.DrawRoundedBorderPath` | library/src/main/java/pl/roundableimageview/RoundableImageView.java:165-171 | the reset border path becomes the rounded rectangle (0,0,W,H) with the current radii |
| `SupportView.RoundableImageView.OnSizeChanged` | library/src/main/java/pl/roundableimageview/RoundableImageView.java:173-177 | performs the `AfterSizeChanged` transition |
| `SupportView.RoundableImageView.OnDraw` | library/src/main/java/pl/roundableimageview/RoundableImageView.java:124-143 | performs the `AfterDraw` transition, draws `DrawnPaths` in order, and restores the save depth it found |
| `SupportView.CommonRadiusResetKeepsClobberedCorners` | library/src/main/java/pl/roundableimageview/RoundableImageView.java:216-223 | on the object: common radius x > 0 then 0 leaves all four corners and all 8 slots at x |
| `SupportView.CornerRadiusAfterArray` | library/src/main/java/pl/roundableimageview/RoundableImageView.java:291-294 | after `setCornersRadiusArray`, `getCornerRadius` still returns the common radius set before |

## Left out

- Pixel output: the mask and layer paints, PorterDuff `SRC_ATOP`/`SRC_IN`, the `saveLayer` flags, drawing the background drawable, and `super.onDraw`. This is Android's graphics stack. The canvas keeps only the drawn paths and the save depth.
- The edit-mode preview clip in the AndroidX `onDraw` (`isInEditMode`). It is a design-tool preview path and would add one more clip-path fetch.
- Attribute parsing (`TypedArray`, `R.styleable`, `recycle`) and `ContextCompat.getDrawable`. These are foreign calls. The constructor takes the parsed values as a `StyledAttributes` value; `Attributes.Defaults` holds the defaults.
- `setLayerType`, the `Build.VERSION` branch and `setWillNotCacheDrawing`: rendering-backend plumbing.
- `invalidate` and `postInvalidate`: redraw scheduling owned by the host, modelled as no-ops.
- `updateLayerPaint` and the four background setters. Their only effect is on the paint's blend mode and the stored drawable, both opaque here.
- `setBorderColor`: an opaque stored colour with no logic.
- IEEE single-precision rounding: radii, stroke, `W / 2.0f`, the 0.3f margin and the `int`-to-`float` cast of the lower dimension are exact `real`s.
- Internals of Android's `Path`: winding direction (always clockwise), what `addCircle` does with a negative radius, and the exception `addRoundRect` throws for fewer than 8 radii. A path is either empty (reset and not rebuilt) or the one shape it was built with.
- A `null` radii array passed to `setCornersRadiusArray`: the model's array is never null.
- The host's layout and padding logic. `SetFrame` and `SetPadding` only assign the values the host would report.
