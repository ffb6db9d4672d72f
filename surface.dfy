/**
 * The drawing surface `onDraw` is handed, reduced to what the widget's calls
 * observably do to it: the paths given to `drawPath`, in order, and the save
 * stack depth moved by `saveLayer` and `restoreToCount`.
 */
module Surface {
  import opened Geometry

  class Canvas {
    /** Depth of the save stack; a fresh canvas starts at 1. */
    var saveCount: nat
    /** Every path handed to `drawPath`, oldest first. */
    var drawn: seq<Path>

    /** The base state of the save stack is never popped. */
    ghost predicate Valid()
      reads this
    {
      saveCount >= 1
    }

    constructor ()
      ensures Valid()
      ensures saveCount == 1 && drawn == []
    {
      saveCount := 1;
      drawn := [];
    }

    method DrawPath(p: Path)
      modifies this`drawn
      ensures drawn == old(drawn) + [p]
    {
      drawn := drawn + [p];
    }

    /** Pushes a layer; returns the depth to pass to `RestoreToCount` to balance it. */
    method SaveLayer() returns (count: nat)
      modifies this`saveCount
      ensures Valid()
      ensures count == old(saveCount) && saveCount == old(saveCount) + 1
    {
      count := saveCount;
      saveCount := saveCount + 1;
    }

    /** Pops saved states until the depth is `count` (nothing happens if it is already lower). */
    method RestoreToCount(count: nat)
      requires Valid() && count >= 1
      modifies this`saveCount
      ensures Valid()
      ensures saveCount == if count < old(saveCount) then count else old(saveCount)
    {
      if count < saveCount {
        saveCount := count;
      }
    }
  }
}
