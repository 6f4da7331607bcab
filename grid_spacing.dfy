/**
 * `GridSpacingItemDecoration`: the offsets the view-based grid puts around
 * every item. The spacing in pixels, `(spacingDp * density).toInt()`, is
 * taken as an integer; the adapter position of the item's view is a parameter.
 */
module GridSpacing {
  import opened KotlinInt

  /** `android.graphics.Rect`, the caller-owned rectangle the decoration writes into. */
  class Rect {
    var left: int
    var top: int
    var right: int
    var bottom: int

    constructor (left: int, top: int, right: int, bottom: int)
      ensures this.left == left && this.top == top && this.right == right && this.bottom == bottom
    {
      this.left, this.top, this.right, this.bottom := left, top, right, bottom;
    }
  }

  /** Half the spacing on each side, with Kotlin's `/`: rounded toward zero. */
  function SideOffset(spacingPx: int): (r: int)
    ensures spacingPx >= 0 ==> 0 <= r && 2 * r <= spacingPx < 2 * r + 2
    ensures spacingPx < 0 ==> r <= 0 && 2 * r - 2 < spacingPx <= 2 * r
  {
    Div(spacingPx, 2)
  }

  /** How `getItemOffsets` ends: normally, or with the ArithmeticException of `position % 0`. */
  datatype OffsetsOutcome = Done | DivisionByZero

  class GridSpacingItemDecoration {
    const spanCount: int
    const spacingPx: int

    constructor (spanCount: int, spacingPx: int)
      ensures this.spanCount == spanCount && this.spacingPx == spacingPx
    {
      this.spanCount := spanCount;
      this.spacingPx := spacingPx;
    }

    /**
     * `getItemOffsets(outRect, view, parent, state)`. The column
     * `position % spanCount` is computed and then ignored: every item gets
     * the same offsets whatever its position, and `top` is never written.
     */
    method GetItemOffsets(outRect: Rect, position: int) returns (outcome: OffsetsOutcome)
      modifies outRect
      ensures outcome == Done <==> spanCount != 0
      ensures outcome == DivisionByZero ==> unchanged(outRect)
      ensures outcome == Done ==>
        && outRect.left == SideOffset(spacingPx)
        && outRect.right == SideOffset(spacingPx)
        && outRect.bottom == spacingPx
        && outRect.top == old(outRect.top)
    {
      if spanCount == 0 {
        return DivisionByZero;
      }
      var column := Rem(position, spanCount);
      outRect.left := SideOffset(spacingPx);
      outRect.right := SideOffset(spacingPx);
      outRect.bottom := spacingPx;
      outcome := Done;
    }
  }

  /**
   * The two side offsets add up to the spacing minus Kotlin's `spacingPx % 2`:
   * exactly the spacing when it is even, one pixel less when it is odd and
   * positive, one pixel more when it is odd and negative.
   */
  lemma SideOffsetsSum(spacingPx: int)
    ensures 2 * SideOffset(spacingPx) == spacingPx - Rem(spacingPx, 2)
    ensures 2 * SideOffset(spacingPx) == spacingPx <==> spacingPx % 2 == 0
    ensures spacingPx >= 0 && spacingPx % 2 == 1 ==> 2 * SideOffset(spacingPx) == spacingPx - 1
  {
    DivRem(spacingPx, 2);
    if spacingPx < 0 {
      assert Rem(spacingPx, 2) == -((-spacingPx) % 2);
    }
  }

  /** For a non-negative spacing every offset written lies between 0 and the spacing. */
  lemma OffsetsBounded(spacingPx: int)
    requires spacingPx >= 0
    ensures 0 <= SideOffset(spacingPx) <= spacingPx
  {
  }

  /** Two neighbouring items leave a gutter of `right + left`: the spacing, rounded down to even for positive spacings. */
  lemma GutterBetweenNeighbours(spacingPx: int)
    requires spacingPx >= 0
    ensures SideOffset(spacingPx) + SideOffset(spacingPx) <= spacingPx
    ensures spacingPx - 1 <= SideOffset(spacingPx) + SideOffset(spacingPx)
  {
    SideOffsetsSum(spacingPx);
  }
}
