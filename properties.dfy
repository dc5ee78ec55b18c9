/**
 * Properties of the crop helpers: what each handle keeps fixed, how drags
 * compose and undo, how the cursor reflects the drag, and what the clamp
 * guarantees.
 */
module Properties {
  import opened Geometry
  import opened Utils

  // ---------------------------------------------------------------------
  // Drags, handle by handle

  /** `Move` translates the rectangle and keeps its size. */
  lemma MoveTranslates(r: ClipRectInfo, dx: real, dy: real)
    ensures Dragged(r, dx, dy, Move) == ClipRectInfo(r.x + dx, r.y + dy, r.width, r.height)
  {
  }

  /** `Normal` has no case in the switch: the rectangle comes back unchanged. */
  lemma NormalKeepsRect(r: ClipRectInfo, dx: real, dy: real)
    ensures Dragged(r, dx, dy, Normal) == r
  {
  }

  /** Handles on the left or top keep the opposite edge where it was. */
  lemma OppositeEdgeStaysFixed(r: ClipRectInfo, dx: real, dy: real)
    ensures Right(Dragged(r, dx, dy, TransformTopLeft)) == Right(r)
    ensures Bottom(Dragged(r, dx, dy, TransformTopLeft)) == Bottom(r)
    ensures Right(Dragged(r, dx, dy, TransformCenterLeft)) == Right(r)
    ensures Right(Dragged(r, dx, dy, TransformBottomLeft)) == Right(r)
    ensures Bottom(Dragged(r, dx, dy, TransformTopCenter)) == Bottom(r)
    ensures Bottom(Dragged(r, dx, dy, TransformTopRight)) == Bottom(r)
  {
  }

  /** Handles on the right or bottom never move the corner; they only resize. */
  lemma FarHandlesKeepOrigin(r: ClipRectInfo, dx: real, dy: real)
    ensures Dragged(r, dx, dy, TransformCenterRight) == ClipRectInfo(r.x, r.y, r.width + dx, r.height)
    ensures Dragged(r, dx, dy, TransformBottomCenter) == ClipRectInfo(r.x, r.y, r.width, r.height + dy)
    ensures Dragged(r, dx, dy, TransformBottomRight) == ClipRectInfo(r.x, r.y, r.width + dx, r.height + dy)
  {
  }

  /**
   * Each resize handle anchors the far side: it never drags both edges of an
   * axis, and it keeps every edge it does not hold exactly where it was.
   */
  lemma ResizeAnchorsFarSide(r: ClipRectInfo, dx: real, dy: real, k: ControlType)
    requires k != Move
    ensures !(MovesLeft(k) && MovesRight(k)) && !(MovesTop(k) && MovesBottom(k))
    ensures !MovesLeft(k) ==> Left(Dragged(r, dx, dy, k)) == Left(r)
    ensures !MovesRight(k) ==> Right(Dragged(r, dx, dy, k)) == Right(r)
    ensures !MovesTop(k) ==> Top(Dragged(r, dx, dy, k)) == Top(r)
    ensures !MovesBottom(k) ==> Bottom(Dragged(r, dx, dy, k)) == Bottom(r)
  {
  }

  /**
   * A drag changes the width exactly when the handle resizes horizontally and
   * the displacement on x is non-zero, and likewise for the height.
   */
  lemma SizeChangesOnlyOnResizedAxis(r: ClipRectInfo, dx: real, dy: real, k: ControlType)
    ensures !ResizesWidth(k) ==> Dragged(r, dx, dy, k).width == r.width
    ensures !ResizesHeight(k) ==> Dragged(r, dx, dy, k).height == r.height
    ensures ResizesWidth(k) && dx != 0.0 ==> Dragged(r, dx, dy, k).width != r.width
    ensures ResizesHeight(k) && dy != 0.0 ==> Dragged(r, dx, dy, k).height != r.height
    ensures dx == 0.0 ==> Dragged(r, dx, dy, k).width == r.width
    ensures dy == 0.0 ==> Dragged(r, dx, dy, k).height == r.height
  {
  }

  /** Worked example: `{10,10,200,100}` dragged by `(5,-5)` at the top-left corner. */
  lemma TopLeftExample()
    ensures Dragged(ClipRectInfo(10.0, 10.0, 200.0, 100.0), 5.0, -5.0, TransformTopLeft)
         == ClipRectInfo(15.0, 5.0, 195.0, 105.0)
  {
  }

  // ---------------------------------------------------------------------
  // Composing drags

  /** A zero displacement changes nothing, whatever the handle. */
  lemma DragZero(r: ClipRectInfo, k: ControlType)
    ensures Dragged(r, 0.0, 0.0, k) == r
  {
  }

  /** Two drags with the same handle are one drag by the summed displacement. */
  lemma DragAdditive(r: ClipRectInfo, a1: real, b1: real, a2: real, b2: real, k: ControlType)
    ensures Dragged(Dragged(r, a1, b1, k), a2, b2, k) == Dragged(r, a1 + a2, b1 + b2, k)
  {
  }

  /** Dragging back by the negated displacement with the same handle restores the rectangle. */
  lemma DragInverse(r: ClipRectInfo, dx: real, dy: real, k: ControlType)
    ensures Dragged(Dragged(r, dx, dy, k), -dx, -dy, k) == r
  {
    DragAdditive(r, dx, dy, -dx, -dy, k);
    DragZero(r, k);
  }

  /** A whole sequence of pointer moves with one handle is one drag by their sum. */
  lemma {:induction false} DragSessionIsOneDrag(r: ClipRectInfo, moves: seq<Delta>, k: ControlType)
    ensures DragSession(r, moves, k) == Dragged(r, SumX(moves), SumY(moves), k)
    decreases |moves|
  {
    if |moves| == 0 {
      DragZero(r, k);
    } else {
      var first := Dragged(r, moves[0].moveX, moves[0].moveY, k);
      DragSessionIsOneDrag(first, moves[1..], k);
      DragAdditive(r, moves[0].moveX, moves[0].moveY, SumX(moves[1..]), SumY(moves[1..]), k);
    }
  }

  /** A session followed by the reversed-sign session with the same handle restores the rectangle. */
  lemma {:induction false} DragSessionUndo(r: ClipRectInfo, moves: seq<Delta>, undo: seq<Delta>, k: ControlType)
    requires SumX(undo) == -SumX(moves) && SumY(undo) == -SumY(moves)
    ensures DragSession(DragSession(r, moves, k), undo, k) == r
  {
    DragSessionIsOneDrag(r, moves, k);
    DragSessionIsOneDrag(DragSession(r, moves, k), undo, k);
    DragInverse(r, SumX(moves), SumY(moves), k);
  }

  /** A corner drag followed by the diagonally opposite corner's drag by the same displacement, in either order, is a move. */
  lemma OppositeCornersComposeToMove(r: ClipRectInfo, dx: real, dy: real)
    ensures Dragged(Dragged(r, dx, dy, TransformTopLeft), dx, dy, TransformBottomRight) == Dragged(r, dx, dy, Move)
    ensures Dragged(Dragged(r, dx, dy, TransformTopRight), dx, dy, TransformBottomLeft) == Dragged(r, dx, dy, Move)
    ensures Dragged(Dragged(r, dx, dy, TransformBottomRight), dx, dy, TransformTopLeft) == Dragged(r, dx, dy, Move)
    ensures Dragged(Dragged(r, dx, dy, TransformBottomLeft), dx, dy, TransformTopRight) == Dragged(r, dx, dy, Move)
  {
  }

  /**
   * The opposite corner is not the inverse: dragging the top-left corner and
   * then the bottom-right corner by the negated displacement keeps the corner
   * shifted and shrinks the size by twice the displacement.
   */
  lemma OppositeCornerDoesNotUndo(r: ClipRectInfo, dx: real, dy: real)
    ensures Dragged(Dragged(r, dx, dy, TransformTopLeft), -dx, -dy, TransformBottomRight)
         == ClipRectInfo(r.x + dx, r.y + dy, r.width - 2.0 * dx, r.height - 2.0 * dy)
    ensures dx != 0.0 || dy != 0.0 ==>
              Dragged(Dragged(r, dx, dy, TransformTopLeft), -dx, -dy, TransformBottomRight) != r
  {
  }

  // ---------------------------------------------------------------------
  // Cursor and drag agree

  /** The token for every handle, as the switch assigns it. */
  lemma CursorTable()
    ensures MouseCursor(Move) == "move"
    ensures MouseCursor(TransformTopLeft) == "se-resize" && MouseCursor(TransformBottomRight) == "se-resize"
    ensures MouseCursor(TransformTopRight) == "sw-resize" && MouseCursor(TransformBottomLeft) == "sw-resize"
    ensures MouseCursor(TransformTopCenter) == "ns-resize" && MouseCursor(TransformBottomCenter) == "ns-resize"
    ensures MouseCursor(TransformCenterLeft) == "w-resize" && MouseCursor(TransformCenterRight) == "w-resize"
    ensures MouseCursor(Normal) == "auto"
  {
  }

  /** Handles across the box from one another show the same cursor. */
  lemma CursorOfOppositeHandle(k: ControlType)
    ensures Opposite(Opposite(k)) == k
    ensures MouseCursor(Opposite(k)) == MouseCursor(k)
  {
  }

  /**
   * The cursor token tells which axes a handle resizes: `ns-resize` the
   * height only, `w-resize` the width only, `se-resize` and `sw-resize` both,
   * split by the diagonal the handle sits on.
   */
  lemma CursorReflectsDrag(k: ControlType)
    ensures MouseCursor(k) == "ns-resize" <==> ResizesHeight(k) && !ResizesWidth(k)
    ensures MouseCursor(k) == "w-resize" <==> ResizesWidth(k) && !ResizesHeight(k)
    ensures MouseCursor(k) == "se-resize" <==> ResizesWidth(k) && ResizesHeight(k) && MovesLeft(k) == MovesTop(k)
    ensures MouseCursor(k) == "sw-resize" <==> ResizesWidth(k) && ResizesHeight(k) && MovesLeft(k) != MovesTop(k)
    ensures MouseCursor(k) == "move" <==> MovesLeft(k) && MovesRight(k) && MovesTop(k) && MovesBottom(k)
    ensures MouseCursor(k) == "auto" <==> !MovesLeft(k) && !MovesRight(k) && !MovesTop(k) && !MovesBottom(k)
  {
  }

  // ---------------------------------------------------------------------
  // The clamp

  /** Sane bounds: positions may be 0 and sizes may be the minimum. */
  predicate SaneBounds(maxX: real, maxY: real, maxWidth: real, maxHeight: real) {
    maxX >= 0.0 && maxY >= 0.0 && maxWidth >= MinSize && maxHeight >= MinSize
  }

  /** Under sane bounds the clamped rectangle lies within them. */
  lemma ClampLandsInBounds(r: ClipRectInfo, maxX: real, maxY: real, maxWidth: real, maxHeight: real)
    requires SaneBounds(maxX, maxY, maxWidth, maxHeight)
    ensures WithinBounds(LimitingClipRect(r, maxX, maxY, maxWidth, maxHeight), maxX, maxY, maxWidth, maxHeight)
  {
  }

  /** Under sane bounds the clamp leaves a rectangle alone exactly when it is already within them. */
  lemma ClampFixedPoints(r: ClipRectInfo, maxX: real, maxY: real, maxWidth: real, maxHeight: real)
    requires SaneBounds(maxX, maxY, maxWidth, maxHeight)
    ensures LimitingClipRect(r, maxX, maxY, maxWidth, maxHeight) == r <==> WithinBounds(r, maxX, maxY, maxWidth, maxHeight)
  {
    ClampLandsInBounds(r, maxX, maxY, maxWidth, maxHeight);
  }

  /** Clamping twice with the same bounds is clamping once, for any bounds. */
  lemma ClampIdempotent(r: ClipRectInfo, maxX: real, maxY: real, maxWidth: real, maxHeight: real)
    ensures var once := LimitingClipRect(r, maxX, maxY, maxWidth, maxHeight);
            LimitingClipRect(once, maxX, maxY, maxWidth, maxHeight) == once
  {
  }

  /** Worked example: `{-10,500,50,9999}` within bounds `300,300,400,400`. */
  lemma ClampExample()
    ensures LimitingClipRect(ClipRectInfo(-10.0, 500.0, 50.0, 9999.0), 300.0, 300.0, 400.0, 400.0)
         == ClipRectInfo(0.0, 300.0, 100.0, 400.0)
  {
  }
}
