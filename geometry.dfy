/**
 * The data model of the crop widget's geometry helpers: the drag-handle
 * enumeration, the crop rectangle, and an edge-based reference description
 * of what a drag does. TypeScript `number` coordinates are modelled as
 * mathematical reals.
 */
module Geometry {

  /** Which part of the crop box a pointer drag manipulates. */
  datatype ControlType =
    | Normal
    | Move
    | TransformTopLeft
    | TransformTopCenter
    | TransformTopRight
    | TransformCenterLeft
    | TransformCenterRight
    | TransformBottomLeft
    | TransformBottomCenter
    | TransformBottomRight

  /** A crop rectangle: top-left corner plus extent; no invariant is enforced. */
  datatype ClipRectInfo = ClipRectInfo(x: real, y: real, width: real, height: real)

  /** The minimum width and height a clamped crop rectangle may have. */
  const MinSize: real := 100.0

  /** `Math.max` and `Math.min` on finite numbers. */
  function Max(a: real, b: real): real { if a < b then b else a }
  function Min(a: real, b: real): real { if a < b then a else b }

  // The four edges of a rectangle.
  function Left(r: ClipRectInfo): real { r.x }
  function Top(r: ClipRectInfo): real { r.y }
  function Right(r: ClipRectInfo): real { r.x + r.width }
  function Bottom(r: ClipRectInfo): real { r.y + r.height }

  /** The rectangle bounded by the four given edges. */
  function FromEdges(left: real, top: real, right: real, bottom: real): ClipRectInfo {
    ClipRectInfo(left, top, right - left, bottom - top)
  }

  // Which edges a handle drags along with the pointer. `Move` drags all four,
  // `Normal` none, and each transform handle the edges it sits on.
  predicate MovesLeft(k: ControlType) {
    k in {Move, TransformTopLeft, TransformCenterLeft, TransformBottomLeft}
  }
  predicate MovesRight(k: ControlType) {
    k in {Move, TransformTopRight, TransformCenterRight, TransformBottomRight}
  }
  predicate MovesTop(k: ControlType) {
    k in {Move, TransformTopLeft, TransformTopCenter, TransformTopRight}
  }
  predicate MovesBottom(k: ControlType) {
    k in {Move, TransformBottomLeft, TransformBottomCenter, TransformBottomRight}
  }

  /** A handle resizes along an axis when it drags exactly one edge of that axis. */
  predicate ResizesWidth(k: ControlType) { MovesLeft(k) != MovesRight(k) }
  predicate ResizesHeight(k: ControlType) { MovesTop(k) != MovesBottom(k) }

  /** The handle diagonally or directly across the crop box. */
  function Opposite(k: ControlType): ControlType {
    match k
    case Normal => Normal
    case Move => Move
    case TransformTopLeft => TransformBottomRight
    case TransformTopCenter => TransformBottomCenter
    case TransformTopRight => TransformBottomLeft
    case TransformCenterLeft => TransformCenterRight
    case TransformCenterRight => TransformCenterLeft
    case TransformBottomLeft => TransformTopRight
    case TransformBottomCenter => TransformTopCenter
    case TransformBottomRight => TransformTopLeft
  }

  function Shift(moves: bool, d: real): real { if moves then d else 0.0 }

  /**
   * Reference meaning of a drag: every edge the handle holds follows the
   * pointer by the delta on its axis, every other edge stays where it was.
   */
  function Dragged(r: ClipRectInfo, moveX: real, moveY: real, k: ControlType): ClipRectInfo {
    FromEdges(
      Left(r) + Shift(MovesLeft(k), moveX),
      Top(r) + Shift(MovesTop(k), moveY),
      Right(r) + Shift(MovesRight(k), moveX),
      Bottom(r) + Shift(MovesBottom(k), moveY))
  }

  /** A pointer displacement as delivered by one pointer-move event. */
  datatype Delta = Delta(moveX: real, moveY: real)

  /** Applies the deltas one after the other with the same handle. */
  function DragSession(r: ClipRectInfo, moves: seq<Delta>, k: ControlType): ClipRectInfo
    decreases |moves|
  {
    if |moves| == 0 then r
    else DragSession(Dragged(r, moves[0].moveX, moves[0].moveY, k), moves[1..], k)
  }

  function SumX(moves: seq<Delta>): real
    decreases |moves|
  {
    if |moves| == 0 then 0.0 else moves[0].moveX + SumX(moves[1..])
  }

  function SumY(moves: seq<Delta>): real
    decreases |moves|
  {
    if |moves| == 0 then 0.0 else moves[0].moveY + SumY(moves[1..])
  }

  /** The rectangle lies inside the bounds `limitingClipRect` enforces. */
  predicate WithinBounds(r: ClipRectInfo, maxX: real, maxY: real, maxWidth: real, maxHeight: real) {
    && 0.0 <= r.x <= maxX
    && 0.0 <= r.y <= maxY
    && MinSize <= r.width <= maxWidth
    && MinSize <= r.height <= maxHeight
  }
}
