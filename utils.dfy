/**
 * The crop widget's helpers: the cursor chosen for a handle, the rectangle
 * produced by a drag, and the clamp that keeps a rectangle in bounds.
 */
module Utils {
  import opened Geometry

  /** The CSS cursor tokens `setMouseCursor` may assign. */
  const CursorTokens: set<string> :=
    {"auto", "move", "se-resize", "sw-resize", "ns-resize", "w-resize"}

  /**
   * The cursor token `setMouseCursor` writes to the canvas style for a handle.
   * Every handle gets a token; only `Normal` falls to the default `auto`.
   */
  function MouseCursor(k: ControlType): (cursor: string)
    ensures cursor in CursorTokens
    ensures cursor == "auto" <==> k == Normal
    ensures cursor == "move" <==> k == Move
  {
    match k
    case Move => "move"
    case TransformTopLeft => "se-resize"
    case TransformTopCenter => "ns-resize"
    case TransformTopRight => "sw-resize"
    case TransformCenterLeft => "w-resize"
    case TransformCenterRight => "w-resize"
    case TransformBottomLeft => "sw-resize"
    case TransformBottomCenter => "ns-resize"
    case TransformBottomRight => "se-resize"
    case Normal => "auto"
  }

  /**
   * The rectangle after dragging handle `k` by `(moveX, moveY)`: the fields
   * are copied into locals, the handle's case adjusts some of them, and the
   * locals are returned. The result is exactly the edge-based drag.
   */
  method GetClipRectTransformInfo(clipRect: ClipRectInfo, moveX: real, moveY: real, k: ControlType)
    returns (r: ClipRectInfo)
    ensures r == Dragged(clipRect, moveX, moveY, k)
  {
    var x, y, width, height := clipRect.x, clipRect.y, clipRect.width, clipRect.height;
    match k {
      case Move =>
        x := x + moveX;
        y := y + moveY;
      case TransformTopLeft =>
        x := x + moveX;
        y := y + moveY;
        width := width - moveX;
        height := height - moveY;
      case TransformTopCenter =>
        y := y + moveY;
        height := height - moveY;
      case TransformTopRight =>
        y := y + moveY;
        width := width + moveX;
        height := height - moveY;
      case TransformCenterLeft =>
        x := x + moveX;
        width := width - moveX;
      case TransformCenterRight =>
        width := width + moveX;
      case TransformBottomLeft =>
        x := x + moveX;
        width := width - moveX;
        height := height + moveY;
      case TransformBottomCenter =>
        height := height + moveY;
      case TransformBottomRight =>
        width := width + moveX;
        height := height + moveY;
      case Normal =>
    }
    r := ClipRectInfo(x, y, width, height);
  }

  /**
   * `limitingClipRect`: each coordinate is capped by its maximum and then
   * floored (at 0 for the position, at 100 for the size). The floor is applied
   * last, so it wins over a maximum that lies below it.
   */
  function LimitingClipRect(data: ClipRectInfo, maxX: real, maxY: real, maxWidth: real, maxHeight: real)
    : (r: ClipRectInfo)
    ensures r.x >= 0.0 && r.y >= 0.0
    ensures r.width >= MinSize && r.height >= MinSize
    ensures maxX >= 0.0 ==> r.x <= maxX
    ensures maxY >= 0.0 ==> r.y <= maxY
    ensures maxWidth >= MinSize ==> r.width <= maxWidth
    ensures maxHeight >= MinSize ==> r.height <= maxHeight
    ensures maxWidth < MinSize ==> r.width == MinSize
    ensures maxX < 0.0 ==> r.x == 0.0
    ensures maxY < 0.0 ==> r.y == 0.0
    ensures maxHeight < MinSize ==> r.height == MinSize
    ensures 0.0 <= data.x <= maxX ==> r.x == data.x
    ensures 0.0 <= data.y <= maxY ==> r.y == data.y
    ensures MinSize <= data.width <= maxWidth ==> r.width == data.width
    ensures MinSize <= data.height <= maxHeight ==> r.height == data.height
    ensures data.x < 0.0 ==> r.x == 0.0
    ensures data.y < 0.0 ==> r.y == 0.0
    ensures data.width < MinSize ==> r.width == MinSize
    ensures data.height < MinSize ==> r.height == MinSize
    ensures maxX >= 0.0 && data.x > maxX ==> r.x == maxX
    ensures maxY >= 0.0 && data.y > maxY ==> r.y == maxY
    ensures maxWidth >= MinSize && data.width > maxWidth ==> r.width == maxWidth
    ensures maxHeight >= MinSize && data.height > maxHeight ==> r.height == maxHeight
  {
    ClipRectInfo(
      Max(Min(data.x, maxX), 0.0),
      Max(Min(data.y, maxY), 0.0),
      Max(Min(data.width, maxWidth), MinSize),
      Max(Min(data.height, maxHeight), MinSize))
  }
}
