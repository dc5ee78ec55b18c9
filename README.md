# Crop-rectangle geometry of image-clip

This project models the geometry helpers of the image-clip cropping widget
(`src/utils/index.ts`) and proves what they guarantee:

- `ControlType`, the ten drag handles (`Normal`, `Move` and eight transform
  handles on the corners and edge midpoints), and `ClipRectInfo`, the crop
  rectangle `{x, y, width, height}` (module `Geometry`, file `geometry.dfy`).
- `setMouseCursor`: the cursor token chosen for each handle, as the function
  `Utils.MouseCursor` (file `utils.dfy`).
- `getClipRectTransformInfo`: the rectangle after a pointer drag, as the method
  `Utils.GetClipRectTransformInfo`. Like the source, it copies the fields into
  locals, adjusts them case by case and returns them. It is proved equal to an
  independent edge-based description, `Geometry.Dragged`: each handle holds
  some of the four edges (left, top, right, bottom). A held edge follows the
  pointer's displacement on its axis, and every other edge stays put.
- `limitingClipRect`: the clamp of a rectangle to `[0, max]` for position and
  `[100, max]` for size, as `Utils.LimitingClipRect`. The floor of 100 is
  applied last, so it wins over a maximum below 100.

TypeScript `number` coordinates are modelled as mathematical reals.
`Math.max`/`Math.min` are `Geometry.Max`/`Geometry.Min`.

File `properties.dfy` (module `Properties`) holds the lemmas. They cover:

- which edges each handle keeps fixed;
- composing drags: a zero displacement does nothing, drags with one handle add
  up, a whole sequence of pointer moves equals one drag, and the negated drag
  undoes a drag;
- how the cursor token reflects the axes a handle resizes;
- the bounds, fixed points and idempotence of the clamp.

The inverse of a drag is a drag with the *same* handle and the negated
displacement. Dragging the top-left corner and then the bottom-right corner by
the negated displacement does not restore the rectangle for any non-zero
displacement; this is proved (`OppositeCornerDoesNotUndo`). Dragging the two
opposite corners by the *same* displacement amounts to a `Move`.

The cursor tokens are reproduced exactly as written: `TransformTopLeft` gets
`se-resize`, and both `TransformCenterLeft` and `TransformCenterRight` get
`w-resize`.

## Model

| member | source | states |
|---|---|---|
| Utils.MouseCursor | src/utils/index.ts:25-66 | every handle gets a token from the six the switch assigns; the token is `auto` exactly for `Normal` (the default branch) and `move` exactly for `Move` |
| Utils.GetClipRectTransformInfo | src/utils/index.ts:72-129 | the returned rectangle is the edge-based drag: the edges the handle holds move by the displacement and all other edges keep their place |
| Utils.LimitingClipRect | src/utils/index.ts:149-157 | x, y are at least 0 and width, height at least 100, always; each is at most its maximum when that maximum is at least the floor; a position whose maximum is negative comes out as exactly 0 and a size whose maximum is below 100 as exactly 100; a field already inside its range is returned unchanged; a field below its floor becomes the floor, and one above a maximum that is at least the floor becomes that maximum (the nearest bound) |
| Properties.MoveTranslates | src/utils/index.ts:76-79 | `Move` shifts x by moveX and y by moveY and keeps width and height |
| Properties.NormalKeepsRect | src/utils/index.ts:73-128 | `Normal` has no case, so the rectangle comes back unchanged |
| Properties.OppositeEdgeStaysFixed | src/utils/index.ts:81-113 | `TransformTopLeft` keeps x+width and y+height; `TransformCenterLeft` and `TransformBottomLeft` keep x+width; `TransformTopCenter` and `TransformTopRight` keep y+height |
| Properties.FarHandlesKeepOrigin | src/utils/index.ts:104-121 | `TransformCenterRight`, `TransformBottomCenter` and `TransformBottomRight` keep x and y and only grow or shrink width/height by the displacement |
| Properties.ResizeAnchorsFarSide | src/utils/index.ts:81-121 | no resize handle holds both edges of an axis, and every edge a handle does not hold stays where it was |
| Properties.SizeChangesOnlyOnResizedAxis | src/utils/index.ts:72-129 | width changes exactly when the handle resizes horizontally and the displacement on x is non-zero (a zero displacement or a handle that does not resize horizontally keeps it); likewise height |
| Properties.TopLeftExample | src/utils/index.ts:81-87 | `{10,10,200,100}` dragged by `(5,-5)` at the top-left corner becomes `{15,5,195,105}` |
| Properties.DragZero | src/utils/index.ts:72-129 | a zero displacement leaves the rectangle unchanged for every handle |
| Properties.DragAdditive | src/utils/index.ts:72-129 | two drags with the same handle equal one drag by the summed displacement |
| Properties.DragInverse | src/utils/index.ts:72-129 | a drag followed by the negated drag with the same handle restores the rectangle |
| Properties.DragSessionIsOneDrag | src/utils/index.ts:72-129 | a sequence of pointer moves applied one after another with one handle equals one drag by their summed displacement |
| Properties.DragSessionUndo | src/utils/index.ts:72-129 | a session followed by one whose displacements sum to the negation restores the rectangle |
| Properties.OppositeCornersComposeToMove | src/utils/index.ts:81-121 | a corner drag followed by the diagonally opposite corner's drag by the same displacement is a `Move`, for all four corners in either order |
| Properties.OppositeCornerDoesNotUndo | src/utils/index.ts:81-121 | the opposite corner with the negated displacement is no inverse: the corner stays shifted by the displacement and the size shrinks by twice it, so any non-zero displacement leaves a different rectangle |
| Properties.CursorTable | src/utils/index.ts:25-66 | the exact token for each of the ten handles |
| Properties.CursorOfOppositeHandle | src/utils/index.ts:25-66 | handles across the box from one another get the same token |
| Properties.CursorReflectsDrag | src/utils/index.ts:25-66 | `ns-resize` exactly for handles that resize the height only, `w-resize` the width only, `se-resize`/`sw-resize` both axes (split by diagonal), `move` exactly when all four edges move, `auto` exactly when none does |
| Properties.ClampLandsInBounds | src/utils/index.ts:149-157 | with maxima of at least 0 (position) and 100 (size) the result lies within all bounds |
| Properties.ClampFixedPoints | src/utils/index.ts:149-157 | with such maxima the clamp returns its input exactly when the input is already within the bounds |
| Properties.ClampIdempotent | src/utils/index.ts:149-157 | clamping twice with the same bounds equals clamping once, for any bounds |
| Properties.ClampExample | src/utils/index.ts:149-157 | `{-10,500,50,9999}` with bounds `300,300,400,400` becomes `{0,300,100,400}` |

## Left out

- `loadImage` (src/utils/index.ts:131-147): browser file reading and image decoding through asynchronous callbacks; there is no logic to model beyond the host APIs. The `ImageInfo` type it resolves with is therefore not modelled, including its opaque `img` handle.
- The write to `canvas.style.cursor` in `setMouseCursor`: `MouseCursor` returns the token that would be assigned.
- IEEE-754 behaviour of `number`: `+` and `-` round in the source, and NaN and Infinity pass through `Math.min`/`Math.max`; none of this is modelled, coordinates are reals.
- Properties.DragAdditive: holds over reals only; in doubles `+` rounds, so 0.1 dragged by 0.2 and then 0.3 gives 0.6000000000000001 while one drag by 0.5 gives 0.6.
- Properties.DragInverse: holds over reals only; in doubles (0.1 + 0.2) - 0.2 is 0.10000000000000003, not 0.1.
- Properties.DragSessionIsOneDrag: holds over reals only, as it is built on `DragAdditive`.
- Properties.DragSessionUndo: holds over reals only, as it is built on `DragInverse`.
- Utils.GetClipRectTransformInfo: its contract uses the edge equation `(x + width) - (x + moveX) == width - moveX`, exact over reals but not in doubles.
- `Utils.MouseCursor`: a TypeScript numeric enum may be passed a number outside the ten members, which the switch sends to `auto`; `ControlType` as a datatype has no such values.
- `Utils.GetClipRectTransformInfo`: its switch has no default either, so a number outside the ten members returns the rectangle unchanged; `ControlType` as a datatype has no such values.
