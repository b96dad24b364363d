# Interactive grid layout engine, in Dafny

This project models the layout engine of the interactive grid page
(`app/page.tsx`). Panels ("boxes") sit on a 10-column grid with 80 px rows.
A box carries an id, a column, a row, a column span and a row span. One box
at a time can be lifted out of the grid into a free pixel rectangle (`abs`),
measured relative to the container. While it is lifted, the pointer can move
it or resize it. A snap then rounds the rectangle back onto the grid.

Modules, one per component of the page:

- `Wrappers`: `Option`, for the values the page keeps as optional (`abs?`,
  `DragState | null`, `DOMRect | null`).
- `Layout`: the records `AbsRect` and `Box`, the constants `COL_COUNT = 10`,
  `SNAP_ROW_HEIGHT = 80` and `MIN_SIZE = 40`, and JavaScript's `Math.round`.
  It also holds the invariant `LayoutValid`: ids are distinct, every box's
  grid fields fit the grid, a box is selected exactly when it has `abs`, and
  at most one box is selected.
- `Selection`: `handleSelectBox` as the pure function `Select` over the box
  list.
- `Drag`: the per-box update inside `handleMove` (`MoveRect`, `ResizeRect`,
  `ApplyDrag`) and `boxes.find` (`FindBox`).
- `Snap`: the round-and-clamp arithmetic of `snapSelectedToGrid` (`SnapRect`,
  `SnapBox`, `SnapAll`). `GridRect` gives the rectangle that exactly covers
  a grid placement. It is the reference that the round trip is proved
  against.
- `GridPage`: the class `GridLayout`. It holds the component's mutable
  state in the fields `boxes`, `drag` and `containerWidth`. Each event
  handler is a method that reassigns these fields. Each method keeps
  `Valid()` and states its new state with the functions above. The
  constructor starts from the page's three initial boxes. This proves that
  the invariant holds in every reachable state.

Modelling choices:

- Pixels and pointer coordinates are exact `real`s. `Math.round(v)` is
  `(v + 0.5).Floor`, which rounds halves towards +infinity as JavaScript does.
- DOM measurements are parameters, and each is `None` when the element is
  missing. These are the container and box rectangles read by
  `getBoundingClientRect`, and the container width cached by the resize
  listener.
- A pointer-down inside the container is `ContainerClick(onBox)`. `onBox`
  says whether the target lies inside a box.
- Column numbers count from 1, so the rectangle (250, 90, 180, 70) in a 1000 px
  container commits to column `Math.round(250 / 100) + 1 = 4`.
  `Snap.SnapScenario` proves column 4, column span 2, row 2 and row span 1.
- The column count, row height and minimum size are literals in the code, and
  the model keeps them as constants.
- A move keeps the box's current width and height (`...b.abs`), not those of
  `startAbs`. A resize keeps the current `x` and `y`. `MoveRect` and
  `ResizeRect` take both the current rectangle and the start rectangle.


## Model

| member | source | states |
|---|---|---|
| `Layout.Round` | app/page.tsx:144-151 | The result is the integer nearest to the input. A value exactly halfway rounds up (`n - 1/2 <= v < n + 1/2`), as `Math.round` does. |
| `Layout.InitialBoxes` | app/page.tsx:38-42 | The three starting boxes are at rest and satisfy the layout invariant: distinct ids, in the grid, selected iff `abs`, at most one selected. |
| `Snap.SnapRounded` | app/page.tsx:145-157 | Each field is stated in every clamp case. The column is `offset + 1` clamped to 1..10. The span is the rounded span when that lies in 1..`11 - col` (using the clamped column), 1 below that range and `11 - col` above it. The row is `offset + 1`, or 1 when that is below 1. The row span is the rounded span, or 1 when that is below 1. The result fits the grid. |
| `Snap.SnapRect` | app/page.tsx:144-157 | The result fits the grid. Each field is stated in every clamp case in terms of `Round(x / colWidth) + 1`, `Round(width / colWidth)`, `Round(y / 80) + 1` and `Round(height / 80)`. The span is clamped against the already clamped column. |
| `Snap.SnapBox` | app/page.tsx:139-161 | Every box leaves free-form mode and keeps its id. A lifted box (selected and with `abs`) takes the snapped placement. Any other box keeps its grid fields. |
| `Snap.SnapAll` | app/page.tsx:134-164 | When the container is unmeasured or `colWidth` is 0, the list is returned unchanged. Otherwise length and ids are kept and every box is at rest. Every lifted box takes `SnapRect` of its own rectangle with `colWidth = containerWidth / 10`, and every other box keeps its grid fields. |
| `Snap.ColWidth` | app/page.tsx:56 | An unmeasured container gives column width 0. A measured one gives the width whose ten columns fill the container exactly. |
| `Snap.SnapGridAligned` | app/page.tsx:144-151 | A grid-aligned rectangle (`x = (c-1)*colWidth`, `width = s*colWidth`, `y = (r-1)*80`, `height = k*80`) snaps back exactly to `c, r, s, k`, for any placement that fits the grid. |
| `Snap.SnapStable` | app/page.tsx:144-157 | Snapping the rectangle that covers a snapped placement gives the same placement, so repeated snaps do not drift. |
| `Snap.SnapColumnNearest` | app/page.tsx:144-147 | The column's left grid line is the one nearest to `x / colWidth`. Positions before the first column clamp to column 1, and positions past the last clamp to column 10. |
| `Snap.SnapRowNearest` | app/page.tsx:150-156 | The row's top line is the one nearest to `y / 80`. Positions above the grid clamp to row 1. |
| `Snap.SnapSpanClamped` | app/page.tsx:147-148 | Rounded column 9 with rounded span 5 commits to column 9, span 2. |
| `Snap.SnapScenario` | app/page.tsx:134-161 | A 1000 px container and the rectangle (250, 90, 180, 70) give column 4, row 2, span 2, row span 1. The box becomes unselected with no `abs`. |
| `Snap.SnapKeepsValid` | app/page.tsx:137-161 | A snap keeps the layout invariant. One that runs leaves every box at rest. |
| `Selection.Relative` | app/page.tsx:119-126 | The free-form rectangle places the element at its measured offset from the container's corner and keeps its measured size. |
| `Selection.SelectOne` | app/page.tsx:113-128 | Each box keeps its id and grid fields. A box with another id is put at rest. The target is unchanged when it cannot be measured, and otherwise is selected with the measured rectangle. |
| `Selection.Select` | app/page.tsx:107-131 | A missing container changes nothing. Otherwise ids and grid fields are kept and every other box is at rest. If the target cannot be measured it is unchanged; otherwise it is selected with the measured relative rectangle. |
| `Selection.SelectKeepsValid` | app/page.tsx:112-130 | Selection keeps the layout invariant. With distinct ids, at most one box is selected afterwards. |
| `Selection.SelectExclusive` | app/page.tsx:113-128 | After a measured selection, a box is selected if and only if it has the chosen id. |
| `Drag.MoveRect` | app/page.tsx:70-78 | The corner is offset from `startAbs` by exactly the pointer delta. The current width and height are kept. |
| `Drag.ResizeRect` | app/page.tsx:81-88 | Width and height are at least 40, and `x`, `y` are unchanged. Each side follows the pointer delta from the start size while that stays at least 40, and is exactly 40 otherwise. |
| `Drag.DragBox` | app/page.tsx:67-89 | A box with another id, or without `abs`, is returned as is. The dragged box changes only in `abs`, which becomes the move or resize of its current rectangle from `startAbs`. |
| `Drag.ApplyDrag` | app/page.tsx:60-91 | Only boxes with the drag's id and an `abs` change, and only in `abs`. A move offsets `x, y` from `startAbs` by exactly the pointer delta and keeps the size. A resize keeps `x, y` and sets `max(40, start + delta)`. |
| `Drag.FindBox` | app/page.tsx:260-261 | Returns none iff no box has the id. Otherwise returns the first box in the list with that id. |
| `Drag.DragNoDrift` | app/page.tsx:63-78 | A pointer move after any earlier move gives the same boxes as that move alone. The result depends only on the frozen start snapshot and the current pointer, so replaying a position changes nothing. |
| `Drag.DragKeepsValid` | app/page.tsx:66-89 | A pointer move keeps the layout invariant. |
| `GridPage.GridLayout.constructor` | app/page.tsx:36-43 | Starts with the initial boxes, no drag and no container measurement, and the invariant holds. |
| `GridPage.GridLayout.UpdateContainer` | app/page.tsx:46-49 | A measured container replaces the cached width. A missing one leaves it unchanged. The boxes and the drag are untouched. |
| `GridPage.GridLayout.SelectBox` | app/page.tsx:107-131 | The boxes become `Select` of the old boxes. The drag and the container are untouched, and the invariant is kept. |
| `GridPage.GridLayout.StartDrag` | app/page.tsx:260-269 | If the first box with the id exists and has `abs`, the drag records id, kind, start pointer and `startAbs = abs`. Otherwise the drag state is unchanged. The boxes are untouched. |
| `GridPage.GridLayout.StartMove` | app/page.tsx:255-270 | `StartDrag` with kind move. |
| `GridPage.GridLayout.StartResize` | app/page.tsx:272-287 | `StartDrag` with kind resize. |
| `GridPage.GridLayout.MouseMove` | app/page.tsx:60-91 | With no drag, nothing changes. Otherwise the boxes become `ApplyDrag` of the old boxes at the pointer. The drag is kept, and so is the invariant. |
| `GridPage.GridLayout.MouseUp` | app/page.tsx:93-95 | The drag becomes none. The boxes are untouched. |
| `GridPage.GridLayout.SnapSelectedToGrid` | app/page.tsx:134-164 | The boxes become `SnapAll` of the old boxes. The invariant is kept, and when the snap runs every box is at rest. |
| `GridPage.GridLayout.ContainerClick` | app/page.tsx:167-172 | A pointer-down outside every box snaps. One on a box changes nothing. |

## Left out

- Rendering: the JSX, Tailwind classes and CSS grid placement strings (app/page.tsx:175-252) are presentation only.
- DOM measurement (`getBoundingClientRect`, `getElementById`) is replaced by `Option` parameters. The model does not capture that, once selected, a box's element loses its `id` attribute.
- React lifecycle and window listener wiring (`useLayoutEffect`, `useEffect`, `add/removeEventListener`) are out. Mouse move and mouse up are method calls.
- The hit test `closest(".box-item")` and `stopPropagation` are DOM plumbing. The hit test is the `onBox` argument of `ContainerClick`.
- IEEE-754 arithmetic is out. Pixels are exact reals, so floating-point rounding error is not modelled.
- Stale closures are out: the handlers read the current state, where React reads `colWidth` and `boxes` from the render that created them.
- Drag cancellation is absent from the code and is not modelled.
