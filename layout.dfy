/** The layout model: panels ("boxes") on a 10-column grid with 80 px rows,
    each either at rest on the grid or lifted into a free pixel rectangle. */
module Layout {
  import opened Wrappers

  /** Number of grid columns. */
  const COL_COUNT: int := 10
  /** Height of one grid row, in pixels, used when snapping. */
  const SNAP_ROW_HEIGHT: real := 80.0
  /** Smallest width and height a resize can leave, in pixels. */
  const MIN_SIZE: real := 40.0

  /** A free-form rectangle, in pixels, relative to the container's top-left corner. */
  datatype AbsRect = AbsRect(x: real, y: real, width: real, height: real)

  /** A panel. `abs` is the free-form rectangle, present while the box is lifted. */
  datatype Box = Box(
    id: int,
    col: int,
    row: int,
    colSpan: int,
    rowSpan: int,
    isSelected: bool,
    abs: Option<AbsRect>)

  /** The grid fields of a box. */
  datatype Placement = Placement(col: int, row: int, colSpan: int, rowSpan: int)

  function PlacementOf(b: Box): (p: Placement) {
    Placement(b.col, b.row, b.colSpan, b.rowSpan)
  }

  /** JavaScript's `Math.round`: the nearest integer, halves rounded towards +infinity. */
  function Round(v: real): (n: int)
    ensures n as real - 0.5 <= v < n as real + 0.5
  {
    (v + 0.5).Floor
  }

  /** `Math.max` and `Math.min` on integers, and `Math.max` on pixels. */
  function Max(a: int, b: int): (m: int) { if a < b then b else a }
  function Min(a: int, b: int): (m: int) { if a < b then a else b }
  function RealMax(a: real, b: real): (m: real) { if a < b then b else a }

  /** A placement that fits the grid: the box starts in a column and ends
      in the last column at the latest, and spans at least one row and column. */
  predicate InGrid(p: Placement) {
    && 1 <= p.col <= COL_COUNT
    && 1 <= p.colSpan
    && p.col + p.colSpan - 1 <= COL_COUNT
    && 1 <= p.row
    && 1 <= p.rowSpan
  }

  /** A box in grid mode: not selected and without a free-form rectangle. */
  predicate AtRest(b: Box) {
    !b.isSelected && b.abs.None?
  }

  /** A box is in exactly one of the two modes, and its grid fields fit the grid. */
  predicate BoxValid(b: Box) {
    InGrid(PlacementOf(b)) && (b.isSelected <==> b.abs.Some?)
  }

  predicate UniqueIds(bs: seq<Box>) {
    forall i, j :: 0 <= i < j < |bs| ==> bs[i].id != bs[j].id
  }

  predicate AtMostOneSelected(bs: seq<Box>) {
    forall i, j :: 0 <= i < j < |bs| ==> !(bs[i].isSelected && bs[j].isSelected)
  }

  /** The invariant the page keeps over its list of boxes. */
  predicate LayoutValid(bs: seq<Box>) {
    && UniqueIds(bs)
    && (forall i :: 0 <= i < |bs| ==> BoxValid(bs[i]))
    && AtMostOneSelected(bs)
  }

  /** The three boxes the page starts with, all at rest on the grid. */
  function InitialBoxes(): (bs: seq<Box>)
    ensures |bs| == 3 && LayoutValid(bs)
    ensures forall i :: 0 <= i < |bs| ==> AtRest(bs[i])
  {
    [ Box(1, 1, 1, 3, 2, false, None),
      Box(2, 4, 1, 2, 1, false, None),
      Box(3, 7, 2, 4, 2, false, None) ]
  }
}
