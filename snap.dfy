/** The snap engine: turns each lifted box's free-form rectangle back into
    grid coordinates by rounding and clamping, and puts every box at rest. */
module Snap {
  import opened Wrappers
  import opened Layout

  /** Width of one column; 0 while the container has not been measured. */
  function ColWidth(containerWidth: Option<real>): (w: real)
    ensures containerWidth.None? ==> w == 0.0
    ensures containerWidth.Some? ==> w * COL_COUNT as real == containerWidth.value
  {
    if containerWidth.Some? then containerWidth.value / COL_COUNT as real else 0.0
  }

  /** Whether a snap runs: the container is measured and its columns have a width. */
  predicate SnapRuns(containerWidth: Option<real>) {
    containerWidth.Some? && ColWidth(containerWidth) != 0.0
  }

  /** A box the snap re-places: selected and carrying a free-form rectangle. */
  predicate Lifted(b: Box) {
    b.isSelected && b.abs.Some?
  }

  /** The grid placement for one free-form rectangle. The column is clamped
      first and the column span is then clamped against that clamped column. */
  function SnapRect(r: AbsRect, colWidth: real): (p: Placement)
    requires colWidth != 0.0
    ensures InGrid(p)
    ensures var c := Round(r.x / colWidth) + 1;
      && (c < 1 ==> p.col == 1)
      && (1 <= c <= COL_COUNT ==> p.col == c)
      && (COL_COUNT < c ==> p.col == COL_COUNT)
    ensures var s := Round(r.width / colWidth);
      && (s < 1 ==> p.colSpan == 1)
      && (1 <= s <= COL_COUNT - p.col + 1 ==> p.colSpan == s)
      && (COL_COUNT - p.col + 1 < s ==> p.colSpan == COL_COUNT - p.col + 1)
    ensures var k := Round(r.y / SNAP_ROW_HEIGHT) + 1;
      && (k < 1 ==> p.row == 1)
      && (1 <= k ==> p.row == k)
    ensures var s := Round(r.height / SNAP_ROW_HEIGHT);
      && (s < 1 ==> p.rowSpan == 1)
      && (1 <= s ==> p.rowSpan == s)
  {
    SnapRounded(Round(r.x / colWidth), Round(r.width / colWidth),
                Round(r.y / SNAP_ROW_HEIGHT), Round(r.height / SNAP_ROW_HEIGHT))
  }

  /** The clamping steps of a snap, given the rounded column offset, column
      span, row offset and row span. */
  function SnapRounded(colOffset: int, colSpanRounded: int, rowOffset: int, rowSpanRounded: int): (p: Placement)
    ensures InGrid(p)
    ensures colOffset + 1 < 1 ==> p.col == 1
    ensures 1 <= colOffset + 1 <= COL_COUNT ==> p.col == colOffset + 1
    ensures COL_COUNT < colOffset + 1 ==> p.col == COL_COUNT
    ensures colSpanRounded < 1 ==> p.colSpan == 1
    ensures 1 <= colSpanRounded <= COL_COUNT - p.col + 1 ==> p.colSpan == colSpanRounded
    ensures COL_COUNT - p.col + 1 < colSpanRounded ==> p.colSpan == COL_COUNT - p.col + 1
    ensures rowOffset + 1 < 1 ==> p.row == 1
    ensures 1 <= rowOffset + 1 ==> p.row == rowOffset + 1
    ensures rowSpanRounded < 1 ==> p.rowSpan == 1
    ensures 1 <= rowSpanRounded ==> p.rowSpan == rowSpanRounded
  {
    var col0 := colOffset + 1;
    var colSpan0 := Max(1, colSpanRounded);
    var col := Max(1, Min(COL_COUNT, col0));
    var colSpan := Max(1, Min(COL_COUNT - col + 1, colSpan0));
    var row := rowOffset + 1;
    var rowSpan := Max(1, rowSpanRounded);
    Placement(col, Max(1, row), colSpan, rowSpan)
  }

  /** One box after a snap that runs: lifted boxes take the snapped
      placement, every box leaves free-form mode. */
  function SnapBox(b: Box, colWidth: real): (r: Box)
    requires colWidth != 0.0
    ensures r.id == b.id && AtRest(r)
    ensures Lifted(b) ==> PlacementOf(r) == SnapRect(b.abs.value, colWidth)
    ensures !Lifted(b) ==> PlacementOf(r) == PlacementOf(b)
  {
    if !Lifted(b) then
      b.(isSelected := false, abs := None)
    else
      var p := SnapRect(b.abs.value, colWidth);
      b.(col := p.col, row := p.row, colSpan := p.colSpan, rowSpan := p.rowSpan,
         isSelected := false, abs := None)
  }

  /** Snapping every box of the list, or nothing at all when the container
      is unmeasured or its columns have no width. */
  function SnapAll(bs: seq<Box>, containerWidth: Option<real>): (r: seq<Box>)
    ensures |r| == |bs|
    ensures !SnapRuns(containerWidth) ==> r == bs
    ensures SnapRuns(containerWidth) ==>
      forall i :: 0 <= i < |bs| ==> r[i].id == bs[i].id && AtRest(r[i])
    ensures SnapRuns(containerWidth) ==>
      forall i :: 0 <= i < |bs| && Lifted(bs[i]) ==> InGrid(PlacementOf(r[i]))
    ensures SnapRuns(containerWidth) ==>
      forall i :: 0 <= i < |bs| && Lifted(bs[i]) ==>
        PlacementOf(r[i]) == SnapRect(bs[i].abs.value, ColWidth(containerWidth))
    ensures SnapRuns(containerWidth) ==>
      forall i :: 0 <= i < |bs| && !Lifted(bs[i]) ==> PlacementOf(r[i]) == PlacementOf(bs[i])
  {
    if !SnapRuns(containerWidth) then bs
    else
      var colWidth := ColWidth(containerWidth);
      seq(|bs|, i requires 0 <= i < |bs| => SnapBox(bs[i], colWidth))
  }

  /** The free-form rectangle that covers a grid placement exactly. */
  function GridRect(p: Placement, colWidth: real): (r: AbsRect) {
    AbsRect((p.col - 1) as real * colWidth, (p.row - 1) as real * SNAP_ROW_HEIGHT,
            p.colSpan as real * colWidth, p.rowSpan as real * SNAP_ROW_HEIGHT)
  }

  /** Rounding `v / w`, where `v` is `k` units of width `w`, gives back `k`. */
  lemma RoundScaled(v: real, k: int, w: real)
    requires w != 0.0 && v == k as real * w
    ensures Round(v / w) == k
  {
    assert v / w * w == k as real * w;
    assert v / w == k as real;
  }

  /** The snap of a rectangle whose four ratios round to a placement's fields. */
  lemma SnapOfRoundedRatios(r: AbsRect, colWidth: real, p: Placement)
    requires colWidth != 0.0 && InGrid(p)
    requires Round(r.x / colWidth) == p.col - 1 && Round(r.width / colWidth) == p.colSpan
    requires Round(r.y / SNAP_ROW_HEIGHT) == p.row - 1 && Round(r.height / SNAP_ROW_HEIGHT) == p.rowSpan
    ensures SnapRect(r, colWidth) == p
  {
    assert SnapRounded(p.col - 1, p.colSpan, p.row - 1, p.rowSpan) == p;
  }

  /** A grid-aligned rectangle snaps back to exactly the placement it covers. */
  lemma SnapGridAligned(p: Placement, colWidth: real)
    requires colWidth != 0.0 && InGrid(p)
    ensures SnapRect(GridRect(p, colWidth), colWidth) == p
  {
    var r := GridRect(p, colWidth);
    RoundScaled(r.x, p.col - 1, colWidth);
    RoundScaled(r.width, p.colSpan, colWidth);
    RoundScaled(r.y, p.row - 1, SNAP_ROW_HEIGHT);
    RoundScaled(r.height, p.rowSpan, SNAP_ROW_HEIGHT);
    SnapOfRoundedRatios(r, colWidth, p);
  }

  /** Snapping twice changes nothing: the grid rectangle of a snapped
      placement snaps back to the same placement. */
  lemma SnapStable(r: AbsRect, colWidth: real)
    requires colWidth != 0.0
    ensures SnapRect(GridRect(SnapRect(r, colWidth), colWidth), colWidth) == SnapRect(r, colWidth)
  {
    SnapGridAligned(SnapRect(r, colWidth), colWidth);
  }

  /** The column is the grid line nearest to the rectangle's left edge,
      or the first or last column when that line lies off the grid. */
  lemma SnapColumnNearest(r: AbsRect, colWidth: real)
    requires colWidth != 0.0
    ensures var c := SnapRect(r, colWidth).col as real - 1.0;
      && (-0.5 <= r.x / colWidth < COL_COUNT as real - 0.5 ==> c - 0.5 <= r.x / colWidth < c + 0.5)
      && (r.x / colWidth < -0.5 ==> c == 0.0)
      && (COL_COUNT as real - 0.5 <= r.x / colWidth ==> c == COL_COUNT as real - 1.0)
  {
  }

  /** The row is the row line nearest to the top edge, or the first row. */
  lemma SnapRowNearest(r: AbsRect, colWidth: real)
    requires colWidth != 0.0
    ensures var k := SnapRect(r, colWidth).row as real - 1.0;
      && (-0.5 <= r.y / SNAP_ROW_HEIGHT ==> k - 0.5 <= r.y / SNAP_ROW_HEIGHT < k + 0.5)
      && (r.y / SNAP_ROW_HEIGHT < -0.5 ==> k == 0.0)
  {
  }

  /** A column span that would run past the last column is cut at the grid
      edge, using the already clamped column: rounded column 9 with rounded
      span 5 commits to column 9, span 2. */
  lemma SnapSpanClamped()
    ensures var p := SnapRect(AbsRect(800.0, 0.0, 500.0, 80.0), 100.0);
      p.col == 9 && p.colSpan == 2 && p.row == 1 && p.rowSpan == 1
  {
  }

  /** A 1000 px container gives 100 px columns; the rectangle
      (250, 90, 180, 70) commits to column 4 (2.5 columns from the left edge
      rounds up to 3, and columns count from 1), span 2, row 2, row span 1. */
  lemma SnapScenario(id: int)
    ensures var bs := SnapAll([Box(id, 1, 1, 1, 1, true, Some(AbsRect(250.0, 90.0, 180.0, 70.0)))], Some(1000.0));
      |bs| == 1 && bs[0] == Box(id, 4, 2, 2, 1, false, None)
  {
  }

  /** A snap keeps the layout invariant, and one that runs leaves every box at rest. */
  lemma SnapKeepsValid(bs: seq<Box>, containerWidth: Option<real>)
    requires LayoutValid(bs)
    ensures LayoutValid(SnapAll(bs, containerWidth))
    ensures SnapRuns(containerWidth) ==>
      forall i :: 0 <= i < |bs| ==> AtRest(SnapAll(bs, containerWidth)[i])
  {
  }
}
