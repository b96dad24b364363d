/** The drag controller's arithmetic: each pointer move recomputes the
    dragged box's rectangle from the rectangle frozen when the drag began
    and the pointer's offset from where it began. */
module Drag {
  import opened Wrappers
  import opened Layout

  datatype DragKind = Move | Resize

  /** An active drag: which box, what kind, where the pointer went down,
      and the box's rectangle at that moment. */
  datatype DragState = DragState(boxId: int, kind: DragKind, startX: real, startY: real, startAbs: AbsRect)

  /** A move: the top-left corner follows the pointer from where it started;
      the current size is kept. */
  function MoveRect(current: AbsRect, start: AbsRect, dx: real, dy: real): (r: AbsRect)
    ensures r.x - start.x == dx && r.y - start.y == dy
    ensures r.width == current.width && r.height == current.height
  {
    current.(x := start.x + dx, y := start.y + dy)
  }

  /** A resize: the bottom-right corner follows the pointer from where it
      started, but neither side drops below the minimum size; the current
      top-left corner stays where it is. */
  function ResizeRect(current: AbsRect, start: AbsRect, dx: real, dy: real): (r: AbsRect)
    ensures r.width >= MIN_SIZE && r.height >= MIN_SIZE
    ensures r.x == current.x && r.y == current.y
    ensures start.width + dx >= MIN_SIZE ==> r.width == start.width + dx
    ensures start.width + dx < MIN_SIZE ==> r.width == MIN_SIZE
    ensures start.height + dy >= MIN_SIZE ==> r.height == start.height + dy
    ensures start.height + dy < MIN_SIZE ==> r.height == MIN_SIZE
  {
    current.(width := RealMax(MIN_SIZE, start.width + dx), height := RealMax(MIN_SIZE, start.height + dy))
  }

  /** One box under a pointer move: only the dragged box, and only when it
      has a free-form rectangle, changes. */
  function DragBox(b: Box, d: DragState, dx: real, dy: real): (r: Box)
    ensures b.id != d.boxId || b.abs.None? ==> r == b
    ensures b.id == d.boxId && b.abs.Some? ==>
      && r == b.(abs := r.abs)
      && r.abs == Some(if d.kind == Move then MoveRect(b.abs.value, d.startAbs, dx, dy)
                       else ResizeRect(b.abs.value, d.startAbs, dx, dy))
  {
    if b.id != d.boxId || b.abs.None? then b
    else if d.kind == Move then b.(abs := Some(MoveRect(b.abs.value, d.startAbs, dx, dy)))
    else b.(abs := Some(ResizeRect(b.abs.value, d.startAbs, dx, dy)))
  }

  /** The boxes after the pointer moves to (`pointerX`, `pointerY`) during drag `d`. */
  function ApplyDrag(bs: seq<Box>, d: DragState, pointerX: real, pointerY: real): (r: seq<Box>)
    ensures |r| == |bs|
    ensures forall i :: 0 <= i < |bs| && (bs[i].id != d.boxId || bs[i].abs.None?) ==> r[i] == bs[i]
    ensures forall i :: 0 <= i < |bs| && bs[i].id == d.boxId && bs[i].abs.Some? ==>
      && r[i].abs.Some?
      && r[i] == bs[i].(abs := r[i].abs)
      && (d.kind == Move ==>
            && r[i].abs.value.x - d.startAbs.x == pointerX - d.startX
            && r[i].abs.value.y - d.startAbs.y == pointerY - d.startY
            && r[i].abs.value.width == bs[i].abs.value.width
            && r[i].abs.value.height == bs[i].abs.value.height)
      && (d.kind == Resize ==>
            && r[i].abs.value.x == bs[i].abs.value.x
            && r[i].abs.value.y == bs[i].abs.value.y
            && r[i].abs.value.width == RealMax(MIN_SIZE, d.startAbs.width + (pointerX - d.startX))
            && r[i].abs.value.height == RealMax(MIN_SIZE, d.startAbs.height + (pointerY - d.startY))
            && r[i].abs.value.width >= MIN_SIZE && r[i].abs.value.height >= MIN_SIZE)
  {
    var dx := pointerX - d.startX;
    var dy := pointerY - d.startY;
    seq(|bs|, i requires 0 <= i < |bs| => DragBox(bs[i], d, dx, dy))
  }

  /** The first box with the given id, as `Array.prototype.find` returns it. */
  function FindBox(bs: seq<Box>, id: int): (r: Option<Box>)
    ensures r.None? <==> forall i :: 0 <= i < |bs| ==> bs[i].id != id
    ensures r.Some? ==>
      exists i :: 0 <= i < |bs| && bs[i] == r.value && bs[i].id == id && (forall j :: 0 <= j < i ==> bs[j].id != id)
  {
    if |bs| == 0 then None
    else if bs[0].id == id then Some(bs[0])
    else
      var r := FindBox(bs[1..], id);
      assert forall i :: 1 <= i < |bs| ==> bs[i] == bs[1..][i - 1];
      r
  }

  /** Intermediate pointer positions leave no trace: after any move, the
      next move gives what that move alone would give from the start of
      the drag. In particular, replaying the same position changes nothing. */
  lemma DragNoDrift(bs: seq<Box>, d: DragState, x1: real, y1: real, x2: real, y2: real)
    ensures ApplyDrag(ApplyDrag(bs, d, x1, y1), d, x2, y2) == ApplyDrag(bs, d, x2, y2)
  {
  }

  /** A pointer move keeps the layout invariant. */
  lemma DragKeepsValid(bs: seq<Box>, d: DragState, pointerX: real, pointerY: real)
    requires LayoutValid(bs)
    ensures LayoutValid(ApplyDrag(bs, d, pointerX, pointerY))
  {
  }
}
