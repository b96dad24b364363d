/** The grid page's state and its event handlers: the list of boxes, the
    drag session (none while idle) and the cached container width. */
module GridPage {
  import opened Wrappers
  import opened Layout
  import opened Selection
  import opened Drag
  import opened Snap

  class GridLayout {
    var boxes: seq<Box>
    var drag: Option<DragState>
    /** Width of the container as last measured; none before the first measurement. */
    var containerWidth: Option<real>

    predicate Valid()
      reads this
    {
      LayoutValid(boxes)
    }

    /** The page as first rendered: three boxes at rest, no drag, container not yet measured. */
    constructor ()
      ensures Valid()
      ensures boxes == InitialBoxes() && drag.None? && containerWidth.None?
    {
      boxes := InitialBoxes();
      drag := None;
      containerWidth := None;
    }

    /** Re-measuring the container (on mount and on every window resize);
        nothing happens while the container element is missing. */
    method UpdateContainer(container: Option<ClientRect>)
      requires Valid()
      modifies this
      ensures Valid() && boxes == old(boxes) && drag == old(drag)
      ensures containerWidth == if container.Some? then Some(container.value.width) else old(containerWidth)
    {
      if container.Some? {
        containerWidth := Some(container.value.width);
      }
    }

    /** Pointer down on a box at rest: select it with its measured rectangle. */
    method SelectBox(id: int, container: Option<ClientRect>, element: Option<ClientRect>)
      requires Valid()
      modifies this
      ensures Valid() && drag == old(drag) && containerWidth == old(containerWidth)
      ensures boxes == Select(old(boxes), id, container, element)
    {
      SelectKeepsValid(boxes, id, container, element);
      boxes := Select(boxes, id, container, element);
    }

    /** Begins a drag of the given kind on the first box with id `boxId`,
        unless there is none or it has no free-form rectangle. */
    method StartDrag(boxId: int, kind: DragKind, clientX: real, clientY: real)
      requires Valid()
      modifies this
      ensures Valid() && boxes == old(boxes) && containerWidth == old(containerWidth)
      ensures var found := FindBox(boxes, boxId);
        if found.Some? && found.value.abs.Some? then
          drag == Some(DragState(boxId, kind, clientX, clientY, found.value.abs.value))
        else drag == old(drag)
    {
      var found := FindBox(boxes, boxId);
      if found.None? || found.value.abs.None? {
        return;
      }
      drag := Some(DragState(boxId, kind, clientX, clientY, found.value.abs.value));
    }

    /** Pointer down on a selected box's body. */
    method StartMove(boxId: int, clientX: real, clientY: real)
      requires Valid()
      modifies this
      ensures Valid() && boxes == old(boxes) && containerWidth == old(containerWidth)
      ensures var found := FindBox(boxes, boxId);
        if found.Some? && found.value.abs.Some? then
          drag == Some(DragState(boxId, Move, clientX, clientY, found.value.abs.value))
        else drag == old(drag)
    {
      StartDrag(boxId, Move, clientX, clientY);
    }

    /** Pointer down on a selected box's resize handle. */
    method StartResize(boxId: int, clientX: real, clientY: real)
      requires Valid()
      modifies this
      ensures Valid() && boxes == old(boxes) && containerWidth == old(containerWidth)
      ensures var found := FindBox(boxes, boxId);
        if found.Some? && found.value.abs.Some? then
          drag == Some(DragState(boxId, Resize, clientX, clientY, found.value.abs.value))
        else drag == old(drag)
    {
      StartDrag(boxId, Resize, clientX, clientY);
    }

    /** Pointer move anywhere: with a drag active, recompute the dragged
        box's rectangle; otherwise nothing changes. */
    method MouseMove(clientX: real, clientY: real)
      requires Valid()
      modifies this
      ensures Valid() && drag == old(drag) && containerWidth == old(containerWidth)
      ensures boxes == if drag.Some? then ApplyDrag(old(boxes), drag.value, clientX, clientY) else old(boxes)
    {
      if drag.None? {
        return;
      }
      DragKeepsValid(boxes, drag.value, clientX, clientY);
      boxes := ApplyDrag(boxes, drag.value, clientX, clientY);
    }

    /** Pointer up anywhere: the drag ends; the boxes stay as they are. */
    method MouseUp()
      requires Valid()
      modifies this
      ensures Valid() && drag.None?
      ensures boxes == old(boxes) && containerWidth == old(containerWidth)
    {
      drag := None;
    }

    /** Snaps every selected box back to the grid, or does nothing while the
        container is unmeasured or has no width. */
    method SnapSelectedToGrid()
      requires Valid()
      modifies this
      ensures Valid() && drag == old(drag) && containerWidth == old(containerWidth)
      ensures boxes == SnapAll(old(boxes), containerWidth)
      ensures SnapRuns(containerWidth) ==> forall i :: 0 <= i < |boxes| ==> AtRest(boxes[i])
    {
      SnapKeepsValid(boxes, containerWidth);
      boxes := SnapAll(boxes, containerWidth);
    }

    /** Pointer down inside the container: outside every box it commits the snap. */
    method ContainerClick(onBox: bool)
      requires Valid()
      modifies this
      ensures Valid() && drag == old(drag) && containerWidth == old(containerWidth)
      ensures boxes == if onBox then old(boxes) else SnapAll(old(boxes), containerWidth)
    {
      if !onBox {
        SnapSelectedToGrid();
      }
    }
  }
}
