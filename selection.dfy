/** Selecting a box: the chosen box is lifted into free-form mode with its
    measured rectangle, and every other box is dropped back to the grid. */
module Selection {
  import opened Wrappers
  import opened Layout

  /** A rectangle as the browser measures it, in viewport pixels. */
  datatype ClientRect = ClientRect(left: real, top: real, width: real, height: real)

  /** The free-form rectangle of an element, relative to the container's top-left corner. */
  function Relative(element: ClientRect, container: ClientRect): (r: AbsRect)
    ensures container.left + r.x == element.left && container.top + r.y == element.top
    ensures r.width == element.width && r.height == element.height
  {
    AbsRect(element.left - container.left, element.top - container.top, element.width, element.height)
  }

  /** One box when box `id` is selected; `rect` is the target's measured
      rectangle, when it could be measured. */
  function SelectOne(b: Box, id: int, rect: Option<AbsRect>): (r: Box)
    ensures r.id == b.id && PlacementOf(r) == PlacementOf(b)
    ensures b.id != id ==> AtRest(r)
    ensures b.id == id && rect.None? ==> r == b
    ensures b.id == id && rect.Some? ==> r.isSelected && r.abs == rect
  {
    if b.id != id then b.(isSelected := false, abs := None)
    else if rect.None? then b
    else b.(isSelected := true, abs := rect)
  }

  /** Selecting box `id`. `container` and `element` are the measurements of
      the container and of the box's element; a missing container changes
      nothing, a missing element leaves the target as it was. */
  function Select(bs: seq<Box>, id: int, container: Option<ClientRect>, element: Option<ClientRect>): (r: seq<Box>)
    ensures |r| == |bs|
    ensures container.None? ==> r == bs
    ensures forall i :: 0 <= i < |bs| ==> r[i].id == bs[i].id && PlacementOf(r[i]) == PlacementOf(bs[i])
    ensures container.Some? ==> forall i :: 0 <= i < |bs| && bs[i].id != id ==> AtRest(r[i])
    ensures container.Some? && element.None? ==>
      forall i :: 0 <= i < |bs| && bs[i].id == id ==> r[i] == bs[i]
    ensures container.Some? && element.Some? ==>
      forall i :: 0 <= i < |bs| && bs[i].id == id ==>
        r[i].isSelected && r[i].abs == Some(Relative(element.value, container.value))
  {
    if container.None? then bs
    else
      var rect := if element.Some? then Some(Relative(element.value, container.value)) else None;
      seq(|bs|, i requires 0 <= i < |bs| => SelectOne(bs[i], id, rect))
  }

  /** Selection keeps the layout invariant; in particular, with distinct ids
      at most one box is selected afterwards. */
  lemma SelectKeepsValid(bs: seq<Box>, id: int, container: Option<ClientRect>, element: Option<ClientRect>)
    requires LayoutValid(bs)
    ensures LayoutValid(Select(bs, id, container, element))
  {
  }

  /** After a measured selection, the selected boxes are exactly those with the chosen id. */
  lemma SelectExclusive(bs: seq<Box>, id: int, container: ClientRect, element: ClientRect)
    ensures var r := Select(bs, id, Some(container), Some(element));
      forall i :: 0 <= i < |r| ==> (r[i].isSelected <==> bs[i].id == id)
  {
  }
}
