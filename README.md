# ng-sortable `$helper`: a verified model of the drag-and-drop move descriptor

This project models the `$helper` service of the ng-sortable drag-and-drop
list component (`source/sortable-helper.js`). Its core is the **move
descriptor** built by `dragItem(item)`. The descriptor keeps a snapshot of
where a dragged item came from (`sourceInfo`) and where it is currently
proposed to go (`index` in container `parent`). It offers `moveTo`,
`isSameParent`, `isOrderChanged`, `eventArgs` and `apply`. Beside it, the
project models three pure helpers: `offset`, `positionStarted` and `noDrag`.

Files and modules:

- `containers.dfy`, module `Containers`: a sortable container (`Sortable`, a
  class with a constant `element` identity and a `seq` of model values).
  `removeItem` and `insertItem` are given the delete-at and insert-at
  contract that the helper relies on (`RemoveAt`, `InsertAt`). The module
  also proves that the two undo each other and how each changes the
  multiset of contents.
- `drag_item.dfy`, module `DragItem`: the descriptor as a class
  (`Descriptor`). `index`, `parent` and an `applied` flag are mutable fields.
  `source` and `sourceInfo` are `const`, so no operation can change the
  snapshot. The module has the index-adjustment rule of `moveTo`
  (`AdjustedIndex`) and lemmas about remove-then-insert. With these it
  proves that the item lands where the caller pointed, that contents are
  preserved and that lengths change as expected. `DropWithinList` runs a
  whole gesture inside one list through the class's own methods.
- `geometry.dfy`, module `Geometry`: `offset` and `positionStarted` over
  integer readings of the DOM.
- `attributes.dfy`, module `Attributes`: `noDrag` over an attribute map.

Drop positions: `moveTo(parent, t)` is called with a position in the
containers as they are during the gesture, while the item is still in its
source container. Position `t` means "in front of the element now at `t`",
and the container's length means "at the end". `apply` removes the item
before inserting it. So in the item's own container, a position after the
item must be lowered by one, and that is the adjustment `moveTo` makes.

## Model

| member | source | states |
|---|---|---|
| `Containers.RemoveAt` | source/sortable-helper.js:134 | removing at `i` gives a list one shorter: the elements before `i` stay in place and the rest shift down by one |
| `Containers.InsertAt` | source/sortable-helper.js:135 | inserting `v` at `i` gives a list one longer with `v` at `i`: the elements before `i` stay in place and the rest shift up by one |
| `Containers.RemoveUndoesInsert` | source/sortable-helper.js:134-135 | removing at `i` right after inserting at `i` restores the original list |
| `Containers.InsertUndoesRemove` | source/sortable-helper.js:134-135 | re-inserting the removed element at its own index restores the original list |
| `Containers.RemoveAtMultiset` | source/sortable-helper.js:134 | removal takes exactly one occurrence of the removed element out of the contents |
| `Containers.InsertAtMultiset` | source/sortable-helper.js:135 | insertion adds exactly one occurrence of the inserted value to the contents |
| `Containers.Sortable.RemoveItem` | source/sortable-helper.js:134 | `removeItem(i)` replaces the container's list by the list with position `i` deleted, and loses exactly that value |
| `Containers.Sortable.InsertItem` | source/sortable-helper.js:135 | `insertItem(i, v)` replaces the container's list by the list with `v` at `i`, and gains exactly `v` |
| `DragItem.AdjustedIndex` | source/sortable-helper.js:109-112 | the index `moveTo` stores. In another container it is the drop position itself. In the item's own container it is the number of positions in front of the drop position other than the item's own, which is where the item belongs once it has been taken out |
| `DragItem.AdjustedIndexExamples` | source/sortable-helper.js:106-113 | for an item taken from position 2, a drop at 5 in the same container is stored as 4, a drop at 1 as 1, and a drop at 3 in another container as 3 |
| `DragItem.AdjustedIndexUnchanged` | source/sortable-helper.js:109-121 | in the same container the stored index equals the source index exactly when the drop is in front of the item itself or in front of its successor |
| `DragItem.MoveWithin` | source/sortable-helper.js:133-136 | remove-then-insert within one container keeps its length |
| `DragItem.MoveWithinPermutes` | source/sortable-helper.js:133-136 | moving within one container is a permutation: the multiset of contents is unchanged |
| `DragItem.MoveWithinLands` | source/sortable-helper.js:106-136 | within one container the item ends at the adjusted index. It lands in front of the element that was at the drop position and behind the element that was just before it. The other elements keep their relative order |
| `DragItem.MoveWithinUnchanged` | source/sortable-helper.js:109-121 | a same-container drop whose stored index equals the source index (`isOrderChanged()` false) leaves the list exactly as it was |
| `DragItem.MoveAcross` | source/sortable-helper.js:133-136 | a move to another container shrinks the source by one and grows the destination by one. The item lands at the requested index, between the neighbours of that drop position, and the two lists together keep their contents |
| `DragItem.Descriptor.constructor` | source/sortable-helper.js:94-104 | a fresh descriptor has `index == sourceInfo.index == item.index` and `parent == sourceInfo.sortableScope == item.sortableScope`, so it is same-parent and order-unchanged |
| `DragItem.Descriptor.MoveTo` | source/sortable-helper.js:106-113 | `moveTo(p, t)` always sets `parent := p`. It stores `t - 1` when `p` has the source container's element and `t` is after the source index, and `t` otherwise |
| `DragItem.Descriptor.IsSameParent` | source/sortable-helper.js:115-117 | the proposed container counts as the source container by its element. It always does when it is the source container's own object. The constructor, `MoveTo` and `EventArgs` state how it decides the adjustment and the payload |
| `DragItem.Descriptor.IsOrderChanged` | source/sortable-helper.js:119-121 | when it is false and the proposal is the source container, remove-then-insert at the proposed index gives back the list unchanged. `EventArgs` and `DropWithinList` state it as "the indices differ" and "the drop is neither in front of the item nor in front of its successor" |
| `DragItem.Descriptor.EventArgs` | source/sortable-helper.js:123-131 | the payload is exactly `{source: sourceInfo, dest: {index, sortableScope: parent}}`. Its indices differ exactly when `isOrderChanged()`, and its containers share an element exactly when `isSameParent()` |
| `DragItem.Descriptor.Apply` | source/sortable-helper.js:133-136 | remove at `sourceInfo.index` from the source container, then insert `source.modelValue` at `index` in `parent`. Within one container the length is kept; across containers the source shrinks by one and the destination grows by one. The value ends at `index`, contents are preserved when the inserted value is the removed one, and no other container changes |
| `DragItem.DropWithinList` | source/sortable-helper.js:94-136 | construct, `moveTo`, `apply` in one list: the list ends as `MoveWithin`, as a permutation, with the item in front of the element at the drop position. `isOrderChanged()` holds exactly when the drop is neither in front of the item nor in front of its successor, and otherwise the list is untouched |
| `Geometry.Offset` | source/sortable-helper.js:60-69 | width and height are the offset size; `top`/`left` add the window's page offset to the client rectangle, or the root element's scroll when that page offset is 0 |
| `Geometry.ScrollOf` | source/sortable-helper.js:66-67 | the scroll that `pageOffset || rootScroll` adds is one the readings report: the window's nonzero page offset, or the root element's scroll when the page offset is 0 |
| `Geometry.OffsetIsPagePosition` | source/sortable-helper.js:60-69 | on each axis, `offset` is the viewport corner moved by the scroll `s` exactly when the readings report `s`: the window reports a nonzero `s`, or reports 0 and the root element reports `s` |
| `Geometry.PositionStarted` | source/sortable-helper.js:83-92 | the element's page corner plus the grab offset is the pointer's page position. `startX == lastX == pageX` and `startY == lastY == pageY`, and every distance and direction field is 0 |
| `Geometry.GrabOffsetIgnoresScroll` | source/sortable-helper.js:83-92 | for a pointer at viewport position (cx, cy) on a page scrolled by (sx, sy), the grab offset on each axis is the pointer's distance from the element's viewport corner exactly when the readings report that axis's scroll, whatever its amount |
| `Attributes.Attr` | source/sortable-helper.js:141-142 | `attr(name)` is defined exactly when the attribute is present, and is then its value |
| `Attributes.NoDrag` | source/sortable-helper.js:140-143 | `noDrag` holds exactly when `nodrag` or `data-nodrag` is present |
| `Attributes.NoDragIgnoresValue` | source/sortable-helper.js:140-143 | either attribute vetoes with any value, the empty string included |
| `Attributes.NoDragDependsOnNamesOnly` | source/sortable-helper.js:140-143 | elements with the same attribute names get the same verdict |
| `Attributes.NoDragIgnoresOtherAttributes` | source/sortable-helper.js:140-143 | setting any other attribute does not change the verdict |

## Left out

- `height` and `width` (source/sortable-helper.js:30-47): plain DOM property reads with no logic.
- The browser queries `getBoundingClientRect`, `offsetWidth`/`offsetHeight`, `pageXOffset`/`pageYOffset` and the root element's scroll position: their results are integer parameters. Fractional pixel values are not modelled.
- `positionStarted` calls `offset(target)` twice. The model assumes both calls read the same DOM values.
- The Angular module and factory registration (source/sortable-helper.js:4, 15-16): framework plumbing.
- The implementations of `removeItem` and `insertItem` belong to the container directive and are not part of this model. Only their delete-at and insert-at contract is modelled.
- `DragItem.Descriptor.Apply`: requires `sourceInfo.index` to be a position of the source list, and `index` to be a valid insert position after the removal. The JavaScript never checks either. It also requires that a proposed container with the source container's element is the source container's own object (see "Scope wrappers" below).
- `DragItem.Descriptor.MoveTo`: requires that `apply` has not run yet (the `applied` flag). The JavaScript does not guard against calling `moveTo` or `apply` after `apply`, and what then happens is unspecified.
- `this.source.index()` is read live by `moveTo`. The model uses the index captured at the start of the drag, because nothing changes the list during the gesture.
- The loose `==` on `element` is modelled as identity of an integer token.
- Scope wrappers: a container is one `Sortable` object, and its element identifies it. Two distinct wrapper objects that share an element and the list behind it are not modelled. `Apply` therefore excludes a proposed container that has the source's element but is a different object. Without that exclusion the model would treat the two as separate lists, and the item would land one position before the requested drop.
