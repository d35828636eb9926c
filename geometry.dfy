/**
 * Pointer and element geometry of the drag helper: `offset(element)` and
 * `positionStarted(event, target)`.
 *
 * The browser queries (the element's bounding client rectangle and offset
 * size, the window's page offsets, the root element's scroll position) are
 * not modelled; their integer results are passed in.
 */
module Geometry {

  /** What the DOM reports about an element: its offset size and its viewport-relative corner. */
  datatype ElementMetrics = ElementMetrics(offsetWidth: int, offsetHeight: int, rectTop: int, rectLeft: int)

  /** What the browser reports about scrolling: the window's page offsets and the root element's scroll. */
  datatype Viewport = Viewport(pageXOffset: int, pageYOffset: int, rootScrollTop: int, rootScrollLeft: int)

  /** The box returned by `offset`, in page coordinates. */
  datatype Box = Box(width: int, height: int, top: int, left: int)

  /** A pointer event's page coordinates. */
  datatype PointerEvent = PointerEvent(pageX: int, pageY: int)

  /** The drag-position record returned by `positionStarted`. */
  datatype Position = Position(
    offsetX: int, offsetY: int,
    startX: int, startY: int,
    lastX: int, lastY: int,
    nowX: int, nowY: int,
    distX: int, distY: int,
    dirX: int, dirY: int,
    lastDirX: int, lastDirY: int,
    distAxX: int, distAxY: int,
    dirAx: int)

  /**
   * The readings of one axis report the scroll `s`: the window reports `s`,
   * or the window reports 0 and the root element reports `s`.
   */
  predicate ReportsScroll(pageOffset: int, rootScroll: int, s: int)
  {
    (pageOffset != 0 && pageOffset == s) || (pageOffset == 0 && rootScroll == s)
  }

  /**
   * The scroll amount `offset` adds along one axis: the window's page offset,
   * or, when that is 0 (JavaScript's `||` treats 0 as missing), the root
   * element's scroll position.
   */
  function ScrollOf(pageOffset: int, rootScroll: int): (r: int)
    ensures ReportsScroll(pageOffset, rootScroll, r)
  {
    if pageOffset != 0 then pageOffset else rootScroll
  }

  /** `offset(element)`: the element's box moved from viewport to page coordinates. */
  function Offset(el: ElementMetrics, view: Viewport): (b: Box)
    ensures b.width == el.offsetWidth && b.height == el.offsetHeight
    ensures view.pageYOffset != 0 ==> b.top == el.rectTop + view.pageYOffset
    ensures view.pageYOffset == 0 ==> b.top == el.rectTop + view.rootScrollTop
    ensures view.pageXOffset != 0 ==> b.left == el.rectLeft + view.pageXOffset
    ensures view.pageXOffset == 0 ==> b.left == el.rectLeft + view.rootScrollLeft
  {
    Box(el.offsetWidth, el.offsetHeight,
        el.rectTop + ScrollOf(view.pageYOffset, view.rootScrollTop),
        el.rectLeft + ScrollOf(view.pageXOffset, view.rootScrollLeft))
  }

  /**
   * `offset` is the viewport corner moved by (sx, sy) exactly when the
   * browser's readings report the scroll (sx, sy).
   */
  lemma OffsetIsPagePosition(el: ElementMetrics, view: Viewport, sx: int, sy: int)
    ensures Offset(el, view).left == el.rectLeft + sx
        <==> ReportsScroll(view.pageXOffset, view.rootScrollLeft, sx)
    ensures Offset(el, view).top == el.rectTop + sy
        <==> ReportsScroll(view.pageYOffset, view.rootScrollTop, sy)
  {
  }

  /** Every tracking field of a position record is zero: no motion recorded yet. */
  predicate AtRest(p: Position)
  {
    && p.nowX == 0 && p.nowY == 0
    && p.distX == 0 && p.distY == 0
    && p.dirX == 0 && p.dirY == 0
    && p.lastDirX == 0 && p.lastDirY == 0
    && p.distAxX == 0 && p.distAxY == 0
    && p.dirAx == 0
  }

  /** `positionStarted(e, target)`: the record a drag gesture starts from. */
  function PositionStarted(e: PointerEvent, target: ElementMetrics, view: Viewport): (p: Position)
    ensures Offset(target, view).left + p.offsetX == e.pageX
    ensures Offset(target, view).top + p.offsetY == e.pageY
    ensures p.startX == p.lastX == e.pageX && p.startY == p.lastY == e.pageY
    ensures AtRest(p)
  {
    var box := Offset(target, view);
    Position(
      e.pageX - box.left, e.pageY - box.top,
      e.pageX, e.pageY,
      e.pageX, e.pageY,
      0, 0, 0, 0, 0, 0, 0, 0, 0, 0, 0)
  }

  /**
   * The grab offset does not depend on scrolling: for a pointer at viewport
   * position (cx, cy), on a page whose readings report the scroll (sx, sy),
   * the offset is the pointer's distance from the element's viewport corner;
   * on each axis it is that distance only when the readings report the scroll.
   */
  lemma GrabOffsetIgnoresScroll(cx: int, cy: int, target: ElementMetrics, view: Viewport, sx: int, sy: int)
    ensures PositionStarted(PointerEvent(cx + sx, cy + sy), target, view).offsetX == cx - target.rectLeft
        <==> ReportsScroll(view.pageXOffset, view.rootScrollLeft, sx)
    ensures PositionStarted(PointerEvent(cx + sx, cy + sy), target, view).offsetY == cy - target.rectTop
        <==> ReportsScroll(view.pageYOffset, view.rootScrollTop, sy)
  {
  }
}
