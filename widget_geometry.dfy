/** The position arithmetic shared by the two floating-widget components: keeping a dragged
    widget inside the viewport, and pulling it back in when it expands. Coordinates are whole
    pixels. */
module WidgetGeometry {
  import opened Common

  datatype Point = Point(x: int, y: int)

  datatype Size = Size(width: int, height: int)

  /** The expanded widget is 400 by 500 in both components. */
  const ExpandedSize := Size(400, 500)

  /** The widget's size: the component's own `collapsedSize` when collapsed, 400 by 500 when
      expanded. */
  function SizeOf(collapsed: bool, collapsedSize: Size): (s: Size)
    ensures s == collapsedSize || s == ExpandedSize
    ensures s == ExpandedSize <==> !collapsed || collapsedSize == ExpandedSize
    // a collapsed form no larger than the expanded one: neither form exceeds 400 by 500
    ensures Fits(ExpandedSize, collapsedSize) ==> Fits(ExpandedSize, s)
  {
    if collapsed then collapsedSize else ExpandedSize
  }

  /** The widget of size `size` at `p` lies within the viewport. */
  predicate Inside(viewport: Size, size: Size, p: Point) {
    0 <= p.x <= viewport.width - size.width && 0 <= p.y <= viewport.height - size.height
  }

  predicate Fits(viewport: Size, size: Size) {
    size.width <= viewport.width && size.height <= viewport.height
  }

  /** `Math.max(0, Math.min(inner − size, new))` on each axis. */
  function Bounded(viewport: Size, size: Size, p: Point): (r: Point)
    ensures r.x >= 0 && r.y >= 0
    ensures Fits(viewport, size) ==> Inside(viewport, size, r)
    ensures Inside(viewport, size, p) ==> r == p
    // when the viewport is narrower (lower) than the widget, the widget is pinned to the left (top)
    ensures viewport.width < size.width ==> r.x == 0
    ensures viewport.height < size.height ==> r.y == 0
    // otherwise each coordinate moves only as far as needed
    ensures r.x == p.x || r.x == 0 || r.x == viewport.width - size.width
    ensures r.y == p.y || r.y == 0 || r.y == viewport.height - size.height
  {
    Point(Clamp(0, viewport.width - size.width, p.x), Clamp(0, viewport.height - size.height, p.y))
  }

  /** The adjustment made when the widget expands: `Math.min(prev, inner − 400/500)`. */
  function ExpandAdjusted(viewport: Size, p: Point): (r: Point)
    // it never moves the widget right or down
    ensures r.x <= p.x && r.y <= p.y
    ensures r.x <= viewport.width - ExpandedSize.width && r.y <= viewport.height - ExpandedSize.height
    // a widget whose expanded form already fits is not moved
    ensures p.x <= viewport.width - ExpandedSize.width && p.y <= viewport.height - ExpandedSize.height ==> r == p
  {
    Point(Min(p.x, viewport.width - ExpandedSize.width), Min(p.y, viewport.height - ExpandedSize.height))
  }

  /** In a viewport with room for the expanded widget, expanding from any on-screen position
      leaves the whole expanded widget on screen. (No lower bound is applied: in a smaller
      viewport the expanded widget can be pushed past the left or top edge.) */
  lemma ExpandStaysInside(viewport: Size, p: Point)
    requires Fits(viewport, ExpandedSize)
    ensures p.x >= 0 && p.y >= 0 ==> Inside(viewport, ExpandedSize, ExpandAdjusted(viewport, p))
  {
  }

  /** A viewport narrower than the expanded widget puts it at a negative coordinate. */
  lemma ExpandInNarrowViewportLeavesScreen(viewport: Size, p: Point)
    requires viewport.width < ExpandedSize.width && p.x >= 0
    ensures ExpandAdjusted(viewport, p).x < 0
  {
  }

  /** Shrinking the widget keeps it on screen. */
  lemma SmallerStaysInside(viewport: Size, big: Size, small: Size, p: Point)
    requires small.width <= big.width && small.height <= big.height
    ensures Inside(viewport, big, p) ==> Inside(viewport, small, p)
  {
  }
}
