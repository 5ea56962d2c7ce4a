/** The draggable, collapsible widget injected into pages (`FloatingWidgetContent`). Its state
    is the component's five state hooks plus the number of scheduled `hasDragged` resets; every
    handler is one transition of `Next`, given the viewport size at that moment. The 100 ms timer
    that clears `hasDragged` after a drag is the explicit event `ResetTimer`. */
module WidgetContent {
  import opened Common
  import opened WidgetGeometry

  /** The collapsed form is 280 by 44. */
  const CollapsedSize := Size(280, 44)

  datatype ContentState = ContentState(collapsed: bool, position: Point, dragging: bool, dragStart: Point,
                                       hasDragged: bool, pendingResets: nat)

  /** Collapsed, at (20, 20), not dragging. */
  const Initial := ContentState(true, Point(20, 20), false, Point(0, 0), false, 0)

  datatype Event =
    | MouseDown(onDragHandle: bool, client: Point)   // `onDragHandle`: the target is inside `[data-drag-handle]`
    | MouseMove(client: Point)
    | MouseUp
    | ResetTimer                                     // a scheduled `setHasDragged(false)` runs
    | Toggle                                         // `toggleCollapsed`

  /** One handler call. The move and up listeners are attached only while dragging. */
  function Next(s: ContentState, e: Event, viewport: Size): (r: ContentState)
    // a drag starts only on the handle, remembering the pointer's offset from the widget
    ensures e.MouseDown? ==>
              r == if e.onDragHandle then s.(dragging := true, dragStart := Point(e.client.x - s.position.x, e.client.y - s.position.y))
                   else s
    // a move while dragging marks the drag and places the widget, clamped to the viewport
    ensures e.MouseMove? && s.dragging ==>
              r.hasDragged && r.(hasDragged := s.hasDragged, position := s.position) == s &&
              r.position == Bounded(viewport, SizeOf(s.collapsed, CollapsedSize),
                                    Point(e.client.x - s.dragStart.x, e.client.y - s.dragStart.y))
    ensures (e.MouseMove? || e.MouseUp?) && !s.dragging ==> r == s
    // releasing ends the drag and schedules one reset of `hasDragged`; nothing else changes
    ensures e.MouseUp? && s.dragging ==>
              !r.dragging && r.pendingResets == s.pendingResets + 1 &&
              r.(dragging := s.dragging, pendingResets := s.pendingResets) == s
    // a scheduled reset clears `hasDragged`; with none scheduled the timer event changes nothing
    ensures e.ResetTimer? && s.pendingResets > 0 ==>
              !r.hasDragged && r.pendingResets == s.pendingResets - 1 &&
              r.(hasDragged := s.hasDragged, pendingResets := s.pendingResets) == s
    ensures e.ResetTimer? && s.pendingResets == 0 ==> r == s
    // the drag guard: no toggle during or just after a drag
    ensures e.Toggle? && (s.dragging || s.hasDragged) ==> r == s
    ensures e.Toggle? && !(s.dragging || s.hasDragged) ==>
              r.collapsed == !s.collapsed &&
              r.position == (if s.collapsed then ExpandAdjusted(viewport, s.position) else s.position) &&
              r.(collapsed := s.collapsed, position := s.position) == s
    // the position changes only by a drag move or by expanding
    ensures r.position != s.position ==> (e.MouseMove? && s.dragging) || (e.Toggle? && s.collapsed)
    // in a viewport with room for the expanded widget, an on-screen widget stays on screen
    ensures Fits(viewport, ExpandedSize) && Inside(viewport, SizeOf(s.collapsed, CollapsedSize), s.position) ==>
              Inside(viewport, SizeOf(r.collapsed, CollapsedSize), r.position)
  {
    match e
    case MouseDown(onDragHandle, client) =>
      if onDragHandle then s.(dragging := true, dragStart := Point(client.x - s.position.x, client.y - s.position.y))
      else s
    case MouseMove(client) =>
      if s.dragging then
        var target := Point(client.x - s.dragStart.x, client.y - s.dragStart.y);
        s.(hasDragged := true, position := Bounded(viewport, SizeOf(s.collapsed, CollapsedSize), target))
      else s
    case MouseUp =>
      if s.dragging then s.(dragging := false, pendingResets := s.pendingResets + 1) else s
    case ResetTimer =>
      if s.pendingResets > 0 then s.(hasDragged := false, pendingResets := s.pendingResets - 1) else s
    case Toggle =>
      if s.dragging || s.hasDragged then s
      else if s.collapsed then
        s.(collapsed := false, position := ExpandAdjusted(viewport, s.position))
      else
        s.(collapsed := true)
  }

  function Final(s: ContentState, events: seq<Event>, viewport: Size): ContentState {
    if events == [] then s else Next(Final(s, events[..|events| - 1], viewport), events[|events| - 1], viewport)
  }

  /** In a viewport of at least 400 by 500, the widget never leaves the screen, whatever the
      user does. */
  lemma {:induction false} AlwaysOnScreen(events: seq<Event>, viewport: Size)
    requires Fits(viewport, ExpandedSize)
    ensures var s := Final(Initial, events, viewport);
            Inside(viewport, SizeOf(s.collapsed, CollapsedSize), s.position)
  {
    if events != [] {
      AlwaysOnScreen(events[..|events| - 1], viewport);
    }
  }

  /** A click that ends a drag does not toggle the widget: after a move, the mouse-up and the
      click are ignored until the reset timer has run. */
  lemma ClickEndingADragIsIgnored(s: ContentState, client: Point, viewport: Size)
    requires s.dragging
    ensures var afterUp := Next(Next(s, MouseMove(client), viewport), MouseUp, viewport);
            Next(afterUp, Toggle, viewport) == afterUp && afterUp.collapsed == s.collapsed
  {
  }

  /** Expanding and collapsing again, with no drag in between, returns to the collapsed form at
      a position no further right or down. */
  lemma ExpandThenCollapse(s: ContentState, viewport: Size)
    requires s.collapsed && !s.dragging && !s.hasDragged
    ensures var r := Next(Next(s, Toggle, viewport), Toggle, viewport);
            r.collapsed && r.position.x <= s.position.x && r.position.y <= s.position.y
  {
  }

  /** The component's state hooks. */
  class ContentWidget {
    var collapsed: bool
    var position: Point
    var dragging: bool
    var dragStart: Point
    var hasDragged: bool
    var pendingResets: nat

    function State(): ContentState
      reads this
    {
      ContentState(collapsed, position, dragging, dragStart, hasDragged, pendingResets)
    }

    constructor ()
      ensures State() == Initial
    {
      collapsed := true;
      position := Point(20, 20);
      dragging := false;
      dragStart := Point(0, 0);
      hasDragged := false;
      pendingResets := 0;
    }

    method HandleMouseDown(onDragHandle: bool, client: Point)
      modifies this
      ensures State() == Next(old(State()), MouseDown(onDragHandle, client), Size(0, 0))
    {
      if onDragHandle {
        dragging := true;
        dragStart := Point(client.x - position.x, client.y - position.y);
      }
    }

    method HandleMouseMove(client: Point, viewport: Size)
      modifies this
      ensures State() == Next(old(State()), MouseMove(client), viewport)
    {
      if dragging {
        hasDragged := true;
        var size := SizeOf(collapsed, CollapsedSize);
        var newX := client.x - dragStart.x;
        var newY := client.y - dragStart.y;
        position := Point(Max(0, Min(viewport.width - size.width, newX)),
                          Max(0, Min(viewport.height - size.height, newY)));
      }
    }

    method HandleMouseUp()
      modifies this
      ensures State() == Next(old(State()), MouseUp, Size(0, 0))
    {
      if dragging {
        dragging := false;
        pendingResets := pendingResets + 1;
      }
    }

    method ResetHasDragged()
      modifies this
      ensures State() == Next(old(State()), ResetTimer, Size(0, 0))
    {
      if pendingResets > 0 {
        hasDragged := false;
        pendingResets := pendingResets - 1;
      }
    }

    method ToggleCollapsed(viewport: Size)
      modifies this
      ensures State() == Next(old(State()), Toggle, viewport)
    {
      if dragging || hasDragged {
        return;
      }
      var wasCollapsed := collapsed;
      collapsed := !collapsed;
      if !wasCollapsed {
        return;
      }
      position := Point(Min(position.x, viewport.width - ExpandedSize.width),
                        Min(position.y, viewport.height - ExpandedSize.height));
    }
  }
}
