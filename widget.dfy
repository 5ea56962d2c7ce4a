/** The earlier floating widget (`FloatingWidget`): draggable by its header, collapsible, and,
    when expanded, showing a sample script that a test button switches on and off. Unlike
    `WidgetContent` it has no drag guard on its toggle, and its collapsed form is 40 high. */
module Widget {
  import opened Common
  import opened WidgetGeometry

  /** The collapsed form is 280 by 40. */
  const CollapsedSize := Size(280, 40)

  const SampleGreeting := "Hello! Thank you for calling. How can I assist you today?"

  datatype WidgetState = WidgetState(collapsed: bool, position: Point, dragging: bool, dragStart: Point,
                                     showSampleScript: bool)

  /** Mounted collapsed near the bottom-right corner of a viewport of size `viewport`. */
  function Initial(viewport: Size): (s: WidgetState)
    ensures s.collapsed && !s.dragging && s.showSampleScript
    ensures viewport.width >= 300 && viewport.height >= 60 ==> Inside(viewport, SizeOf(true, CollapsedSize), s.position)
    ensures s.position.x == viewport.width - 300 && s.position.y == viewport.height - 60
  {
    WidgetState(true, Point(viewport.width - 300, viewport.height - 60), false, Point(0, 0), true)
  }

  datatype Event =
    | MouseDown(onHeader: bool, client: Point)   // `onHeader`: the target is inside `.widget-header`
    | MouseMove(client: Point)
    | MouseUp
    | Toggle                                     // `toggleCollapsed`
    | ToggleSample                               // the "Toggle Script (Testing)" button, rendered only while
                                                 // expanded; the model accepts it in either form

  /** The script text shown in the expanded form. */
  function ScriptText(s: WidgetState): (text: string)
    ensures text == "" <==> !s.showSampleScript
  {
    if s.showSampleScript then SampleGreeting else ""
  }

  function Next(s: WidgetState, e: Event, viewport: Size): (r: WidgetState)
    ensures e.MouseDown? ==>
              r == if e.onHeader then s.(dragging := true, dragStart := Point(e.client.x - s.position.x, e.client.y - s.position.y))
                   else s
    ensures e.MouseMove? && s.dragging ==>
              r == s.(position := Bounded(viewport, SizeOf(s.collapsed, CollapsedSize),
                                          Point(e.client.x - s.dragStart.x, e.client.y - s.dragStart.y)))
    ensures (e.MouseMove? || e.MouseUp?) && !s.dragging ==> r == s
    ensures e.MouseUp? ==> !r.dragging && r.(dragging := s.dragging) == s
    // the toggle always flips, even during a drag; only expanding moves the widget
    ensures e.Toggle? ==> r.collapsed == !s.collapsed && r.(collapsed := s.collapsed, position := s.position) == s
    ensures e.Toggle? ==> r.position == if s.collapsed then ExpandAdjusted(viewport, s.position) else s.position
    ensures e.ToggleSample? ==> r == s.(showSampleScript := !s.showSampleScript)
    ensures e != ToggleSample ==> r.showSampleScript == s.showSampleScript
    ensures Fits(viewport, ExpandedSize) && Inside(viewport, SizeOf(s.collapsed, CollapsedSize), s.position) ==>
              Inside(viewport, SizeOf(r.collapsed, CollapsedSize), r.position)
  {
    match e
    case MouseDown(onHeader, client) =>
      if onHeader then s.(dragging := true, dragStart := Point(client.x - s.position.x, client.y - s.position.y))
      else s
    case MouseMove(client) =>
      if s.dragging then
        s.(position := Bounded(viewport, SizeOf(s.collapsed, CollapsedSize), Point(client.x - s.dragStart.x, client.y - s.dragStart.y)))
      else s
    case MouseUp => s.(dragging := false)
    case Toggle =>
      if s.collapsed then s.(collapsed := false, position := ExpandAdjusted(viewport, s.position))
      else s.(collapsed := true)
    case ToggleSample => s.(showSampleScript := !s.showSampleScript)
  }

  function Final(s: WidgetState, events: seq<Event>, viewport: Size): WidgetState {
    if events == [] then s else Next(Final(s, events[..|events| - 1], viewport), events[|events| - 1], viewport)
  }

  /** In a viewport of at least 400 by 500 the widget, mounted at its initial place, never
      leaves the screen. */
  lemma {:induction false} AlwaysOnScreen(events: seq<Event>, viewport: Size)
    requires Fits(viewport, ExpandedSize)
    ensures var s := Final(Initial(viewport), events, viewport);
            Inside(viewport, SizeOf(s.collapsed, CollapsedSize), s.position)
  {
    if events != [] {
      AlwaysOnScreen(events[..|events| - 1], viewport);
    }
  }

  /** The number of `ToggleSample` events. */
  function SampleToggles(events: seq<Event>): nat {
    if events == [] then 0
    else SampleToggles(events[..|events| - 1]) + (if events[|events| - 1].ToggleSample? then 1 else 0)
  }

  /** The sample script is shown exactly when the test button was pressed an even number of
      times: the greeting and the empty text alternate. */
  lemma {:induction false} SampleScriptAlternates(s: WidgetState, events: seq<Event>, viewport: Size)
    ensures Final(s, events, viewport).showSampleScript == (s.showSampleScript == (SampleToggles(events) % 2 == 0))
  {
    if events != [] {
      SampleScriptAlternates(s, events[..|events| - 1], viewport);
    }
  }

  /** Without a drag guard, a click that ends a drag toggles the widget. */
  lemma ClickEndingADragToggles(s: WidgetState, down: Point, client: Point, viewport: Size)
    ensures var afterUp := Next(Next(Next(s, MouseDown(true, down), viewport), MouseMove(client), viewport),
                                MouseUp, viewport);
            && !afterUp.dragging && afterUp.collapsed == s.collapsed
            && Next(afterUp, Toggle, viewport).collapsed == !s.collapsed
  {
  }

  /** The component's state hooks. */
  class FloatingWidget {
    var collapsed: bool
    var position: Point
    var dragging: bool
    var dragStart: Point
    var showSampleScript: bool

    function State(): WidgetState
      reads this
    {
      WidgetState(collapsed, position, dragging, dragStart, showSampleScript)
    }

    constructor (viewport: Size)
      ensures State() == Initial(viewport)
    {
      collapsed := true;
      position := Point(viewport.width - 300, viewport.height - 60);
      dragging := false;
      dragStart := Point(0, 0);
      showSampleScript := true;
    }

    method HandleMouseDown(onHeader: bool, client: Point)
      modifies this
      ensures State() == Next(old(State()), MouseDown(onHeader, client), Size(0, 0))
    {
      if onHeader {
        dragging := true;
        dragStart := Point(client.x - position.x, client.y - position.y);
      }
    }

    method HandleMouseMove(client: Point, viewport: Size)
      modifies this
      ensures State() == Next(old(State()), MouseMove(client), viewport)
    {
      if dragging {
        var size := SizeOf(collapsed, CollapsedSize);
        var newX := client.x - dragStart.x;
        var newY := client.y - dragStart.y;
        position := Point(Max(0, Min(viewport.width - size.width, newX)),
                          Max(0, Min(viewport.height - size.height, newY)));
      }
    }

    method HandleMouseUp()
      modifies this
      ensures State() == Next(old(State()), MouseUp, Size(0, 0))
    {
      dragging := false;
    }

    method ToggleCollapsed(viewport: Size)
      modifies this
      ensures State() == Next(old(State()), Toggle, viewport)
    {
      var wasCollapsed := collapsed;
      collapsed := !collapsed;
      if !wasCollapsed {
        return;
      }
      position := Point(Min(position.x, viewport.width - ExpandedSize.width),
                        Min(position.y, viewport.height - ExpandedSize.height));
    }

    method ToggleSampleScript()
      modifies this
      ensures State() == Next(old(State()), ToggleSample, Size(0, 0))
    {
      showSampleScript := !showSampleScript;
    }
  }
}
