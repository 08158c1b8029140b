/** The horizontal drag-to-pan state machine of the wallpaper visualizer.

    A gesture starts on mouse-down, which records the pointer's x as the
    anchor; every mouse-move proposes the pan offset moved by the pointer's
    travel since the anchor and commits it, re-anchoring at the pointer, only
    when it stays within one tile width either way; mouse-up and
    mouse-leave end the gesture.  The functions here are the specification
    of the component's event handlers. */
module Drag {
  import opened Wrappers

  /** Whether a drag is in progress, the drag anchor and the pan offset. */
  datatype DragState = DragState(dragging: bool, anchor: real, offset: real)

  /** The component's state on mount. */
  const Rest := DragState(false, 0.0, 0.0)

  /** The mouse events the layer listens to, with the pointer's client x. */
  datatype Event = MouseDown(clientX: real) | MouseMove(clientX: real) | MouseUp | MouseLeave

  /** The pan offset lies within `bound` of the centred rest position. */
  predicate InBounds(offset: real, bound: real)
  {
    -bound <= offset <= bound
  }

  /** Mouse-down: start dragging from the pointer; the offset is untouched. */
  function Start(s: DragState, clientX: real): (r: DragState)
    ensures r.dragging && r.anchor == clientX && r.offset == s.offset
  {
    s.(dragging := true, anchor := clientX)
  }

  /** Mouse-up or mouse-leave: stop dragging; anchor and offset are untouched. */
  function End(s: DragState): (r: DragState)
    ensures !r.dragging && r.anchor == s.anchor && r.offset == s.offset
  {
    s.(dragging := false)
  }

  /** Mouse-move.  `bound` is one scaled tile width, or None when no image
      is loaded.  The move is ignored unless a drag is in progress and an
      image is loaded, and rejected when the proposed offset leaves the
      bounds; an accepted move re-anchors at the pointer, so the offset
      always stays as far from the anchor as it was. */
  function Move(s: DragState, clientX: real, bound: Option<real>): (r: DragState)
    ensures r.dragging == s.dragging
    ensures r.offset - r.anchor == s.offset - s.anchor
    ensures r != s ==> s.dragging && bound.Some? && r.anchor == clientX && InBounds(r.offset, bound.value)
    ensures s.dragging && bound.Some? && InBounds(s.offset + (clientX - s.anchor), bound.value)
            ==> r.anchor == clientX
  {
    if !s.dragging || bound.None? then s
    else
      var delta := clientX - s.anchor;
      var newOffset := s.offset + delta;
      if -bound.value <= newOffset && newOffset <= bound.value then
        s.(offset := newOffset, anchor := clientX)
      else
        s
  }

  /** The handler the layer runs for each event.  Only a mouse-move can
      change the offset, and it never takes an in-bounds offset out of
      bounds. */
  function Step(s: DragState, e: Event, bound: Option<real>): (r: DragState)
    ensures !e.MouseMove? ==> r.offset == s.offset
    ensures bound.Some? && InBounds(s.offset, bound.value) ==> InBounds(r.offset, bound.value)
    ensures r.dragging <==> e.MouseDown? || (e.MouseMove? && s.dragging)
  {
    match e
    case MouseDown(x) => Start(s, x)
    case MouseMove(x) => Move(s, x, bound)
    case MouseUp => End(s)
    case MouseLeave => End(s)
  }

  /** The state after a sequence of events under a fixed bound. */
  function Run(s: DragState, events: seq<Event>, bound: Option<real>): DragState
    decreases |events|
  {
    if events == [] then s else Run(Step(s, events[0], bound), events[1..], bound)
  }

  /** Under a fixed bound, an offset within the bound stays within it
      whatever events follow. */
  lemma {:induction false} RunKeepsInBounds(s: DragState, events: seq<Event>, bound: real)
    requires InBounds(s.offset, bound)
    ensures InBounds(Run(s, events, Some(bound)).offset, bound)
    decreases |events|
  {
    if events != [] {
      var s' := Step(s, events[0], Some(bound));
      assert InBounds(s'.offset, bound);
      RunKeepsInBounds(s', events[1..], bound);
    }
  }

  /** From the state on mount, with a non-negative bound, the offset never
      leaves [-bound, bound]. */
  lemma OffsetInvariant(events: seq<Event>, bound: real)
    requires bound >= 0.0
    ensures InBounds(Run(Rest, events, Some(bound)).offset, bound)
  {
    RunKeepsInBounds(Rest, events, bound);
  }

  /** Without an image no event moves the pattern. */
  lemma {:induction false} NoImageNoPan(s: DragState, events: seq<Event>)
    ensures Run(s, events, None).offset == s.offset
    decreases |events|
  {
    if events != [] {
      NoImageNoPan(Step(s, events[0], None), events[1..]);
    }
  }

  /** Events other than mouse-down keep the offset's travel equal to the pointer's:
      the difference between offset and anchor never changes, so after the
      last accepted move to x the offset is the old offset plus the travel
      from the old anchor to x. */
  lemma {:induction false} PanFollowsPointer(s: DragState, events: seq<Event>, bound: Option<real>)
    requires forall i :: 0 <= i < |events| ==> !events[i].MouseDown?
    ensures var r := Run(s, events, bound);
            r.offset - r.anchor == s.offset - s.anchor
    decreases |events|
  {
    if events != [] {
      PanFollowsPointer(Step(s, events[0], bound), events[1..], bound);
    }
  }

  /** A rejected move leaves no trace: the next move to x' is measured
      from the old anchor, and is accepted exactly when the old offset plus
      the travel from the old anchor to x' is within the bound. */
  lemma RejectedMoveIsForgotten(s: DragState, x: real, x': real, bound: Option<real>)
    requires s.dragging && bound.Some?
    requires !InBounds(s.offset + (x - s.anchor), bound.value)
    ensures Move(s, x, bound) == s
    ensures var proposed := s.offset + (x' - s.anchor);
            Move(Move(s, x, bound), x', bound)
              == if InBounds(proposed, bound.value) then DragState(true, x', proposed) else s
  {
  }

  /** Dragging 50 units right from rest with bound 300 pans by 50. */
  lemma ExampleAcceptedDrag()
    ensures var s := Run(Rest, [MouseDown(100.0), MouseMove(150.0)], Some(300.0));
            s == DragState(true, 150.0, 50.0)
  {
  }

  /** A move past the bound is rejected: offset and anchor stay. */
  lemma ExampleRejectedDrag()
    ensures var s := Run(Rest, [MouseDown(100.0), MouseMove(150.0), MouseMove(500.0)], Some(300.0));
            s == DragState(true, 150.0, 50.0)
  {
  }
}
