/**
 * Pointer frames: resize-border hit-testing on resizable windows, cursor
 * arbitration, forwarding of pointer events for the first seat, and per-seat
 * focus and press tracking.
 */
module Pointer {
  import opened Wrappers
  import opened Numeric
  import opened Seqs
  import opened Protocol
  import opened WinitState

  /** `linux/input-event-codes.h` button codes. */
  const BTN_LEFT: u32 := 0x110
  const BTN_RIGHT: u32 := 0x111
  const BTN_MIDDLE: u32 := 0x112
  const BTN_SIDE: u32 := 0x113
  const BTN_EXTRA: u32 := 0x114
  const BTN_FORWARD: u32 := 0x115
  const BTN_BACK: u32 := 0x116

  datatype AxisScroll = AxisScroll(absolute: real, discrete: int, stop: bool)

  datatype PointerEventKind =
    | Enter(serial: u32)
    | Leave(serial: u32)
    | Motion(time: u32)
    | Press(time: u32, button: u32, serial: u32)
    | Release(time: u32, button: u32, serial: u32)
    | Axis(time: u32, horizontal: AxisScroll, vertical: AxisScroll, source: nat)

  /** One event of a pointer frame, at a surface-local position. */
  datatype PointerEvent = PointerEvent(surface: ObjectId, x: real, y: real, kind: PointerEventKind)

  /**
   * Which resize edge the point `(x, y)` is on, for a window of the given size
   * and border width: corners before sides, in the order top-left,
   * bottom-left, top-right, bottom-right, left, right, top, bottom.
   */
  function ClassifyEdge(x: real, y: real, width: real, height: real, border: real): (r: ResizeEdge)
    ensures r == NoEdge <==> !(x < border) && !(y < border) && !(x > width - border) && !(y > height - border)
    ensures r == TopLeft <==> x < border && y < border
    ensures r == Left <==> x < border && !(y < border) && !(y > height - border)
    ensures r == Right <==> !(x < border) && x > width - border && !(y < border) && !(y > height - border)
    ensures r == ResizeEdge.Top <==> y < border && !(x < border) && !(x > width - border)
    ensures r == ResizeEdge.Bottom <==> y > height - border && !(y < border) && !(x < border) && !(x > width - border)
    ensures r == BottomLeft <==> x < border && !(y < border) && y > height - border
    ensures r == TopRight <==> !(x < border) && x > width - border && y < border
    ensures r == BottomRight <==> !(x < border) && x > width - border && !(y < border) && y > height - border
  {
    var left, top, right, bottom := x < border, y < border, x > width - border, y > height - border;
    if left && top then TopLeft
    else if left && bottom then BottomLeft
    else if right && top then TopRight
    else if right && bottom then BottomRight
    else if left then Left
    else if right then Right
    else if top then ResizeEdge.Top
    else if bottom then ResizeEdge.Bottom
    else NoEdge
  }

  /** The resize cursor of each edge (`NoEdge` is never asked for). */
  function EdgeIcon(edge: ResizeEdge): (icon: CursorIcon)
    requires edge != NoEdge
    ensures icon != DefaultCursor && !icon.OtherIcon?
    ensures edge == ResizeEdge.Top ==> icon == NResize
    ensures edge == ResizeEdge.Bottom ==> icon == SResize
    ensures edge == Left ==> icon == WResize
    ensures edge == Right ==> icon == EResize
    ensures edge == TopLeft ==> icon == NwResize
    ensures edge == BottomLeft ==> icon == SwResize
    ensures edge == TopRight ==> icon == NeResize
    ensures edge == BottomRight ==> icon == SeResize
  {
    match edge
    case Top => NResize
    case Bottom => SResize
    case Left => WResize
    case TopLeft => NwResize
    case BottomLeft => SwResize
    case Right => EResize
    case TopRight => NeResize
    case BottomRight => SeResize
  }

  /** Different edges show different cursors. */
  lemma EdgeIconInjective(a: ResizeEdge, b: ResizeEdge)
    requires a != NoEdge && b != NoEdge && EdgeIcon(a) == EdgeIcon(b)
    ensures a == b
  {
  }

  /**
   * `wayland_button_to_winit`: the named buttons by their codes, both side
   * buttons as back and forward, anything else by its code truncated to 16
   * bits.
   */
  function ButtonToWinit(button: u32): (b: MouseButton)
    ensures b == LeftButton <==> button == BTN_LEFT
    ensures b == RightButton <==> button == BTN_RIGHT
    ensures b == MiddleButton <==> button == BTN_MIDDLE
    ensures b == BackButton <==> button == BTN_BACK || button == BTN_SIDE
    ensures b == ForwardButton <==> button == BTN_FORWARD || button == BTN_EXTRA
    ensures b.OtherButton? ==> b.code == button % U16_LIMIT
  {
    if button == BTN_LEFT then LeftButton
    else if button == BTN_RIGHT then RightButton
    else if button == BTN_MIDDLE then MiddleButton
    else if button == BTN_BACK || button == BTN_SIDE then BackButton
    else if button == BTN_FORWARD || button == BTN_EXTRA then ForwardButton
    else OtherButton(button % U16_LIMIT)
  }

  /** The index of the first window on `surface`. */
  function FirstWindowOn(windows: seq<Window>, surface: ObjectId): Option<nat>
  {
    FirstIndex(windows, (w: Window) => w.surface == surface)
  }

  /** The edge of a resizable window the event is on, from its current size and border width. */
  function EdgeOf(w: Window, e: PointerEvent): ResizeEdge
    requires w.resizable.Some?
  {
    ClassifyEdge(e.x, e.y, w.currentSize.0 as real, w.currentSize.1 as real, w.resizable.value)
  }

  /**
   * The resize edge under the event: only the first window on the event's
   * surface is considered, and only when it is resizable.
   */
  function EdgeUnder(windows: seq<Window>, e: PointerEvent): (r: Option<(ResizeEdge, Window)>)
    ensures var i := FirstWindowOn(windows, e.surface);
      r.Some? <==> i.Some? && windows[i.value].resizable.Some? && EdgeOf(windows[i.value], e) != NoEdge
    ensures r.Some? ==>
      var i := FirstWindowOn(windows, e.surface).value;
      r.value == (EdgeOf(windows[i], e), windows[i])
    ensures r.Some? ==> r.value.0 != NoEdge && r.value.1.surface == e.surface && r.value.1.resizable.Some?
  {
    match FirstWindowOn(windows, e.surface)
    case None => None
    case Some(i) =>
      var w := windows[i];
      if w.resizable.None? then None
      else
        var edge := EdgeOf(w, e);
        if edge == NoEdge then None else Some((edge, w))
  }

  /** The winit event a non-motion pointer event becomes. */
  function WinitFor(e: PointerEvent): (r: WinitEvent)
    ensures e.kind.Enter? <==> r == CursorEntered
    ensures e.kind.Leave? <==> r == CursorLeft
    ensures e.kind.Press? ==> r == MouseInput(true, ButtonToWinit(e.kind.button))
    ensures e.kind.Release? ==> r == MouseInput(false, ButtonToWinit(e.kind.button))
    ensures e.kind.Motion? <==> r == CursorMoved(e.x, e.y)
    ensures e.kind.Axis? ==> r.MouseWheel? && r.ended == e.kind.horizontal.stop
    ensures e.kind.Axis? && e.kind.horizontal.discrete > 0 ==>
              r.delta == LineDelta(e.kind.horizontal.discrete as real, e.kind.vertical.discrete as real)
    ensures e.kind.Axis? && e.kind.horizontal.discrete <= 0 ==>
              r.delta == PixelDelta(e.kind.horizontal.absolute, e.kind.vertical.absolute)
  {
    match e.kind
    case Enter(_) => CursorEntered
    case Leave(_) => CursorLeft
    case Motion(_) => CursorMoved(e.x, e.y)
    case Press(_, button, _) => MouseInput(true, ButtonToWinit(button))
    case Release(_, button, _) => MouseInput(false, ButtonToWinit(button))
    case Axis(_, h, v, _) =>
      MouseWheel(if h.discrete > 0 then LineDelta(h.discrete as real, v.discrete as real) else PixelDelta(h.absolute, v.absolute),
                 h.stop)
  }

  /** What the first seat forwards for an event: motion as a pointer event, the rest as winit events on the surface. */
  function ForwardEvent(pointer: ObjectId, seat: ObjectId, e: PointerEvent): (r: SctkEvent)
    ensures e.kind.Motion? ==> r == PointerMotion(e.surface, e.x, e.y, e.kind.time, pointer, seat)
    ensures !e.kind.Motion? ==> r == Winit(e.surface, WinitFor(e))
  {
    if e.kind.Motion? then PointerMotion(e.surface, e.x, e.y, e.kind.time, pointer, seat)
    else Winit(e.surface, WinitFor(e))
  }

  /** The focus and press tracking every seat does: enter focuses, leave unfocuses and forgets the icon, a press is remembered. */
  function Track(s: Seat, e: PointerEvent): (r: Seat)
    ensures e.kind.Enter? ==> r == s.(ptrFocus := Some(e.surface))
    ensures e.kind.Leave? ==> r == s.(ptrFocus := None, activeIcon := None)
    ensures e.kind.Press? ==> r == s.(lastPtrPress := Some(PointerPress(e.kind.time, e.kind.button, e.kind.serial)))
    ensures !e.kind.Enter? && !e.kind.Leave? && !e.kind.Press? ==> r == s
  {
    match e.kind
    case Enter(_) => s.(ptrFocus := Some(e.surface))
    case Leave(_) => s.(ptrFocus := None, activeIcon := None)
    case Press(time, button, serial) => s.(lastPtrPress := Some(PointerPress(time, button, serial)))
    case _ => s
  }

  /** The cursor is set to `icon` unless it is already the active one. */
  function ShowIcon(s: Seat, icon: CursorIcon): (r: (Seat, seq<Request>))
    ensures s.activeIcon == Some(icon) ==> r == (s, [])
    ensures s.activeIcon != Some(icon) ==> r == SeatSetCursor(s, icon)
  {
    if s.activeIcon != Some(icon) then SeatSetCursor(s, icon) else (s, [])
  }

  /** Off an edge the cursor goes back to the application's icon, or the default one, when they differ. */
  function RestoreIcon(s: Seat): (r: (Seat, seq<Request>))
    ensures s.activeIcon == s.icon ==> r == (s, [])
    ensures s.activeIcon != s.icon ==> r == SeatSetCursor(s, s.icon.GetOr(DefaultCursor))
  {
    if s.activeIcon != s.icon then SeatSetCursor(s, s.icon.GetOr(DefaultCursor)) else (s, [])
  }

  /** The state a frame carries from event to event: the seat, the events queued and the requests sent. */
  datatype FrameState = FrameState(seat: Seat, queued: seq<SctkEvent>, sent: seq<Request>)

  predicate IsLeftPress(k: PointerEventKind)
  {
    k.Press? && k.button == BTN_LEFT
  }

  /**
   * One event of `pointer_frame`. On a resize edge a left press records the
   * press, starts a resize and ends the frame, and motion shows the edge
   * cursor and ends the frame; any other event shows the edge cursor. Off an
   * edge the application cursor is restored. Then the first seat forwards the
   * event, and every seat tracks it. `stop` says whether the frame ends here.
   */
  function Step(windows: seq<Window>, pointer: ObjectId, active: bool, f: FrameState, e: PointerEvent): (r: (FrameState, bool))
    ensures r.1 <==> EdgeUnder(windows, e).Some? && (IsLeftPress(e.kind) || e.kind.Motion?)
    ensures r.1 ==> r.0.queued == f.queued
    ensures r.1 && e.kind.Motion? ==>
      var shown := ShowIcon(f.seat, EdgeIcon(EdgeUnder(windows, e).value.0));
      r.0.seat == shown.0 && r.0.sent == f.sent + shown.1
    ensures !r.1 && EdgeUnder(windows, e).Some? ==>
      var shown := ShowIcon(f.seat, EdgeIcon(EdgeUnder(windows, e).value.0));
      r.0.seat == Track(shown.0, e) && r.0.sent == f.sent + shown.1
    ensures !r.1 && EdgeUnder(windows, e).None? ==>
      var restored := RestoreIcon(f.seat);
      r.0.seat == Track(restored.0, e) && r.0.sent == f.sent + restored.1
    ensures r.1 && IsLeftPress(e.kind) ==>
      && r.0.seat == f.seat.(lastPtrPress := Some(PointerPress(e.kind.time, e.kind.button, e.kind.serial)))
      && r.0.sent == f.sent + [Resize(EdgeUnder(windows, e).value.1.surface, f.seat.seat, e.kind.serial, EdgeUnder(windows, e).value.0)]
    ensures !r.1 ==> r.0.queued == f.queued + (if active then [ForwardEvent(pointer, f.seat.seat, e)] else [])
    ensures !r.1 && e.kind.Enter? ==> r.0.seat.ptrFocus == Some(e.surface)
    ensures !r.1 && e.kind.Leave? ==> r.0.seat.ptrFocus.None? && r.0.seat.activeIcon.None?
    ensures !r.1 && e.kind.Press? ==> r.0.seat.lastPtrPress == Some(PointerPress(e.kind.time, e.kind.button, e.kind.serial))
    ensures r.0.seat.seat == f.seat.seat && r.0.seat.ptr == f.seat.ptr && r.0.seat.icon == f.seat.icon
  {
    var under := EdgeUnder(windows, e);
    if under.Some? && IsLeftPress(e.kind) then
      var (edge, w) := under.value;
      (FrameState(f.seat.(lastPtrPress := Some(PointerPress(e.kind.time, e.kind.button, e.kind.serial))),
                  f.queued, f.sent + [Resize(w.surface, f.seat.seat, e.kind.serial, edge)]), true)
    else if under.Some? && e.kind.Motion? then
      var (seat, reqs) := ShowIcon(f.seat, EdgeIcon(under.value.0));
      (FrameState(seat, f.queued, f.sent + reqs), true)
    else
      var (seat, reqs) := if under.Some? then ShowIcon(f.seat, EdgeIcon(under.value.0)) else RestoreIcon(f.seat);
      var queued := f.queued + (if active then [ForwardEvent(pointer, f.seat.seat, e)] else []);
      (FrameState(Track(seat, e), queued, f.sent + reqs), false)
  }

  /** The events `es` run one after another from `f`, stopping at the first that ends the frame. */
  function Run(windows: seq<Window>, pointer: ObjectId, active: bool, f: FrameState, es: seq<PointerEvent>): (FrameState, bool)
    decreases |es|
  {
    if es == [] then (f, false)
    else
      var (g, stopped) := Run(windows, pointer, active, f, es[..|es| - 1]);
      if stopped then (g, true) else Step(windows, pointer, active, g, es[|es| - 1])
  }

  /** Once the frame has ended, the events after it are not looked at. */
  lemma {:induction false} RunIgnoresRest(windows: seq<Window>, pointer: ObjectId, active: bool, f: FrameState,
                                          es: seq<PointerEvent>, rest: seq<PointerEvent>)
    requires Run(windows, pointer, active, f, es).1
    ensures Run(windows, pointer, active, f, es + rest) == Run(windows, pointer, active, f, es)
    decreases |rest|
  {
    if rest != [] {
      var shorter := rest[..|rest| - 1];
      assert (es + rest)[..|es + rest| - 1] == es + shorter;
      RunIgnoresRest(windows, pointer, active, f, es, shorter);
    } else {
      assert es + rest == es;
    }
  }

  /** A seat other than the first forwards nothing, whatever the frame holds. */
  lemma {:induction false} InactiveSeatQueuesNothing(windows: seq<Window>, pointer: ObjectId, f: FrameState, es: seq<PointerEvent>)
    ensures Run(windows, pointer, false, f, es).0.queued == f.queued
    decreases |es|
  {
    if es != [] {
      InactiveSeatQueuesNothing(windows, pointer, f, es[..|es| - 1]);
    }
  }

  /** The first seat forwards at most one event per pointer event, and only events of its own frame. */
  lemma {:induction false} ActiveSeatQueuesAtMostOnePerEvent(windows: seq<Window>, pointer: ObjectId, f: FrameState, es: seq<PointerEvent>)
    ensures var g := Run(windows, pointer, true, f, es).0;
      |f.queued| <= |g.queued| <= |f.queued| + |es| && g.queued[..|f.queued|] == f.queued
    decreases |es|
  {
    if es != [] {
      ActiveSeatQueuesAtMostOnePerEvent(windows, pointer, f, es[..|es| - 1]);
    }
  }

  /** The index of the first seat whose pointer is `pointer`. */
  function SeatOf(seats: seq<Seat>, pointer: ObjectId): Option<nat>
  {
    FirstIndex(seats, (s: Seat) => s.ptr == Some(pointer))
  }

  /** Running one more event after a frame that has not ended is one `Step`. */
  lemma RunSnoc(windows: seq<Window>, pointer: ObjectId, active: bool, f: FrameState, es: seq<PointerEvent>, k: nat)
    requires k < |es| && !Run(windows, pointer, active, f, es[..k]).1
    ensures Run(windows, pointer, active, f, es[..k + 1]) == Step(windows, pointer, active, Run(windows, pointer, active, f, es[..k]).0, es[k])
  {
    assert es[..k + 1][..k] == es[..k];
  }

  /** A frame that ends at event `k` ends the whole run there. */
  lemma RunEndsAt(windows: seq<Window>, pointer: ObjectId, active: bool, f: FrameState, es: seq<PointerEvent>, k: nat)
    requires k < |es| && Run(windows, pointer, active, f, es[..k + 1]).1
    ensures Run(windows, pointer, active, f, es) == Run(windows, pointer, active, f, es[..k + 1])
  {
    RunIgnoresRest(windows, pointer, active, f, es[..k + 1], es[k + 1..]);
    assert es[..k + 1] + es[k + 1..] == es;
  }

  /** The events of one frame run in order from `init`, up to the one that ends the frame. */
  method RunFrame(windows: seq<Window>, pointer: ObjectId, active: bool, init: FrameState, events: seq<PointerEvent>)
    returns (cur: FrameState)
    ensures cur == Run(windows, pointer, active, init, events).0
  {
    cur := init;
    var k := 0;
    while k < |events|
      invariant 0 <= k <= |events|
      invariant Run(windows, pointer, active, init, events[..k]) == (cur, false)
    {
      RunSnoc(windows, pointer, active, init, events, k);
      var r := Step(windows, pointer, active, cur, events[k]);
      cur := r.0;
      if r.1 {
        RunEndsAt(windows, pointer, active, init, events, k);
        return;
      }
      k := k + 1;
    }
    assert events[..k] == events;
  }

  /**
   * `pointer_frame`: a frame from a pointer no seat owns is ignored. Otherwise
   * the events are handled in order for the owning seat, which forwards them
   * only when it is the first seat, until an event ends the frame.
   */
  method PointerFrame(st: WaylandState, pointer: ObjectId, events: seq<PointerEvent>)
    modifies st
    ensures SeatOf(old(st.seats), pointer).None? ==> st.Snapshot() == old(st.Snapshot()) && st.requests == old(st.requests)
    ensures SeatOf(old(st.seats), pointer).Some? ==>
      var i := SeatOf(old(st.seats), pointer).value;
      var g := Run(old(st.windows), pointer, i == 0, FrameState(old(st.seats[i]), [], []), events).0;
      && st.Snapshot() == old(st.Snapshot()).(seats := old(st.seats)[i := g.seat], sctkEvents := old(st.sctkEvents) + g.queued)
      && st.requests == old(st.requests) + g.sent
  {
    var found := SeatOf(st.seats, pointer);
    if found.None? {
      return;
    }
    var i := found.value;
    var cur := RunFrame(st.windows, pointer, i == 0, FrameState(st.seats[i], [], []), events);
    st.seats := st.seats[i := cur.seat];
    st.sctkEvents := st.sctkEvents + cur.queued;
    st.requests := st.requests + cur.sent;
  }
}
