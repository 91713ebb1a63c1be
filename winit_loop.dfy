/**
 * One wake-up of the Wayland event-loop thread: the handler for messages from
 * the application side, the start-up subcompositor announcement, and one
 * iteration of the dispatch loop that forwards queued events and asks for
 * redraws.
 */
module WinitLoop {
  import opened Wrappers
  import opened Protocol
  import opened WinitState

  /** Messages the application side sends to the event-loop thread. */
  datatype Message =
    | ActionMessage(action: Action)
    | SetCursorMessage(icon: CursorIcon)
    | RequestRedrawMessage(surface: ObjectId)
    | PrePresentNotifyMessage(surface: ObjectId)
    | ReadyMessage

  /**
   * The message handler: actions go to `handle_action` and have the effect
   * `Handled` gives them; `SetCursor` stores the icon on the first seat and
   * shows it there; `RequestRedraw` and `PrePresentNotify` take the surface
   * out of and into the requested-frame set; `Ready` marks the application
   * ready.
   */
  method HandleMessage(st: WaylandState, m: Message, fault: ToolkitFault) returns (outcome: Outcome)
    modifies st
    ensures !m.ActionMessage? ==> outcome == Done
    ensures m.ActionMessage? ==> (outcome == Panicked <==> old(st.PanicsOn(m.action)))
    ensures m.ActionMessage? ==> st.Handled(m.action, fault, outcome)
    ensures m.SetCursorMessage? && |old(st.seats)| == 0 ==> st.Snapshot() == old(st.Snapshot()) && st.requests == old(st.requests)
    ensures m.SetCursorMessage? && |old(st.seats)| > 0 ==>
      var (seat, reqs) := SeatSetCursor(old(st.seats[0]).(icon := Some(m.icon)), m.icon);
      && st.Snapshot() == old(st.Snapshot()).(seats := old(st.seats)[0 := seat])
      && st.requests == old(st.requests) + reqs
    ensures m.RequestRedrawMessage? ==>
      st.Snapshot() == old(st.Snapshot()).(requestedFrame := old(st.requestedFrame) - {m.surface}) && st.requests == old(st.requests)
    ensures m.PrePresentNotifyMessage? ==>
      st.Snapshot() == old(st.Snapshot()).(requestedFrame := old(st.requestedFrame) + {m.surface}) && st.requests == old(st.requests)
    ensures m.ReadyMessage? ==> st.Snapshot() == old(st.Snapshot()).(ready := true) && st.requests == old(st.requests)
  {
    outcome := Done;
    match m {
      case ActionMessage(a) =>
        outcome := st.HandleAction(a, fault);
      case SetCursorMessage(icon) =>
        if |st.seats| > 0 {
          var (seat, reqs) := SeatSetCursor(st.seats[0].(icon := Some(icon)), icon);
          st.seats := st.seats[0 := seat];
          st.requests := st.requests + reqs;
        }
      case RequestRedrawMessage(surface) =>
        st.requestedFrame := st.requestedFrame - {surface};
      case PrePresentNotifyMessage(surface) =>
        st.requestedFrame := st.requestedFrame + {surface};
      case ReadyMessage =>
        st.ready := true;
    }
  }

  /** `SetCursor` touches the first seat only: every other seat is as it was. */
  lemma SetCursorOnlyFirstSeat(seats: seq<Seat>, icon: CursorIcon, k: nat)
    requires 0 < k < |seats|
    ensures (seats[0 := SeatSetCursor(seats[0].(icon := Some(icon)), icon).0])[k] == seats[k]
  {
  }

  /**
   * Start-up: the subsurface machinery is announced when both
   * `wl_subcompositor` and `wp_viewporter` could be bound, and not otherwise.
   */
  method AnnounceSubcompositor(st: WaylandState, hasSubcompositor: bool, hasViewporterGlobal: bool)
    modifies st
    ensures st.Snapshot() == old(st.Snapshot()).(
      sent := old(st.sent) + (if hasSubcompositor && hasViewporterGlobal then [PlatformSpecific(Subcompositor)] else []))
    ensures st.requests == old(st.requests)
  {
    if hasSubcompositor && hasViewporterGlobal {
      st.sent := st.sent + [PlatformSpecific(Subcompositor)];
    }
  }

  /** How one queued event goes out: winit events as winit messages, everything else as platform-specific. */
  function ForwardOf(e: SctkEvent): (c: Control)
    ensures c.WinitControl? <==> e.Winit?
    ensures e.Winit? ==> c == WinitControl(e.window, e.event)
    ensures !e.Winit? ==> c == PlatformSpecific(e)
  {
    if e.Winit? then WinitControl(e.window, e.event) else PlatformSpecific(e)
  }

  /** The messages the drained queue `es` becomes: one per event, in order. */
  function Forwarded(es: seq<SctkEvent>): (r: seq<Control>)
    ensures |r| == |es|
    ensures forall i :: 0 <= i < |es| ==> r[i] == ForwardOf(es[i])
  {
    if es == [] then [] else [ForwardOf(es[0])] + Forwarded(es[1..])
  }

  lemma {:induction false} ForwardedAppend(es: seq<SctkEvent>, e: SctkEvent)
    ensures Forwarded(es + [e]) == Forwarded(es) + [ForwardOf(e)]
  {
    var l, r := Forwarded(es + [e]), Forwarded(es) + [ForwardOf(e)];
    assert |l| == |r|;
    forall i | 0 <= i < |l|
      ensures l[i] == r[i]
    {
      if i < |es| {
        assert (es + [e])[i] == es[i];
      }
    }
  }

  /** Drains the queue: computes the messages for `events`, one after the other. */
  method ForwardBatch(events: seq<SctkEvent>) returns (out: seq<Control>)
    ensures out == Forwarded(events)
  {
    out := [];
    var i := 0;
    while i < |events|
      invariant 0 <= i <= |events|
      invariant out == Forwarded(events[..i])
    {
      ForwardedAppend(events[..i], events[i]);
      assert events[..i + 1] == events[..i] + [events[i]];
      out := out + [ForwardOf(events[i])];
      i := i + 1;
    }
    assert events[..i] == events;
  }

  /** The surfaces of the layer surfaces, popups and lock surfaces, in that order. */
  function RedrawCandidates(layers: seq<LayerSurface>, popups: seq<Popup>, locks: seq<LockSurface>): (r: seq<ObjectId>)
    ensures |r| == |layers| + |popups| + |locks|
    ensures forall i :: 0 <= i < |layers| ==> r[i] == layers[i].surface
    ensures forall i :: 0 <= i < |popups| ==> r[|layers| + i] == popups[i].surface
    ensures forall i :: 0 <= i < |locks| ==> r[|layers| + |popups| + i] == locks[i].surface
  {
    seq(|layers|, i requires 0 <= i < |layers| => layers[i].surface)
    + seq(|popups|, i requires 0 <= i < |popups| => popups[i].surface)
    + seq(|locks|, i requires 0 <= i < |locks| => locks[i].surface)
  }

  /** The redraw messages for `surfaces`: one for each surface not waiting on a frame it asked for. */
  function Redraws(surfaces: seq<ObjectId>, requested: set<ObjectId>): (r: seq<Control>)
    ensures |r| <= |surfaces|
    ensures forall c :: c in r ==> c.WinitControl? && c.event == RedrawRequested && c.window in surfaces && c.window !in requested
    ensures forall s :: s in surfaces && s !in requested ==> WinitControl(s, RedrawRequested) in r
  {
    if surfaces == [] then []
    else
      (if surfaces[0] in requested then [] else [WinitControl(surfaces[0], RedrawRequested)])
      + Redraws(surfaces[1..], requested)
  }

  lemma {:induction false} RedrawsAppend(surfaces: seq<ObjectId>, s: ObjectId, requested: set<ObjectId>)
    ensures Redraws(surfaces + [s], requested)
            == Redraws(surfaces, requested) + (if s in requested then [] else [WinitControl(s, RedrawRequested)])
    decreases |surfaces|
  {
    if surfaces == [] {
      assert [s][1..] == [];
    } else {
      assert (surfaces + [s])[1..] == surfaces[1..] + [s];
      RedrawsAppend(surfaces[1..], s, requested);
    }
  }

  /** The redraw pass: one redraw message per candidate surface whose frame was not requested. */
  method RedrawBatch(surfaces: seq<ObjectId>, requested: set<ObjectId>) returns (out: seq<Control>)
    ensures out == Redraws(surfaces, requested)
  {
    out := [];
    var i := 0;
    while i < |surfaces|
      invariant 0 <= i <= |surfaces|
      invariant out == Redraws(surfaces[..i], requested)
    {
      RedrawsAppend(surfaces[..i], surfaces[i], requested);
      assert surfaces[..i + 1] == surfaces[..i] + [surfaces[i]];
      if surfaces[i] !in requested {
        out := out + [WinitControl(surfaces[i], RedrawRequested)];
      }
      i := i + 1;
    }
    assert surfaces[..i] == surfaces;
  }

  /** A surface that is only a window's is never sent a redraw by the loop. */
  lemma WindowsGetNoRedraw(st: Fields, s: ObjectId)
    requires forall i :: 0 <= i < |st.layerSurfaces| ==> st.layerSurfaces[i].surface != s
    requires forall i :: 0 <= i < |st.popups| ==> st.popups[i].surface != s
    requires forall i :: 0 <= i < |st.lockSurfaces| ==> st.lockSurfaces[i].surface != s
    ensures WinitControl(s, RedrawRequested) !in Redraws(RedrawCandidates(st.layerSurfaces, st.popups, st.lockSurfaces), st.requestedFrame)
  {
    var c := RedrawCandidates(st.layerSurfaces, st.popups, st.lockSurfaces);
    var nl, np := |st.layerSurfaces|, |st.popups|;
    forall k | 0 <= k < |c|
      ensures c[k] != s
    {
      if k < nl {
        assert c[k] == st.layerSurfaces[k].surface;
      } else if k < nl + np {
        assert c[k] == st.popups[k - nl].surface;
      } else {
        assert c[k] == st.lockSurfaces[k - nl - np].surface;
      }
    }
  }

  /**
   * One iteration of the loop. `AboutToWait` is always sent first; while the
   * application is not ready nothing else happens. Otherwise the handlers run
   * (their queued events are `dispatched`); with nothing queued the iteration
   * ends there. Else the queue is drained in order and a redraw is sent for
   * every layer, popup and lock surface whose frame was not requested.
   */
  method Iteration(st: WaylandState, dispatched: seq<SctkEvent>)
    modifies st
    ensures !old(st.ready) ==>
      st.Snapshot() == old(st.Snapshot()).(sent := old(st.sent) + [AboutToWait])
    ensures old(st.ready) && old(st.sctkEvents) + dispatched == [] ==>
      st.Snapshot() == old(st.Snapshot()).(sent := old(st.sent) + [AboutToWait])
    ensures old(st.ready) && old(st.sctkEvents) + dispatched != [] ==>
      st.Snapshot() == old(st.Snapshot()).(
        sctkEvents := [],
        sent := old(st.sent) + [AboutToWait] + Forwarded(old(st.sctkEvents) + dispatched)
                + Redraws(RedrawCandidates(old(st.layerSurfaces), old(st.popups), old(st.lockSurfaces)), old(st.requestedFrame)))
    ensures st.requests == old(st.requests)
  {
    st.sent := st.sent + [AboutToWait];
    if !st.ready {
      return;
    }
    st.sctkEvents := st.sctkEvents + dispatched;
    if st.sctkEvents == [] {
      return;
    }
    var forwarded := ForwardBatch(st.sctkEvents);
    st.sent := st.sent + forwarded;
    st.sctkEvents := [];
    var redraws := RedrawBatch(RedrawCandidates(st.layerSurfaces, st.popups, st.lockSurfaces), st.requestedFrame);
    st.sent := st.sent + redraws;
  }
}
