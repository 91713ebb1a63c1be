/**
 * The xdg toplevel handler of the generic event loop: close requests and
 * configures from the compositor, turned into window events.
 */
module XdgWindow {
  import opened Wrappers
  import opened Numeric
  import opened Protocol
  import E = WaylandEvent
  import WS = WinitState
  import opened SctkRegistry

  /** The window events of one configure, each tagged with the window's surface. */
  function Tagged(vs: seq<WindowEventVariant>, surface: ObjectId): (r: seq<SctkEvent>)
    ensures |r| == |vs|
    ensures forall k :: 0 <= k < |vs| ==> r[k] == WindowEvent(vs[k], surface)
  {
    seq(|vs|, k requires 0 <= k < |vs| => WindowEvent(vs[k], surface))
  }

  /**
   * What a configure does to a window: a state change is reported when the
   * state differs from the last configure's (always on the first), then a
   * capability change likewise; the size is updated to the configured one;
   * the configure is recorded as the last one; and finally a `Configure`
   * event carries the new current size and whether this was the first.
   */
  function ConfigureWindow(w: WS.Window, c: E.WindowConfigure): (r: (WS.Window, seq<WindowEventVariant>, seq<Request>))
    ensures var (sized, reqs) := WS.UpdateSize(w, c.newSize.0, c.newSize.1);
      r.0 == sized.(lastConfigure := Some(c)) && r.2 == reqs
    ensures |r.1| == (if w.lastConfigure.None? || w.lastConfigure.value.state != c.state then 1 else 0)
                     + (if w.lastConfigure.None? || w.lastConfigure.value.capabilities != c.capabilities then 1 else 0) + 1
    ensures r.1[|r.1| - 1] == Configure(r.0.currentSize, c, w.surface, w.lastConfigure.None?)
    ensures StateChanged(c.state) in r.1 <==> w.lastConfigure.None? || w.lastConfigure.value.state != c.state
    ensures WmCapabilities(c.capabilities) in r.1 <==>
              w.lastConfigure.None? || w.lastConfigure.value.capabilities != c.capabilities
    ensures forall k :: 0 <= k < |r.1| - 1 ==> r.1[k] == StateChanged(c.state) || r.1[k] == WmCapabilities(c.capabilities)
    ensures |r.1| == 3 ==> r.1[0] == StateChanged(c.state)
  {
    var last := w.lastConfigure;
    var stateEvents := if last.None? || last.value.state != c.state then [StateChanged(c.state)] else [];
    var capsEvents := if last.None? || last.value.capabilities != c.capabilities then [WmCapabilities(c.capabilities)] else [];
    var (sized, reqs) := WS.UpdateSize(w, c.newSize.0, c.newSize.1);
    (sized.(lastConfigure := Some(c)),
     stateEvents + capsEvents + [Configure(sized.currentSize, c, w.surface, last.None?)],
     reqs)
  }

  /** The first configure of a window reports its state and capabilities and is tagged first. */
  lemma FirstConfigureReportsEverything(w: WS.Window, c: E.WindowConfigure)
    requires w.lastConfigure.None?
    ensures var r := ConfigureWindow(w, c);
      r.1 == [StateChanged(c.state), WmCapabilities(c.capabilities), Configure(r.0.currentSize, c, w.surface, true)]
  {
  }

  /**
   * Receiving the same configure again reports only the configure, tagged
   * not first, and changes nothing else: the size is already the configured
   * one, so no request is sent.
   */
  lemma RepeatedConfigureIsQuiet(w: WS.Window, c: E.WindowConfigure)
    ensures var once := ConfigureWindow(w, c).0;
      var twice := ConfigureWindow(once, c);
      twice == (once, [Configure(once.currentSize, c, w.surface, false)], [])
  {
    var once := ConfigureWindow(w, c).0;
    var again := WS.UpdateSize(once, c.newSize.0, c.newSize.1);
    assert once.currentSize == (c.newSize.0.GetOr(w.currentSize.0), c.newSize.1.GetOr(w.currentSize.1));
    assert again.0 == once;
    assert again.1 == [];
    var twice := ConfigureWindow(once, c);
    assert twice.0 == once;
    assert twice.2 == [];
    assert twice.1 == [Configure(once.currentSize, c, w.surface, false)];
  }

  /** `request_close`: a close request for a known window reports exactly one `Close`; an unknown one is ignored. */
  method RequestClose(st: SctkState, surface: ObjectId)
    modifies st
    ensures old(st.WindowIndex(surface)).None? ==> st.Snapshot() == old(st.Snapshot())
    ensures old(st.WindowIndex(surface)).Some? ==>
      st.Snapshot() == old(st.Snapshot()).(sctkEvents := old(st.sctkEvents) + [WindowEvent(Close, surface)])
    ensures st.requests == old(st.requests)
  {
    var i := st.WindowIndex(surface);
    if i.None? {
      return;
    }
    st.sctkEvents := st.sctkEvents + [WindowEvent(Close, st.windows[i.value].surface)];
  }

  /**
   * `configure`: for a known window, the events of `ConfigureWindow` are
   * queued in order, the window is replaced by its configured self, one frame
   * callback at time 0 is queued, and the size requests are sent. A configure
   * for an unknown window changes nothing.
   */
  method ConfigureToplevel(st: SctkState, surface: ObjectId, c: E.WindowConfigure)
    modifies st
    ensures old(st.WindowIndex(surface)).None? ==> st.Snapshot() == old(st.Snapshot()) && st.requests == old(st.requests)
    ensures old(st.WindowIndex(surface)).Some? ==>
      var i := old(st.WindowIndex(surface)).value;
      var (w, events, reqs) := ConfigureWindow(old(st.windows[i]), c);
      && st.Snapshot() == old(st.Snapshot()).(
           windows := old(st.windows)[i := w],
           sctkEvents := old(st.sctkEvents) + Tagged(events, surface),
           frameEvents := old(st.frameEvents) + [(surface, 0)])
      && st.requests == old(st.requests) + reqs
  {
    var found := st.WindowIndex(surface);
    if found.None? {
      return;
    }
    var i := found.value;
    var w := st.windows[i];
    var events := ConfigureEvents(w, c);
    var (sized, reqs) := WS.UpdateSize(w, c.newSize.0, c.newSize.1);
    st.windows := st.windows[i := sized.(lastConfigure := Some(c))];
    st.sctkEvents := st.sctkEvents + events;
    st.frameEvents := st.frameEvents + [(w.surface, 0)];
    st.requests := st.requests + reqs;
  }

  /**
   * The events one configure queues for window `w`, in the order the handler
   * pushes them: state change, capability change, configure.
   */
  method ConfigureEvents(w: WS.Window, c: E.WindowConfigure) returns (events: seq<SctkEvent>)
    ensures events == Tagged(ConfigureWindow(w, c).1, w.surface)
  {
    events := [];
    ghost var emitted: seq<WindowEventVariant> := [];
    if w.lastConfigure.None? || w.lastConfigure.value.state != c.state {
      events := events + [WindowEvent(StateChanged(c.state), w.surface)];
      emitted := emitted + [StateChanged(c.state)];
    }
    if w.lastConfigure.None? || w.lastConfigure.value.capabilities != c.capabilities {
      events := events + [WindowEvent(WmCapabilities(c.capabilities), w.surface)];
      emitted := emitted + [WmCapabilities(c.capabilities)];
    }
    var sized := WS.UpdateSize(w, c.newSize.0, c.newSize.1).0;
    var first := w.lastConfigure.None?;
    events := events + [WindowEvent(Configure(sized.currentSize, c, w.surface, first), w.surface)];
    emitted := emitted + [Configure(sized.currentSize, c, w.surface, first)];
    assert emitted == ConfigureWindow(w, c).1;
    assert events == Tagged(emitted, w.surface);
  }
}
