/** Window events of the Wayland shell and their partial equality. */
module WaylandEvent {
  import opened Wrappers
  import opened Numeric

  /** `WindowState` and `WindowManagerCapabilities` are bit sets; only equality matters here. */
  type WindowState = nat
  type WmCapabilities = nat

  datatype DecorationMode = Client | Server

  /** A toplevel configure: the fields the compositor sends with it. */
  datatype WindowConfigure = WindowConfigure(
    newSize: (Option<NonZeroU32>, Option<NonZeroU32>),
    suggestedBounds: Option<(u32, u32)>,
    decorationMode: DecorationMode,
    state: WindowState,
    capabilities: WmCapabilities)

  datatype WindowEvent =
    | WmCapabilitiesChanged(capabilities: WmCapabilities)
    | State(state: WindowState)
    | Configure(configure: WindowConfigure)

  /** `PartialEq for WindowEvent`. */
  predicate EventEq(a: WindowEvent, b: WindowEvent)
    ensures a == b ==> EventEq(a, b)
    ensures EventEq(a, b) ==> a.WmCapabilitiesChanged? == b.WmCapabilitiesChanged? && a.State? == b.State? && a.Configure? == b.Configure?
  {
    match (a, b)
    case (WmCapabilitiesChanged(x), WmCapabilitiesChanged(y)) => x == y
    case (State(x), State(y)) => x == y
    case (Configure(x), Configure(y)) =>
      x.capabilities == y.capabilities
      && x.state == y.state
      && x.decorationMode == y.decorationMode
      && x.newSize == y.newSize
      && x.suggestedBounds == y.suggestedBounds
    case _ => false
  }

  /**
   * Every field of a configure takes part in the comparison, so the partial
   * equality is exactly structural equality: reflexive, symmetric, transitive,
   * and false across variants.
   */
  lemma EventEqIsEquality(a: WindowEvent, b: WindowEvent)
    ensures EventEq(a, b) <==> a == b
    ensures a.WmCapabilitiesChanged? != b.WmCapabilitiesChanged? ==> !EventEq(a, b)
    ensures a.State? != b.State? ==> !EventEq(a, b)
    ensures a.Configure? != b.Configure? ==> !EventEq(a, b)
  {
    if a.Configure? && b.Configure? && EventEq(a, b) {
      assert a.configure == b.configure;
    }
  }
}
