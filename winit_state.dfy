/**
 * The surface registry of the winit Wayland event loop: windows, layer
 * surfaces, popups and lock surfaces, the seats, and the queues of events
 * the loop forwards.
 */
module WinitState {
  import opened Wrappers
  import opened Numeric
  import opened Seqs
  import opened Protocol
  import W = WindowId
  import E = WaylandEvent
  import RW = RuntimeWindow

  /**
   * The state a surface shares with the window handle the application holds
   * (an `Arc<Mutex<Common>>`): both sides see the same object.
   */
  class Common {
    var fractionalScale: Option<real>
    var hasFocus: bool
    var imePos: (u32, u32)
    var imeSize: (u32, u32)
    var size: (u32, u32)

    /** `Common::default`: no fractional scale, no focus, IME box at the origin, size 1x1. */
    constructor Default()
      ensures fractionalScale.None? && !hasFocus && imePos == (0, 0) && imeSize == (0, 0)
      ensures size == (1, 1)
    {
      fractionalScale := None;
      hasFocus := false;
      imePos := (0, 0);
      imeSize := (0, 0);
      size := (1, 1);
    }

    /** `From<LogicalSize<u32>>`: the default block with the given size. */
    constructor FromSize(width: u32, height: u32)
      ensures fractionalScale.None? && !hasFocus && imePos == (0, 0) && imeSize == (0, 0)
      ensures size == (width, height)
    {
      fractionalScale := None;
      hasFocus := false;
      imePos := (0, 0);
      imeSize := (0, 0);
      size := (width, height);
    }
  }

  datatype KeyPress = KeyPress(key: nat, serial: u32)
  datatype PointerPress = PointerPress(time: u32, button: u32, serial: u32)

  /** A seat: its pointer and keyboard focus, last presses, and cursor icons. */
  datatype Seat = Seat(
    seat: ObjectId,
    kbdFocus: Option<ObjectId>,
    lastKbdPress: Option<KeyPress>,
    ptr: Option<ObjectId>,
    ptrFocus: Option<ObjectId>,
    lastPtrPress: Option<PointerPress>,
    activeIcon: Option<CursorIcon>,
    icon: Option<CursorIcon>)

  /** `SctkSeat::set_cursor`: a seat with a pointer shows the icon and remembers it; one without ignores it. */
  function SeatSetCursor(s: Seat, icon: CursorIcon): (r: (Seat, seq<Request>))
    ensures s.ptr.None? ==> r == (s, [])
    ensures s.ptr.Some? ==> r.0.activeIcon == Some(icon) && r.1 == [SetCursor(s.ptr.value, icon)]
    ensures r.0.(activeIcon := s.activeIcon) == s
  {
    if s.ptr.Some? then (s.(activeIcon := Some(icon)), [SetCursor(s.ptr.value, icon)]) else (s, [])
  }

  /** A toplevel window. */
  datatype Window = Window(
    id: W.Id,
    surface: ObjectId,
    scaleFactor: Option<real>,
    requestedSize: Option<(NonZeroU32, NonZeroU32)>,
    currentSize: (NonZeroU32, NonZeroU32),
    lastConfigure: Option<E.WindowConfigure>,
    resizable: Option<real>,
    fractionalScale: Option<ObjectId>,
    viewport: Option<ObjectId>)

  /** The requests `update_size` sends when the size changes to `(w, h)`. */
  function ResizeRequests(surface: ObjectId, viewport: Option<ObjectId>, w: nat, h: nat): seq<Request>
  {
    [SetWindowGeometry(surface, 0, 0, w, h)] + (if viewport.Some? then [SetDestination(viewport.value, w, h)] else [])
  }

  /**
   * `SctkWindow::update_size`: a missing dimension keeps the current one; an
   * unchanged size sends nothing; otherwise the window geometry, and the
   * viewport destination when there is a viewport, are set to the new size.
   */
  function UpdateSize(w: Window, width: Option<NonZeroU32>, height: Option<NonZeroU32>): (r: (Window, seq<Request>))
    ensures r.0 == w.(currentSize := (width.GetOr(w.currentSize.0), height.GetOr(w.currentSize.1)))
    ensures r.1 == [] <==> r.0.currentSize == w.currentSize
    ensures r.1 != [] ==> r.1 == ResizeRequests(w.surface, w.viewport, r.0.currentSize.0, r.0.currentSize.1)
  {
    var size := (width.GetOr(w.currentSize.0), height.GetOr(w.currentSize.1));
    if w.currentSize == size then (w, [])
    else (w.(currentSize := size), ResizeRequests(w.surface, w.viewport, size.0, size.1))
  }

  /** Updating to the size a window already has changes nothing and sends nothing. */
  lemma UpdateSizeIdempotent(w: Window, width: Option<NonZeroU32>, height: Option<NonZeroU32>)
    ensures UpdateSize(UpdateSize(w, width, height).0, width, height) == (UpdateSize(w, width, height).0, [])
  {
  }

  /** `SctkWindow::set_size`: records the requested size, then updates to it. */
  function SetWindowSize(w: Window, width: NonZeroU32, height: NonZeroU32): (r: (Window, seq<Request>))
    ensures r.0.requestedSize == Some((width, height))
    ensures r.0.currentSize == (width, height)
    ensures r.0.(requestedSize := w.requestedSize, currentSize := w.currentSize) == w
  {
    UpdateSize(w.(requestedSize := Some((width, height))), Some(width), Some(height))
  }

  /** What a layer surface was configured with last. */
  datatype LayerConfigure = LayerConfigure(newSize: (u32, u32))

  /** A layer-shell surface. */
  datatype LayerSurface = LayerSurface(
    id: W.Id,
    surface: ObjectId,
    requestedSize: (Option<u32>, Option<u32>),
    currentSize: Option<(u32, u32)>,
    layer: Layer,
    anchor: Anchor,
    keyboardInteractivity: KeyboardInteractivity,
    margin: Margin,
    exclusiveZone: int,
    lastConfigure: Option<LayerConfigure>,
    fractionalScale: Option<ObjectId>,
    viewport: Option<ObjectId>,
    common: Common)

  /** `SctkLayerSurface::set_size`: records the request and asks for it, a missing dimension as 0. */
  function LayerSetSize(l: LayerSurface, width: Option<u32>, height: Option<u32>): (r: (LayerSurface, seq<Request>))
    ensures r.0 == l.(requestedSize := (width, height))
    ensures r.1 == [SetLayerSize(l.surface, width.GetOr(0), height.GetOr(0))]
  {
    (l.(requestedSize := (width, height)), [SetLayerSize(l.surface, width.GetOr(0), height.GetOr(0))])
  }

  /** `SctkLayerSurface::update_viewport`: the current size becomes `(w, h)` and the viewport follows. */
  function UpdateViewport(l: LayerSurface, w: u32, h: u32): (r: (LayerSurface, seq<Request>))
    ensures r.0 == l.(currentSize := Some((w, h)))
    ensures r.1 == (if l.viewport.Some? then [SetDestination(l.viewport.value, w, h)] else [])
  {
    (l.(currentSize := Some((w, h))), if l.viewport.Some? then [SetDestination(l.viewport.value, w, h)] else [])
  }

  /** `SctkSurface`: the kind of a popup's parent and its surface (`wl_surface()`). */
  datatype SctkSurface = LayerParent(surface: ObjectId) | WindowParent(surface: ObjectId) | PopupParent(surface: ObjectId)

  datatype PopupConfigure = PopupConfigure(x: int, y: int, width: int, height: int)

  datatype PopupData = PopupData(id: W.Id, parent: SctkSurface, toplevel: ObjectId, positionerSize: (u32, u32))

  /** An xdg popup. */
  datatype Popup = Popup(
    surface: ObjectId,
    lastConfigure: Option<PopupConfigure>,
    data: PopupData,
    common: Common,
    fractionalScale: Option<ObjectId>,
    viewport: Option<ObjectId>)

  /** `SctkPopup::set_size`: new geometry and positioner size, then a reposition tagged with `token`. */
  function SetPopupSize(p: Popup, w: u32, h: u32, token: u32): (r: (Popup, seq<Request>))
    ensures r.0 == p.(data := p.data.(positionerSize := (w, h)))
    ensures r.1 == [SetWindowGeometry(p.surface, 0, 0, w, h), SetPositionerSize(p.surface, w, h), Reposition(p.surface, token)]
  {
    (p.(data := p.data.(positionerSize := (w, h))),
     [SetWindowGeometry(p.surface, 0, 0, w, h), SetPositionerSize(p.surface, w, h), Reposition(p.surface, token)])
  }

  /** A session-lock surface. */
  datatype LockSurface = LockSurface(
    id: W.Id,
    surface: ObjectId,
    lastConfigure: Option<(u32, u32)>,
    fractionalScale: Option<ObjectId>,
    viewport: Option<ObjectId>,
    common: Common)

  datatype MouseButton = LeftButton | RightButton | MiddleButton | BackButton | ForwardButton | OtherButton(code: u16)

  datatype ScrollDelta = LineDelta(dx: real, dy: real) | PixelDelta(px: real, py: real)

  /** Window events handed to winit. */
  datatype WinitEvent =
    | CursorEntered
    | CursorLeft
    | CursorMoved(x: real, y: real)
    | MouseInput(pressed: bool, button: MouseButton)
    | MouseWheel(delta: ScrollDelta, ended: bool)
    | RedrawRequested

  /** Events the Wayland handlers produce. */
  datatype SctkEvent =
    | Winit(window: ObjectId, event: WinitEvent)
    | PointerMotion(surface: ObjectId, x: real, y: real, time: u32, pointer: ObjectId, seat: ObjectId)
    | SurfaceScaleFactorChanged(scale: real, surface: ObjectId, id: W.Id)
    | LayerCreated(surface: ObjectId, id: W.Id, common: Common, namespace: string)
    | LayerConfigured(configure: LayerConfigure, surface: ObjectId, first: bool)
    | LayerDone(surface: ObjectId)
    | WindowSize(size: (NonZeroU32, NonZeroU32), surface: ObjectId, first: bool)
    | PopupCreated(surface: ObjectId, id: W.Id, common: Common, toplevel: ObjectId, parent: ObjectId)
    | Subcompositor
    | HandlerEvent(code: nat)

  /** Messages the event loop sends to the application side. */
  datatype Control =
    | AboutToWait
    | WinitControl(window: ObjectId, event: WinitEvent)
    | PlatformSpecific(platformEvent: SctkEvent)

  datatype PopupCreationError = PositionerCreationFailed | ParentMissing | SizeMissing | PopupCreationFailed
  datatype LayerSurfaceCreationError = LayerShellNotSupported | WlSurfaceCreationFailed | LayerSurfaceCreationFailed

  /** Which toolkit call, if any, fails while a popup is created. */
  datatype ToolkitFault = NoFault | PositionerFault | PopupFault

  /** What a popup is created with; the positioner is reduced to its size. */
  datatype PopupSettings = PopupSettings(parent: W.Id, id: W.Id, positionerSize: Option<(u32, u32)>, grab: bool)

  /** What a layer surface is created with. */
  datatype LayerSurfaceSettings = LayerSurfaceSettings(
    id: W.Id,
    layer: Layer,
    keyboardInteractivity: KeyboardInteractivity,
    pointerInteractivity: bool,
    anchor: Anchor,
    output: Option<ObjectId>,
    namespace: string,
    margin: Margin,
    size: Option<(Option<u32>, Option<u32>)>,
    exclusiveZone: int)

  /** What a created popup hands back: its id, parent, toplevel and own surface, and its shared state. */
  datatype PopupHandles = PopupHandles(id: W.Id, parent: ObjectId, toplevel: ObjectId, surface: ObjectId, common: Common)

  /** A requested dimension, defaulting to 1 and never below 1. */
  function AtLeastOne(d: Option<u32>): (r: u32)
    ensures r >= 1
    ensures d.Some? && d.value >= 1 ==> r == d.value
    ensures d.None? || d.value == 0 ==> r == 1
  {
    if d.Some? && d.value >= 1 then d.value else 1
  }

  /**
   * The size a new layer surface asks for: a dimension stretched between two
   * opposite anchors is left to the compositor (`None`); any other defaults to
   * 1 and is at least 1.
   */
  function NormalizeLayerSize(size: Option<(Option<u32>, Option<u32>)>, anchor: Anchor): (r: (Option<u32>, Option<u32>))
    ensures r.1.None? <==> anchor.top && anchor.bottom
    ensures r.0.None? <==> anchor.left && anchor.right
    ensures r.1.Some? ==> r.1.value >= 1 && (size.Some? && size.value.1.Some? && size.value.1.value >= 1 ==> r.1.value == size.value.1.value)
    ensures r.0.Some? ==> r.0.value >= 1 && (size.Some? && size.value.0.Some? && size.value.0.value >= 1 ==> r.0.value == size.value.0.value)
  {
    var (w, h) := size.GetOr((None, None));
    (if anchor.left && anchor.right then None else Some(AtLeastOne(w)),
     if anchor.top && anchor.bottom then None else Some(AtLeastOne(h)))
  }

  /** The serial a popup grab uses: the seat's last pointer press, else its last key press, else 0. */
  function GrabSerial(s: Seat): (r: u32)
    ensures s.lastPtrPress.Some? ==> r == s.lastPtrPress.value.serial
    ensures s.lastPtrPress.None? && s.lastKbdPress.Some? ==> r == s.lastKbdPress.value.serial
    ensures s.lastPtrPress.None? && s.lastKbdPress.None? ==> r == 0
  {
    match s.lastPtrPress
    case Some(p) => p.serial
    case None => if s.lastKbdPress.Some? then s.lastKbdPress.value.serial else 0
  }

  /**
   * The parent of a new popup and the toplevel it belongs to: layer surfaces
   * are searched first, then windows, then popups; a popup parent passes on
   * its own toplevel.
   */
  function ResolveParent(layers: seq<LayerSurface>, windows: seq<Window>, popups: seq<Popup>, parent: W.Id): (r: Option<(SctkSurface, ObjectId)>)
    ensures r.None? <==>
      (forall i :: 0 <= i < |layers| ==> layers[i].id != parent)
      && (forall i :: 0 <= i < |windows| ==> windows[i].id != parent)
      && (forall i :: 0 <= i < |popups| ==> popups[i].data.id != parent)
    ensures r.Some? && r.value.0.LayerParent? ==>
      r.value.1 == r.value.0.surface
      && (exists i :: 0 <= i < |layers| && layers[i].id == parent && layers[i].surface == r.value.1)
    ensures r.Some? && r.value.0.WindowParent? ==>
      r.value.1 == r.value.0.surface
      && (forall i :: 0 <= i < |layers| ==> layers[i].id != parent)
      && (exists i :: 0 <= i < |windows| && windows[i].id == parent && windows[i].surface == r.value.1)
    ensures r.Some? && r.value.0.PopupParent? ==>
      (forall i :: 0 <= i < |layers| ==> layers[i].id != parent)
      && (forall i :: 0 <= i < |windows| ==> windows[i].id != parent)
      && (exists i :: 0 <= i < |popups| && popups[i].data.id == parent
            && popups[i].surface == r.value.0.surface && popups[i].data.toplevel == r.value.1)
  {
    match FirstIndex(layers, (l: LayerSurface) => l.id == parent)
    case Some(i) => Some((LayerParent(layers[i].surface), layers[i].surface))
    case None =>
      match FirstIndex(windows, (w: Window) => w.id == parent)
      case Some(i) => Some((WindowParent(windows[i].surface), windows[i].surface))
      case None =>
        match FirstIndex(popups, (p: Popup) => p.data.id == parent)
        case Some(i) => Some((PopupParent(popups[i].surface), popups[i].data.toplevel))
        case None => None
  }

  /**
   * The viewport and fractional-scale objects a new surface whose id is
   * `surface` gets: each only when its global is bound, numbered after the
   * surface in that order; the third component is the next free id.
   */
  function ScalingObjectIds(surface: ObjectId, viewporter: bool, fractionalScaling: bool): (r: (Option<ObjectId>, Option<ObjectId>, ObjectId))
    ensures r.0.Some? <==> viewporter
    ensures r.1.Some? <==> fractionalScaling
    ensures r.2 > surface
    ensures r.0.Some? ==> surface < r.0.value < r.2
    ensures r.1.Some? ==> surface < r.1.value < r.2
    ensures r.0.Some? && r.1.Some? ==> r.0.value != r.1.value
  {
    var vp := if viewporter then Some(surface + 1) else None;
    var next := if viewporter then surface + 2 else surface + 1;
    var fs := if fractionalScaling then Some(next) else None;
    (vp, fs, if fractionalScaling then next + 1 else next)
  }

  /** The outcome of one action: handled, or the event-loop thread panicked. */
  datatype Outcome = Done | Panicked

  /** The layer properties an action may change one at a time. */
  datatype LayerChange =
    | AnchorTo(anchor: Anchor)
    | ExclusiveZoneTo(zone: int)
    | MarginTo(margin: Margin)
    | InteractivityTo(interactivity: KeyboardInteractivity)
    | LayerTo(layer: Layer)

  /** Layer-surface actions. */
  datatype LayerAction =
    | CreateLayer(builder: LayerSurfaceSettings)
    | ResizeLayer(id: W.Id, width: Option<u32>, height: Option<u32>)
    | DestroyLayer(id: W.Id)
    | ChangeLayer(id: W.Id, change: LayerChange)

  /** Popup actions. */
  datatype PopupAction =
    | NewPopup(settings: PopupSettings)
    | DestroyPopup(id: W.Id)
    | ResizePopup(id: W.Id, width: u32, height: u32)
    | GrabPopup(id: W.Id)

  /** Activation actions. */
  datatype ActivationAction =
    | RequestToken(appId: Option<string>, forWindow: Option<W.Id>)
    | ActivateWindow(window: W.Id, token: string)

  /** Session-lock actions. */
  datatype SessionLockAction =
    | Lock
    | UnlockSession
    | LockSurfaceOn(id: W.Id, output: ObjectId)
    | DestroyLockSurface(id: W.Id)

  /** Everything `handle_action` accepts. */
  datatype Action =
    | OnLayer(layerAction: LayerAction)
    | OnWindow(windowAction: RW.Action)
    | OnPopup(popupAction: PopupAction)
    | OnActivation(activationAction: ActivationAction)
    | OnSessionLock(lockAction: SessionLockAction)

  /**
   * One layer property changed: only that field differs, and the request sets
   * that property on the layer's own surface.
   */
  function ApplyLayerChange(l: LayerSurface, c: LayerChange): (r: (LayerSurface, Request))
    ensures r.0 == l.(anchor := r.0.anchor, exclusiveZone := r.0.exclusiveZone, margin := r.0.margin,
                      keyboardInteractivity := r.0.keyboardInteractivity, layer := r.0.layer)
    ensures c.AnchorTo? ==> r.0.anchor == c.anchor && r.0.(anchor := l.anchor) == l && r.1 == SetAnchor(l.surface, c.anchor)
    ensures c.ExclusiveZoneTo? ==> r.0.exclusiveZone == c.zone && r.0.(exclusiveZone := l.exclusiveZone) == l && r.1 == SetExclusiveZone(l.surface, c.zone)
    ensures c.MarginTo? ==> r.0.margin == c.margin && r.0.(margin := l.margin) == l && r.1 == SetMargin(l.surface, c.margin)
    ensures c.InteractivityTo? ==> r.0.keyboardInteractivity == c.interactivity && r.0.(keyboardInteractivity := l.keyboardInteractivity) == l
                                   && r.1 == SetKeyboardInteractivity(l.surface, c.interactivity)
    ensures c.LayerTo? ==> r.0.layer == c.layer && r.0.(layer := l.layer) == l && r.1 == SetLayer(l.surface, c.layer)
  {
    match c
    case AnchorTo(a) => (l.(anchor := a), SetAnchor(l.surface, a))
    case ExclusiveZoneTo(z) => (l.(exclusiveZone := z), SetExclusiveZone(l.surface, z))
    case MarginTo(m) => (l.(margin := m), SetMargin(l.surface, m))
    case InteractivityTo(k) => (l.(keyboardInteractivity := k), SetKeyboardInteractivity(l.surface, k))
    case LayerTo(y) => (l.(layer := y), SetLayer(l.surface, y))
  }

  /**
   * The configure re-sent after a layer resize, as the code computes it: both
   * dimensions fall back on the width.
   */
  function ResizedConfigureAsWritten(prev: LayerConfigure, width: Option<u32>, height: Option<u32>): (r: LayerConfigure)
    ensures r.newSize.0 == ResizedConfigure(prev, width, height).newSize.0
    ensures width.Some? ==> r.newSize.1 == width.value
    ensures width.None? ==> r == prev
  {
    LayerConfigure((width.GetOr(prev.newSize.0), width.GetOr(prev.newSize.1)))
  }

  /**
   * As written, a resize to 10x20 of a layer last configured at 5x5 is
   * reported as 10x10, though the layer now requests a height of 20.
   */
  lemma ResizedConfigureAsWrittenDropsHeight(l: LayerSurface)
    requires l.lastConfigure == Some(LayerConfigure((5, 5)))
    ensures LayerSetSize(l, Some(10), Some(20)).0.requestedSize.1 == Some(20)
    ensures ResizedConfigureAsWritten(l.lastConfigure.value, Some(10), Some(20)).newSize == (10, 10)
  {
  }

  /**
   * The configure re-sent after a layer resize: each dimension the resize
   * gives replaces the last configured one, the other is kept.
   */
  function ResizedConfigure(prev: LayerConfigure, width: Option<u32>, height: Option<u32>): (r: LayerConfigure)
    ensures width.Some? ==> r.newSize.0 == width.value
    ensures height.Some? ==> r.newSize.1 == height.value
    ensures width.None? ==> r.newSize.0 == prev.newSize.0
    ensures height.None? ==> r.newSize.1 == prev.newSize.1
  {
    LayerConfigure((width.GetOr(prev.newSize.0), height.GetOr(prev.newSize.1)))
  }

  /**
   * The corrected configure agrees with the size the layer surface requests
   * after the resize, in every dimension the resize gives.
   */
  lemma ResizedConfigureMatchesRequest(l: LayerSurface, width: Option<u32>, height: Option<u32>)
    requires l.lastConfigure.Some?
    ensures var requested := LayerSetSize(l, width, height).0.requestedSize;
      var reported := ResizedConfigure(l.lastConfigure.value, width, height).newSize;
      && (requested.0.Some? ==> reported.0 == requested.0.value)
      && (requested.1.Some? ==> reported.1 == requested.1.value)
  {
  }

  /** `NonZeroU32::new(x).unwrap_or(1)`. */
  function NonZeroOrOne(x: u32): (r: NonZeroU32)
    ensures x != 0 ==> r == x
    ensures x == 0 ==> r == 1
  {
    if x == 0 then 1 else x
  }

  /**
   * The ancestors `Action::Destroy` removes after the popup `last`: while the
   * last removed popup has a popup parent, the first popup on that surface is
   * removed too. The result is the popups left and the ancestors removed, in
   * order; `None` when a parent popup is missing (the code panics).
   */
  function Ancestors(popups: seq<Popup>, last: Popup): (r: Option<(seq<Popup>, seq<Popup>)>)
    decreases |popups|
    ensures r.Some? ==> |r.value.0| + |r.value.1| == |popups|
  {
    match last.data.parent
    case PopupParent(s) =>
      (match FirstIndex(popups, (p: Popup) => p.surface == s)
       case None => None
       case Some(j) =>
         var rest := Ancestors(RemoveAt(popups, j), popups[j]);
         if rest.None? then None else Some((rest.value.0, [popups[j]] + rest.value.1)))
    case _ => Some((popups, []))
  }

  /** The popups destroyed and those left partition the popups there were. */
  lemma {:induction false} AncestorsPartition(popups: seq<Popup>, last: Popup)
    ensures var r := Ancestors(popups, last);
      r.Some? ==> multiset(r.value.0) + multiset(r.value.1) == multiset(popups)
    decreases |popups|
  {
    if last.data.parent.PopupParent? {
      var j := FirstIndex(popups, (p: Popup) => p.surface == last.data.parent.surface);
      if j.Some? {
        AncestorsPartition(RemoveAt(popups, j.value), popups[j.value]);
      }
    }
  }

  /**
   * The popups destroyed form a parent chain: each one's parent is the next
   * one's surface, and the chain ends at a popup whose parent is a window or a
   * layer surface.
   */
  lemma {:induction false} AncestorsLinked(popups: seq<Popup>, last: Popup)
    ensures var r := Ancestors(popups, last);
      r.Some? ==>
        var chain := [last] + r.value.1;
        && (forall k :: 0 <= k < |chain| - 1 ==> chain[k].data.parent == PopupParent(chain[k + 1].surface))
        && !chain[|chain| - 1].data.parent.PopupParent?
    decreases |popups|
  {
    var r := Ancestors(popups, last);
    if last.data.parent.PopupParent? {
      var j := FirstIndex(popups, (p: Popup) => p.surface == last.data.parent.surface);
      if j.Some? {
        var p := popups[j.value];
        AncestorsLinked(RemoveAt(popups, j.value), p);
        var rest := Ancestors(RemoveAt(popups, j.value), p);
        if rest.Some? {
          var chain := [last] + r.value.1;
          assert chain == [last] + ([p] + rest.value.1);
          forall k | 0 <= k < |chain| - 1
            ensures chain[k].data.parent == PopupParent(chain[k + 1].surface)
          {
            if k > 0 {
              assert chain[k] == ([p] + rest.value.1)[k - 1];
              assert chain[k + 1] == ([p] + rest.value.1)[k];
            }
          }
        }
      }
    }
  }

  /**
   * Destroying a popup takes its ancestor popups with it but leaves its
   * child popups in the registry.
   */
  lemma DestroyTakesAncestorsNotChildren(parent: Popup, child: Popup)
    requires parent.data.parent.WindowParent? && child.data.parent == PopupParent(parent.surface)
    requires child.surface != parent.surface
    ensures Ancestors(RemoveAt([parent, child], 0), parent) == Some(([child], []))
    ensures Ancestors(RemoveAt([parent, child], 1), child) == Some(([], [parent]))
  {
    assert RemoveAt([parent, child], 0) == [child];
    assert RemoveAt([parent, child], 1) == [parent];
    assert FirstIndex([parent], (p: Popup) => p.surface == parent.surface) == Some(0);
    assert RemoveAt([parent], 0) == [];
    assert Ancestors([], parent) == Some(([], []));
    assert [parent] + [] == [parent];
  }

  /** `Prepend(xs, r)`: the ancestors `r`, with `xs` removed before them. */
  function Prepend(xs: seq<Popup>, r: Option<(seq<Popup>, seq<Popup>)>): Option<(seq<Popup>, seq<Popup>)>
  {
    if r.None? then None else Some((r.value.0, xs + r.value.1))
  }

  lemma PrependTwice(xs: seq<Popup>, ys: seq<Popup>, r: Option<(seq<Popup>, seq<Popup>)>)
    ensures Prepend(xs, Prepend(ys, r)) == Prepend(xs + ys, r)
  {
    if r.Some? {
      assert xs + (ys + r.value.1) == (xs + ys) + r.value.1;
    }
  }

  /** Every field of the registry but the effect log, for stating what an operation leaves alone. */
  datatype Fields = Fields(
    seats: seq<Seat>,
    windows: seq<Window>,
    layerSurfaces: seq<LayerSurface>,
    popups: seq<Popup>,
    lockSurfaces: seq<LockSurface>,
    sctkEvents: seq<SctkEvent>,
    sent: seq<Control>,
    requestedFrame: set<ObjectId>,
    idMap: map<ObjectId, W.Id>,
    toCommit: map<W.Id, ObjectId>,
    sessionLock: Option<ObjectId>,
    tokenCtr: u32,
    ready: bool,
    nextObject: ObjectId)

  /** `SctkState`: the registry the event loop owns. */
  class WaylandState {
    var seats: seq<Seat>
    var windows: seq<Window>
    var layerSurfaces: seq<LayerSurface>
    var popups: seq<Popup>
    var lockSurfaces: seq<LockSurface>
    /** Events gathered during dispatch, forwarded by the loop. */
    var sctkEvents: seq<SctkEvent>
    /** Everything sent on the channel to the application side. */
    var sent: seq<Control>
    var requestedFrame: set<ObjectId>
    var idMap: map<ObjectId, W.Id>
    var toCommit: map<W.Id, ObjectId>
    var sessionLock: Option<ObjectId>
    var tokenCtr: u32
    var ready: bool
    /** The id the compositor gives the next protocol object created. */
    var nextObject: ObjectId
    /** Which optional globals were bound at start-up. */
    const hasLayerShell: bool
    const hasViewporter: bool
    const hasFractionalScaling: bool
    const hasActivation: bool
    /** Whether the compositor grants a session lock when asked. */
    const canLock: bool
    /** Requests sent to the compositor, oldest first. */
    ghost var requests: seq<Request>

    constructor (hasLayerShell: bool, hasViewporter: bool, hasFractionalScaling: bool, hasActivation: bool, canLock: bool, seats: seq<Seat>)
      ensures Snapshot() == Fields(seats, [], [], [], [], [], [], {}, map[], map[], None, 0, true, 0)
      ensures requests == []
      ensures this.hasLayerShell == hasLayerShell && this.hasViewporter == hasViewporter
      ensures this.hasFractionalScaling == hasFractionalScaling && this.hasActivation == hasActivation
      ensures this.canLock == canLock
    {
      this.seats := seats;
      windows := [];
      layerSurfaces := [];
      popups := [];
      lockSurfaces := [];
      sctkEvents := [];
      sent := [];
      requestedFrame := {};
      idMap := map[];
      toCommit := map[];
      sessionLock := None;
      tokenCtr := 0;
      ready := true;
      nextObject := 0;
      this.hasLayerShell := hasLayerShell;
      this.hasViewporter := hasViewporter;
      this.hasFractionalScaling := hasFractionalScaling;
      this.hasActivation := hasActivation;
      this.canLock := canLock;
      requests := [];
    }

    function Snapshot(): Fields
      reads this
    {
      Fields(seats, windows, layerSurfaces, popups, lockSurfaces, sctkEvents, sent, requestedFrame,
               idMap, toCommit, sessionLock, tokenCtr, ready, nextObject)
    }

    function WindowIndex(surface: ObjectId): Option<nat>
      reads this
    {
      FirstIndex(windows, (w: Window) => w.surface == surface)
    }

    function PopupIndex(surface: ObjectId): Option<nat>
      reads this
    {
      FirstIndex(popups, (p: Popup) => p.surface == surface)
    }

    function LayerIndex(surface: ObjectId): Option<nat>
      reads this
    {
      FirstIndex(layerSurfaces, (l: LayerSurface) => l.surface == surface)
    }

    function LockIndex(surface: ObjectId): Option<nat>
      reads this
    {
      FirstIndex(lockSurfaces, (l: LockSurface) => l.surface == surface)
    }

    /** The shared blocks of the first popup, layer surface and lock surface on `surface`. */
    function MatchedCommons(surface: ObjectId): set<Common>
      reads this
    {
      (if PopupIndex(surface).Some? then {popups[PopupIndex(surface).value].common} else {})
      + (if LayerIndex(surface).Some? then {layerSurfaces[LayerIndex(surface).value].common} else {})
      + (if LockIndex(surface).Some? then {lockSurfaces[LockIndex(surface).value].common} else {})
    }

    /** `surface` is the surface of exactly one kind of record, found by `index`. */
    predicate OnlyIn(surface: ObjectId, kind: nat)
      reads this
    {
      && (WindowIndex(surface).Some? <==> kind == 0)
      && (PopupIndex(surface).Some? <==> kind == 1)
      && (LayerIndex(surface).Some? <==> kind == 2)
      && (LockIndex(surface).Some? <==> kind == 3)
    }

    /** `compositor_state.create_surface` and the other object constructors: a fresh object id. */
    method Fresh() returns (o: ObjectId)
      modifies this
      ensures o == old(nextObject)
      ensures Snapshot() == old(Snapshot()).(nextObject := o + 1)
      ensures requests == old(requests)
    {
      o := nextObject;
      nextObject := nextObject + 1;
    }

    /** A fresh object when the global that makes it is bound, otherwise none. */
    method FreshIf(bound: bool) returns (o: Option<ObjectId>)
      modifies this
      ensures bound ==> o == Some(old(nextObject)) && Snapshot() == old(Snapshot()).(nextObject := old(nextObject) + 1)
      ensures !bound ==> o.None? && Snapshot() == old(Snapshot())
      ensures requests == old(requests)
    {
      if bound {
        var v := Fresh();
        o := Some(v);
      } else {
        o := None;
      }
    }

    /**
     * `scale_factor_changed`: windows, popups, layer surfaces and lock surfaces
     * are searched in turn. A legacy (integer) scale event on a surface whose
     * fractional-scale object is bound stops there. Otherwise the scale is
     * stored (on the window, or in the shared block), a legacy event also sets
     * the buffer scale, and once the surface was found one
     * `SurfaceScaleFactorChanged` is queued.
     */
    method ScaleFactorChanged(surface: ObjectId, scale: real, legacy: bool)
      modifies this, MatchedCommons(surface)
      ensures old(WindowIndex(surface)).None? && old(PopupIndex(surface)).None?
              && old(LayerIndex(surface)).None? && old(LockIndex(surface)).None? ==>
                Snapshot() == old(Snapshot()) && requests == old(requests)
      ensures old(OnlyIn(surface, 0)) ==>
                var w := old(windows[WindowIndex(surface).value]);
                if legacy && w.fractionalScale.Some? then
                  Snapshot() == old(Snapshot()) && requests == old(requests)
                else
                  Snapshot() == old(Snapshot()).(
                    windows := old(windows)[old(WindowIndex(surface).value) := w.(scaleFactor := Some(scale))],
                    sctkEvents := old(sctkEvents) + [SurfaceScaleFactorChanged(scale, surface, w.id)])
                  && requests == old(requests) + (if legacy then [SetBufferScale(surface, scale)] else [])
      ensures old(OnlyIn(surface, 1)) ==>
                var p := old(popups[PopupIndex(surface).value]);
                if legacy && p.fractionalScale.Some? then
                  Snapshot() == old(Snapshot()) && requests == old(requests)
                else
                  Snapshot() == old(Snapshot()).(sctkEvents := old(sctkEvents) + [SurfaceScaleFactorChanged(scale, surface, p.data.id)])
                  && p.common.fractionalScale == Some(scale)
                  && requests == old(requests) + (if legacy then [SetBufferScale(surface, scale)] else [])
      ensures old(OnlyIn(surface, 2)) ==>
                var l := old(layerSurfaces[LayerIndex(surface).value]);
                if legacy && l.fractionalScale.Some? then
                  Snapshot() == old(Snapshot()) && requests == old(requests)
                else
                  Snapshot() == old(Snapshot()).(sctkEvents := old(sctkEvents) + [SurfaceScaleFactorChanged(scale, surface, l.id)])
                  && l.common.fractionalScale == Some(scale)
                  && requests == old(requests) + (if legacy then [SetBufferScale(surface, scale)] else [])
      ensures old(OnlyIn(surface, 3)) ==>
                var k := old(lockSurfaces[LockIndex(surface).value]);
                if legacy && k.fractionalScale.Some? then
                  Snapshot() == old(Snapshot()) && requests == old(requests)
                else
                  Snapshot() == old(Snapshot()).(sctkEvents := old(sctkEvents) + [SurfaceScaleFactorChanged(scale, surface, k.id)])
                  && k.common.fractionalScale == Some(scale)
                  && requests == old(requests) + (if legacy then [SetBufferScale(surface, scale)] else [])
    {
      var id: Option<W.Id> := None;
      var wi := WindowIndex(surface);
      if wi.Some? {
        id := Some(windows[wi.value].id);
        var stop := ScaleWindow(wi.value, scale, legacy);
        if stop {
          return;
        }
      }
      ScaleSharedSurface(surface, scale, legacy, id);
    }

    /**
     * The popup, layer and lock steps of `scale_factor_changed`, after the
     * window step, with `id` the window id it found; the event is queued for
     * the last id found unless a step stopped.
     */
    method ScaleSharedSurface(surface: ObjectId, scale: real, legacy: bool, id: Option<W.Id>)
      modifies this, MatchedCommons(surface)
      ensures old(PopupIndex(surface)).None? && old(LayerIndex(surface)).None? && old(LockIndex(surface)).None? ==>
                Snapshot() == old(Snapshot()).(sctkEvents := old(sctkEvents) + (if id.Some? then [SurfaceScaleFactorChanged(scale, surface, id.value)] else []))
                && requests == old(requests)
      ensures old(PopupIndex(surface)).Some? && old(LayerIndex(surface)).None? && old(LockIndex(surface)).None? ==>
                var p := old(popups[PopupIndex(surface).value]);
                if legacy && p.fractionalScale.Some? then
                  Snapshot() == old(Snapshot()) && requests == old(requests)
                else
                  Snapshot() == old(Snapshot()).(sctkEvents := old(sctkEvents) + [SurfaceScaleFactorChanged(scale, surface, p.data.id)])
                  && p.common.fractionalScale == Some(scale)
                  && requests == old(requests) + (if legacy then [SetBufferScale(surface, scale)] else [])
      ensures old(PopupIndex(surface)).None? && old(LayerIndex(surface)).Some? && old(LockIndex(surface)).None? ==>
                var l := old(layerSurfaces[LayerIndex(surface).value]);
                if legacy && l.fractionalScale.Some? then
                  Snapshot() == old(Snapshot()) && requests == old(requests)
                else
                  Snapshot() == old(Snapshot()).(sctkEvents := old(sctkEvents) + [SurfaceScaleFactorChanged(scale, surface, l.id)])
                  && l.common.fractionalScale == Some(scale)
                  && requests == old(requests) + (if legacy then [SetBufferScale(surface, scale)] else [])
      ensures old(PopupIndex(surface)).None? && old(LayerIndex(surface)).None? && old(LockIndex(surface)).Some? ==>
                var k := old(lockSurfaces[LockIndex(surface).value]);
                if legacy && k.fractionalScale.Some? then
                  Snapshot() == old(Snapshot()) && requests == old(requests)
                else
                  Snapshot() == old(Snapshot()).(sctkEvents := old(sctkEvents) + [SurfaceScaleFactorChanged(scale, surface, k.id)])
                  && k.common.fractionalScale == Some(scale)
                  && requests == old(requests) + (if legacy then [SetBufferScale(surface, scale)] else [])
    {
      var id := id;
      var pi, li, ki := PopupIndex(surface), LayerIndex(surface), LockIndex(surface);
      if pi.Some? {
        var p := popups[pi.value];
        id := Some(p.data.id);
        var stop := ScaleCommon(p.common, p.fractionalScale, surface, scale, legacy);
        if stop {
          return;
        }
      }
      if li.Some? {
        var l := layerSurfaces[li.value];
        id := Some(l.id);
        var stop := ScaleCommon(l.common, l.fractionalScale, surface, scale, legacy);
        if stop {
          return;
        }
      }
      if ki.Some? {
        var k := lockSurfaces[ki.value];
        id := Some(k.id);
        var stop := ScaleCommon(k.common, k.fractionalScale, surface, scale, legacy);
        if stop {
          return;
        }
      }
      if id.Some? {
        sctkEvents := sctkEvents + [SurfaceScaleFactorChanged(scale, surface, id.value)];
      }
    }

    /** The window step of `scale_factor_changed`; `stop` when a legacy event meets a fractional-scale object. */
    method ScaleWindow(i: nat, scale: real, legacy: bool) returns (stop: bool)
      requires i < |windows|
      modifies this
      ensures stop == (legacy && old(windows[i]).fractionalScale.Some?)
      ensures stop ==> Snapshot() == old(Snapshot()) && requests == old(requests)
      ensures !stop ==> Snapshot() == old(Snapshot()).(windows := old(windows)[i := old(windows[i]).(scaleFactor := Some(scale))])
      ensures !stop ==> requests == old(requests) + (if legacy then [SetBufferScale(old(windows[i]).surface, scale)] else [])
    {
      var w := windows[i];
      stop := legacy && w.fractionalScale.Some?;
      if !stop {
        windows := windows[i := w.(scaleFactor := Some(scale))];
        if legacy {
          requests := requests + [SetBufferScale(w.surface, scale)];
        }
      }
    }

    /** The popup, layer and lock steps of `scale_factor_changed`: the scale goes into the shared block. */
    method ScaleCommon(c: Common, fractional: Option<ObjectId>, surface: ObjectId, scale: real, legacy: bool) returns (stop: bool)
      modifies this, c
      ensures stop == (legacy && fractional.Some?)
      ensures Snapshot() == old(Snapshot())
      ensures stop ==> requests == old(requests) && c.fractionalScale == old(c.fractionalScale)
      ensures !stop ==> c.fractionalScale == Some(scale)
      ensures !stop ==> requests == old(requests) + (if legacy then [SetBufferScale(surface, scale)] else [])
      ensures c.hasFocus == old(c.hasFocus) && c.imePos == old(c.imePos) && c.imeSize == old(c.imeSize) && c.size == old(c.size)
    {
      stop := legacy && fractional.Some?;
      if !stop {
        c.fractionalScale := Some(scale);
        if legacy {
          requests := requests + [SetBufferScale(surface, scale)];
        }
      }
    }

    /** The scaling objects a surface created as `surface` gets from this registry's globals. */
    function ScalingIds(surface: ObjectId): (Option<ObjectId>, Option<ObjectId>, ObjectId)
    {
      ScalingObjectIds(surface, hasViewporter, hasFractionalScaling)
    }

    /** Binds the viewport and fractional-scale objects of a just-created surface. */
    method ScalingObjects(ghost surface: ObjectId) returns (viewport: Option<ObjectId>, fractional: Option<ObjectId>)
      requires nextObject == surface + 1
      modifies this
      ensures (viewport, fractional, nextObject) == ScalingIds(surface)
      ensures Snapshot() == old(Snapshot()).(nextObject := nextObject)
      ensures requests == old(requests)
    {
      viewport := FreshIf(hasViewporter);
      fractional := FreshIf(hasFractionalScaling);
    }

    /**
     * `get_popup`: resolves the parent, needs a positioner size, creates the
     * surface (registered in `idMap` before the popup object exists), grabs
     * with the first seat when asked, commits, binds the scaling objects and
     * records the popup, not yet configured.
     */
    method GetPopup(settings: PopupSettings, fault: ToolkitFault) returns (r: Result<PopupHandles, PopupCreationError>)
      modifies this
      ensures var parent := ResolveParent(old(layerSurfaces), old(windows), old(popups), settings.parent);
        && (r == Failure(ParentMissing) <==> parent.None?)
        && (r == Failure(SizeMissing) <==> parent.Some? && settings.positionerSize.None?)
        && (r == Failure(PositionerCreationFailed) <==> parent.Some? && settings.positionerSize.Some? && fault == PositionerFault)
        && (r == Failure(PopupCreationFailed) <==> parent.Some? && settings.positionerSize.Some? && fault == PopupFault)
      ensures r.Failure? && r.error != PopupCreationFailed ==> Snapshot() == old(Snapshot()) && requests == old(requests)
      ensures r == Failure(PopupCreationFailed) ==>
        Snapshot() == old(Snapshot()).(idMap := old(idMap)[old(nextObject) := settings.id], nextObject := old(nextObject) + 1)
        && requests == old(requests)
      ensures r.Success? ==>
        var parent := ResolveParent(old(layerSurfaces), old(windows), old(popups), settings.parent).value;
        var surface := old(nextObject);
        var size := settings.positionerSize.value;
        var (vp, fs, next) := ScalingIds(surface);
        && r.value == PopupHandles(settings.id, parent.0.surface, parent.1, surface, r.value.common)
        && fresh(r.value.common) && r.value.common.size == size && r.value.common.fractionalScale.None?
        && Snapshot() == old(Snapshot()).(
             popups := old(popups) + [Popup(surface, None, PopupData(settings.id, parent.0, parent.1, size), r.value.common, fs, vp)],
             idMap := old(idMap)[surface := settings.id],
             nextObject := next)
        && requests == old(requests) + PopupSetupRequests(surface, settings.grab, size, old(seats))
    {
      var parent := ResolveParent(layerSurfaces, windows, popups, settings.parent);
      if parent.None? {
        return Failure(ParentMissing);
      }
      if settings.positionerSize.None? {
        return Failure(SizeMissing);
      }
      if fault == PositionerFault {
        return Failure(PositionerCreationFailed);
      }
      r := CreatePopup(settings.id, parent.value.0, parent.value.1, settings.positionerSize.value, settings.grab, fault == PopupFault);
    }

    /** The part of `get_popup` after the positioner exists: the surface, then the popup object, which may fail. */
    method CreatePopup(id: W.Id, parent: SctkSurface, toplevel: ObjectId, size: (u32, u32), grab: bool, popupFault: bool)
      returns (r: Result<PopupHandles, PopupCreationError>)
      modifies this
      ensures popupFault <==> r.Failure?
      ensures r.Failure? ==>
        r.error == PopupCreationFailed
        && Snapshot() == old(Snapshot()).(idMap := old(idMap)[old(nextObject) := id], nextObject := old(nextObject) + 1)
        && requests == old(requests)
      ensures r.Success? ==>
        var surface := old(nextObject);
        var (vp, fs, next) := ScalingIds(surface);
        && r.value == PopupHandles(id, parent.surface, toplevel, surface, r.value.common)
        && fresh(r.value.common) && r.value.common.size == size && r.value.common.fractionalScale.None?
        && Snapshot() == old(Snapshot()).(
             popups := old(popups) + [Popup(surface, None, PopupData(id, parent, toplevel, size), r.value.common, fs, vp)],
             idMap := old(idMap)[surface := id],
             nextObject := next)
        && requests == old(requests) + PopupSetupRequests(surface, grab, size, old(seats))
    {
      var surface := Fresh();
      idMap := idMap[surface := id];
      if popupFault {
        return Failure(PopupCreationFailed);
      }
      var common := AttachPopup(id, parent, toplevel, size, grab, surface);
      r := Success(PopupHandles(id, parent.surface, toplevel, surface, common));
    }

    /**
     * What a new popup sends, given the seats: the grab (with the first seat,
     * when asked), the commit, the viewport destination.
     */
    function PopupSetupRequests(surface: ObjectId, grab: bool, size: (u32, u32), known: seq<Seat>): seq<Request>
    {
      (if grab && |known| > 0 then [Grab(surface, known[0].seat, GrabSerial(known[0]))] else [])
      + [Commit(surface)]
      + (var vp := ScalingIds(surface).0; if vp.Some? then [SetDestination(vp.value, size.0, size.1)] else [])
    }

    /** Grabs, commits, binds the scaling objects and records the popup on the just-created `surface`. */
    method AttachPopup(id: W.Id, parent: SctkSurface, toplevel: ObjectId, size: (u32, u32), grab: bool, surface: ObjectId)
      returns (common: Common)
      requires nextObject == surface + 1
      modifies this
      ensures fresh(common) && common.size == size && common.fractionalScale.None?
      ensures
        var (vp, fs, next) := ScalingIds(surface);
        Snapshot() == old(Snapshot()).(
          popups := old(popups) + [Popup(surface, None, PopupData(id, parent, toplevel, size), common, fs, vp)],
          nextObject := next)
      ensures requests == old(requests) + PopupSetupRequests(surface, grab, size, old(seats))
    {
      var setup := PopupSetupRequests(surface, grab, size, seats);
      var vp, fs := ScalingObjects(surface);
      requests := requests + setup;
      common := new Common.FromSize(size.0, size.1);
      popups := popups + [Popup(surface, None, PopupData(id, parent, toplevel, size), common, fs, vp)];
    }

    /**
     * What a new layer surface sends: anchor, keyboard interactivity, margin,
     * size and exclusive zone, an empty input region when the pointer must
     * pass through, then the commit.
     */
    function LayerSetupRequests(surface: ObjectId, settings: LayerSurfaceSettings): seq<Request>
    {
      var size := NormalizeLayerSize(settings.size, settings.anchor);
      [SetAnchor(surface, settings.anchor), SetKeyboardInteractivity(surface, settings.keyboardInteractivity),
       SetMargin(surface, settings.margin), SetLayerSize(surface, size.0.GetOr(0), size.1.GetOr(0)),
       SetExclusiveZone(surface, settings.exclusiveZone)]
      + (if settings.pointerInteractivity then [] else [SetEmptyInputRegion(surface)])
      + [Commit(surface)]
    }

    /**
     * `get_layer_surface`: needs the layer shell; creates and registers the
     * surface, normalises the requested size against the anchors, sends the
     * initial layer state and a commit, binds the scaling objects and records
     * the surface, not yet configured.
     */
    method GetLayerSurface(settings: LayerSurfaceSettings) returns (r: Result<(W.Id, ObjectId, Common), LayerSurfaceCreationError>)
      modifies this
      ensures r.Failure? <==> !hasLayerShell
      ensures r.Failure? ==> r.error == LayerShellNotSupported && Snapshot() == old(Snapshot()) && requests == old(requests)
      ensures r.Success? ==>
        var surface := old(nextObject);
        var size := NormalizeLayerSize(settings.size, settings.anchor);
        var (vp, fs, next) := ScalingIds(surface);
        var common := r.value.2;
        && r.value.0 == settings.id && r.value.1 == surface
        && fresh(common) && common.size == (size.0.GetOr(1), size.1.GetOr(1)) && common.fractionalScale.None?
        && Snapshot() == old(Snapshot()).(
             layerSurfaces := old(layerSurfaces) + [LayerSurface(settings.id, surface, size, None, settings.layer, settings.anchor,
                                                                 settings.keyboardInteractivity, settings.margin, settings.exclusiveZone,
                                                                 None, fs, vp, common)],
             idMap := old(idMap)[surface := settings.id],
             nextObject := next)
        && requests == old(requests) + LayerSetupRequests(surface, settings)
    {
      if !hasLayerShell {
        return Failure(LayerShellNotSupported);
      }
      var surface := Fresh();
      idMap := idMap[surface := settings.id];
      var size := NormalizeLayerSize(settings.size, settings.anchor);
      requests := requests + LayerSetupRequests(surface, settings);
      var vp, fs := ScalingObjects(surface);
      var common := new Common.FromSize(size.0.GetOr(1), size.1.GetOr(1));
      layerSurfaces := layerSurfaces + [LayerSurface(settings.id, surface, size, None, settings.layer, settings.anchor,
                                                     settings.keyboardInteractivity, settings.margin, settings.exclusiveZone,
                                                     None, fs, vp, common)];
      r := Success((settings.id, surface, common));
    }

    /**
     * The effect of session-lock `LockSurface`: without a lock nothing
     * changes; with one, a lock surface for the id on the next object id,
     * with its scaling objects and a new shared block, is appended and mapped
     * to the id, and nothing is requested or sent.
     */
    twostate predicate LockSurfaceCreation(id: W.Id)
      reads this
    {
      && (old(sessionLock).None? ==> Unchanged())
      && (old(sessionLock).Some? ==>
          var surface := old(nextObject);
          var (vp, fs, next) := ScalingIds(surface);
          var n := |old(lockSurfaces)|;
          && |lockSurfaces| == n + 1
          && fresh(lockSurfaces[n].common)
          && Snapshot() == old(Snapshot()).(
               lockSurfaces := old(lockSurfaces) + [LockSurface(id, surface, None, fs, vp, lockSurfaces[n].common)],
               idMap := old(idMap)[surface := id],
               nextObject := next)
          && requests == old(requests))
    }

    /**
     * `get_lock_surface`: only while the session is locked; creates and
     * registers the surface, binds the scaling objects and records it with a
     * 1x1 shared block.
     */

    method GetLockSurface(id: W.Id) returns (r: Option<(ObjectId, Common)>)
      modifies this
      ensures r.None? <==> old(sessionLock).None?
      ensures r.None? ==> Snapshot() == old(Snapshot()) && requests == old(requests)
      ensures r.Some? ==>
        var surface := old(nextObject);
        var (vp, fs, next) := ScalingIds(surface);
        && r.value.0 == surface
        && fresh(r.value.1) && r.value.1.size == (1, 1) && r.value.1.fractionalScale.None?
        && Snapshot() == old(Snapshot()).(
             lockSurfaces := old(lockSurfaces) + [LockSurface(id, surface, None, fs, vp, r.value.1)],
             idMap := old(idMap)[surface := id],
             nextObject := next)
        && requests == old(requests)
      ensures LockSurfaceCreation(id)
    {
      if sessionLock.None? {
        return None;
      }
      var surface := Fresh();
      idMap := idMap[surface := id];
      var vp, fs := ScalingObjects(surface);
      var common := new Common.FromSize(1, 1);
      lockSurfaces := lockSurfaces + [LockSurface(id, surface, None, fs, vp, common)];
      r := Some((surface, common));
    }

    function LayerById(id: W.Id): Option<nat>
      reads this
    {
      FirstIndex(layerSurfaces, (l: LayerSurface) => l.id == id)
    }

    function WindowById(id: W.Id): Option<nat>
      reads this
    {
      FirstIndex(windows, (w: Window) => w.id == id)
    }

    function PopupById(id: W.Id): Option<nat>
      reads this
    {
      FirstIndex(popups, (p: Popup) => p.data.id == id)
    }

    function LockById(id: W.Id): Option<nat>
      reads this
    {
      FirstIndex(lockSurfaces, (l: LockSurface) => l.id == id)
    }

    /** `send_event`: the event goes to the application side as a platform-specific message. */
    method SendEvent(e: SctkEvent)
      modifies this
      ensures Snapshot() == old(Snapshot()).(sent := old(sent) + [PlatformSpecific(e)])
      ensures requests == old(requests)
    {
      sent := sent + [PlatformSpecific(e)];
    }

    /** Nothing in the registry changed and nothing was requested. */
    twostate predicate Unchanged()
      reads this
    {
      Snapshot() == old(Snapshot()) && requests == old(requests)
    }

    /**
     * The effect of layer `LayerSurface { builder }`: without the layer shell
     * nothing changes; with it, one layer surface on the next object id is
     * appended and announced.
     */
    twostate predicate LayerCreation(builder: LayerSurfaceSettings)
      reads this
    {
      && (!hasLayerShell ==> Unchanged())
      && (hasLayerShell ==>
          var surface := old(nextObject);
          var size := NormalizeLayerSize(builder.size, builder.anchor);
          var (vp, fs, next) := ScalingIds(surface);
          var n := |old(layerSurfaces)|;
          && |layerSurfaces| == n + 1
          && fresh(layerSurfaces[n].common)
          && Snapshot() == old(Snapshot()).(
               layerSurfaces := old(layerSurfaces) + [LayerSurface(builder.id, surface, size, None, builder.layer, builder.anchor,
                                                                   builder.keyboardInteractivity, builder.margin, builder.exclusiveZone,
                                                                   None, fs, vp, layerSurfaces[n].common)],
               idMap := old(idMap)[surface := builder.id],
               nextObject := next,
               sent := old(sent) + [PlatformSpecific(LayerCreated(surface, builder.id, layerSurfaces[n].common, builder.namespace))])
          && requests == old(requests) + LayerSetupRequests(surface, builder))
    }

    /** `LayerSurface { builder }`: creates the layer surface and, when it exists, announces it. */
    method CreateLayer(builder: LayerSurfaceSettings) returns (r: Result<(W.Id, ObjectId, Common), LayerSurfaceCreationError>)
      modifies this
      ensures r.Success? <==> hasLayerShell
      ensures r.Failure? ==> Snapshot() == old(Snapshot()) && requests == old(requests)
      ensures r.Success? ==>
        && r.value.0 == builder.id && r.value.1 == old(nextObject)
        && |layerSurfaces| == |old(layerSurfaces)| + 1 && layerSurfaces[..|old(layerSurfaces)|] == old(layerSurfaces)
        && layerSurfaces[|old(layerSurfaces)|].surface == r.value.1
        && layerSurfaces[|old(layerSurfaces)|].common == r.value.2
        && sent == old(sent) + [PlatformSpecific(LayerCreated(r.value.1, builder.id, r.value.2, builder.namespace))]
      ensures LayerCreation(builder)
    {
      r := GetLayerSurface(builder);
      if r.Success? {
        SendEvent(LayerCreated(r.value.1, r.value.0, r.value.2, builder.namespace));
      }
    }

    /** The effect of layer `Size`. */
    twostate predicate LayerResized(id: W.Id, width: Option<u32>, height: Option<u32>)
      reads this
    {
      && (old(LayerById(id)).None? ==> Snapshot() == old(Snapshot()) && requests == old(requests))
      && (old(LayerById(id)).Some? ==>
          var i := old(LayerById(id)).value;
          var l := old(layerSurfaces[i]);
          && Snapshot() == old(Snapshot()).(
               layerSurfaces := old(layerSurfaces)[i := l.(requestedSize := (width, height))],
               sent := old(sent) + (if l.lastConfigure.Some?
                                    then [PlatformSpecific(LayerConfigured(ResizedConfigure(l.lastConfigure.value, width, height), l.surface, false))]
                                    else []))
          && requests == old(requests) + [SetLayerSize(l.surface, width.GetOr(0), height.GetOr(0))])
    }

    /**
     * Layer `Size`: the layer records and asks for the new size; when it was
     * configured before, a configure carrying the new size is re-sent, not
     * marked as the first one. Its last configure is left as it was. The
     * configure re-sent is the corrected `ResizedConfigure`, not
     * `ResizedConfigureAsWritten`, which takes the width for both dimensions.
     */
    method ResizeLayer(id: W.Id, width: Option<u32>, height: Option<u32>)
      modifies this
      ensures LayerResized(id, width, height)
    {
      var i := LayerById(id);
      if i.Some? {
        var l := layerSurfaces[i.value];
        var (l', reqs) := LayerSetSize(l, width, height);
        layerSurfaces := layerSurfaces[i.value := l'];
        requests := requests + reqs;
        if l.lastConfigure.Some? {
          SendEvent(LayerConfigured(ResizedConfigure(l.lastConfigure.value, width, height), l.surface, false));
        }
      }
    }

    /** The effect of layer `Destroy`. */
    twostate predicate LayerDestroyed(id: W.Id)
      reads this
    {
      && (old(LayerById(id)).None? ==> Snapshot() == old(Snapshot()) && requests == old(requests))
      && (old(LayerById(id)).Some? ==>
          var i := old(LayerById(id)).value;
          && Snapshot() == old(Snapshot()).(
               layerSurfaces := RemoveAt(old(layerSurfaces), i),
               sent := old(sent) + [PlatformSpecific(LayerDone(old(layerSurfaces[i]).surface))])
          && requests == old(requests))
    }

    /** Layer `Destroy`: the first layer surface with the id leaves the registry and `Done` is sent for it. */
    method DestroyLayer(id: W.Id)
      modifies this
      ensures LayerDestroyed(id)
    {
      var i := LayerById(id);
      if i.Some? {
        var l := layerSurfaces[i.value];
        layerSurfaces := RemoveAt(layerSurfaces, i.value);
        SendEvent(LayerDone(l.surface));
      }
    }

    /** The effect of a layer property change. */
    twostate predicate LayerChanged(id: W.Id, change: LayerChange)
      reads this
    {
      && (old(LayerById(id)).None? ==> Snapshot() == old(Snapshot()) && requests == old(requests))
      && (old(LayerById(id)).Some? ==>
          var i := old(LayerById(id)).value;
          var (l', req) := ApplyLayerChange(old(layerSurfaces[i]), change);
          && Snapshot() == old(Snapshot()).(
               layerSurfaces := old(layerSurfaces)[i := l'],
               toCommit := old(toCommit)[id := l'.surface])
          && requests == old(requests) + [req])
    }

    /** Layer `Anchor`, `ExclusiveZone`, `Margin`, `KeyboardInteractivity`, `Layer`: the change is applied, requested, and the surface queued for commit. */
    method ChangeLayer(id: W.Id, change: LayerChange)
      modifies this
      ensures LayerChanged(id, change)
    {
      var i := LayerById(id);
      if i.Some? {
        var (l', req) := ApplyLayerChange(layerSurfaces[i.value], change);
        layerSurfaces := layerSurfaces[i.value := l'];
        requests := requests + [req];
        toCommit := toCommit[id := l'.surface];
      }
    }

    /** The effect of window `Size`. */
    twostate predicate WindowResized(id: W.Id, width: u32, height: u32)
      reads this
    {
      && (old(WindowById(id)).None? ==> Snapshot() == old(Snapshot()) && requests == old(requests))
      && (old(WindowById(id)).Some? ==>
          var i := old(WindowById(id)).value;
          var w := old(windows[i]);
          var size := (NonZeroOrOne(width), NonZeroOrOne(height));
          var (w', reqs) := SetWindowSize(w, size.0, size.1);
          && Snapshot() == old(Snapshot()).(
               windows := old(windows)[i := w'],
               sent := old(sent) + (if w.lastConfigure.Some? then [PlatformSpecific(WindowSize(size, w.surface, false))] else []))
          && requests == old(requests) + reqs)
    }

    /**
     * Window `Size`: a zero dimension becomes 1; the window records and takes
     * the size, and a window that was configured before reports its new size,
     * not marked as the first one.
     */
    method ResizeWindow(id: W.Id, width: u32, height: u32)
      modifies this
      ensures WindowResized(id, width, height)
    {
      var i := WindowById(id);
      if i.Some? {
        var w := windows[i.value];
        var (w', reqs) := SetWindowSize(w, NonZeroOrOne(width), NonZeroOrOne(height));
        windows := windows[i.value := w'];
        requests := requests + reqs;
        if w.lastConfigure.Some? {
          SendEvent(WindowSize(w'.currentSize, w.surface, false));
        }
      }
    }

    /** The effect of window `MinSize`, `MaxSize`, `Title` and `AppId`. */
    twostate predicate WindowConfigured(a: RW.Action)
      requires a.MinSize? || a.MaxSize? || a.Title? || a.AppId?
      reads this
    {
      && (old(WindowById(a.id)).None? ==> Snapshot() == old(Snapshot()) && requests == old(requests))
      && (old(WindowById(a.id)).Some? ==>
          var surface := old(windows[WindowById(a.id).value]).surface;
          && Snapshot() == old(Snapshot()).(toCommit := old(toCommit)[a.id := surface])
          && requests == old(requests) + [match a
                                          case MinSize(_, limit) => SetMinSize(surface, limit)
                                          case MaxSize(_, limit) => SetMaxSize(surface, limit)
                                          case Title(_, title) => SetTitle(surface, title)
                                          case AppId(_, appId) => SetAppId(surface, appId)])
    }

    /** Window `MinSize`, `MaxSize`, `Title`, `AppId`: the request for the window, which is queued for commit. */
    method ConfigureWindow(a: RW.Action)
      requires a.MinSize? || a.MaxSize? || a.Title? || a.AppId?
      modifies this
      ensures WindowConfigured(a)
    {
      var i := WindowById(a.id);
      if i.Some? {
        var surface := windows[i.value].surface;
        var req := match a
          case MinSize(_, limit) => SetMinSize(surface, limit)
          case MaxSize(_, limit) => SetMaxSize(surface, limit)
          case Title(_, title) => SetTitle(surface, title)
          case AppId(_, appId) => SetAppId(surface, appId);
        requests := requests + [req];
        toCommit := toCommit[a.id := surface];
      }
    }

    /** The effect of window `InteractiveMove` and `InteractiveResize`. */
    twostate predicate InteractiveStarted(a: RW.Action)
      requires a.InteractiveMove? || a.InteractiveResize?
      reads this
    {
      && (old(WindowById(a.id)).None? || |seats| == 0 || seats[0].lastPtrPress.None? ==>
          Snapshot() == old(Snapshot()) && requests == old(requests))
      && (old(WindowById(a.id)).Some? && |seats| > 0 && seats[0].lastPtrPress.Some? ==>
          var surface := old(windows[WindowById(a.id).value]).surface;
          var serial := seats[0].lastPtrPress.value.serial;
          && Snapshot() == old(Snapshot()).(toCommit := old(toCommit)[a.id := surface])
          && requests == old(requests) + [if a.InteractiveMove? then Move(surface, seats[0].seat, serial)
                                          else Resize(surface, seats[0].seat, serial, a.edge)])
    }

    /**
     * Window `InteractiveMove` and `InteractiveResize`: need the window and a
     * pointer press on the first seat, whose serial authorises the move or
     * resize; the window is queued for commit.
     */
    method StartInteractive(a: RW.Action)
      requires a.InteractiveMove? || a.InteractiveResize?
      modifies this
      ensures InteractiveStarted(a)
    {
      var i := WindowById(a.id);
      if i.Some? && |seats| > 0 && seats[0].lastPtrPress.Some? {
        var surface := windows[i.value].surface;
        var serial := seats[0].lastPtrPress.value.serial;
        var req := if a.InteractiveMove? then Move(surface, seats[0].seat, serial)
                   else Resize(surface, seats[0].seat, serial, a.edge);
        requests := requests + [req];
        toCommit := toCommit[a.id := surface];
      }
    }

    /** The effect of window `Destroy`. */
    twostate predicate WindowDestroyed(id: W.Id)
      reads this
    {
      && (old(WindowById(id)).None? ==> Snapshot() == old(Snapshot()) && requests == old(requests))
      && (old(WindowById(id)).Some? ==>
          var i := old(WindowById(id)).value;
          && Snapshot() == old(Snapshot()).(windows := RemoveAt(old(windows), i))
          && requests == old(requests) + [DestroySurface(old(windows[i]).surface)])
    }

    /** Window `Destroy`: the first window with the id leaves the registry and its toplevel is destroyed; nothing is sent. */
    method DestroyWindow(id: W.Id)
      modifies this
      ensures WindowDestroyed(id)
    {
      var i := WindowById(id);
      if i.Some? {
        var surface := windows[i.value].surface;
        windows := RemoveAt(windows, i.value);
        requests := requests + [DestroySurface(surface)];
      }
    }

    /**
     * The effect of popup `Popup`: a missing parent or size, or a failing
     * positioner, changes nothing; a failing popup object leaves only its
     * surface id mapped; otherwise the popup, with its scaling objects and a
     * new shared block, is appended and mapped, its setup requests are made
     * and one event announces it.
     */
    twostate predicate PopupCreation(settings: PopupSettings, fault: ToolkitFault)
      reads this
    {
      var parent := ResolveParent(old(layerSurfaces), old(windows), old(popups), settings.parent);
      && (parent.None? || settings.positionerSize.None? || fault == PositionerFault ==> Unchanged())
      && (parent.Some? && settings.positionerSize.Some? && fault == PopupFault ==>
          && Snapshot() == old(Snapshot()).(idMap := old(idMap)[old(nextObject) := settings.id], nextObject := old(nextObject) + 1)
          && requests == old(requests))
      && (parent.Some? && settings.positionerSize.Some? && fault == NoFault ==>
          var surface := old(nextObject);
          var size := settings.positionerSize.value;
          var (vp, fs, next) := ScalingIds(surface);
          var n := |old(popups)|;
          && |popups| == n + 1
          && fresh(popups[n].common)
          && Snapshot() == old(Snapshot()).(
               popups := old(popups) + [Popup(surface, None, PopupData(settings.id, parent.value.0, parent.value.1, size), popups[n].common, fs, vp)],
               idMap := old(idMap)[surface := settings.id],
               nextObject := next,
               sent := old(sent) + [PlatformSpecific(PopupCreated(surface, settings.id, popups[n].common, parent.value.1, parent.value.0.surface))])
          && requests == old(requests) + PopupSetupRequests(surface, settings.grab, size, old(seats)))
    }

    /** Popup `Popup`: creates the popup and, when that succeeds, announces it with its parent and toplevel. */
    method NewPopup(settings: PopupSettings, fault: ToolkitFault) returns (r: Result<PopupHandles, PopupCreationError>)
      modifies this
      ensures r.Success? <==> ResolveParent(old(layerSurfaces), old(windows), old(popups), settings.parent).Some?
                              && settings.positionerSize.Some? && fault == NoFault
      ensures r.Success? ==>
        && |popups| == |old(popups)| + 1 && popups[..|old(popups)|] == old(popups)
        && popups[|old(popups)|].surface == r.value.surface && popups[|old(popups)|].common == r.value.common
        && sent == old(sent) + [PlatformSpecific(PopupCreated(r.value.surface, settings.id, r.value.common, r.value.toplevel, r.value.parent))]
      ensures r.Failure? ==> sent == old(sent) && popups == old(popups)
      ensures PopupCreation(settings, fault)
    {
      r := GetPopup(settings, fault);
      if r.Success? {
        SendEvent(PopupCreated(r.value.surface, r.value.id, r.value.common, r.value.toplevel, r.value.parent));
      }
    }

    /**
     * The effect of popup `Destroy`: a missing popup is a panic; otherwise the
     * popup and the chain of its ancestors leave the registry, or the walk up
     * that chain panics at a missing ancestor.
     */
    twostate predicate PopupDestroyed(id: W.Id, outcome: Outcome)
      reads this
    {
      && (old(PopupById(id)).None? ==> outcome == Panicked && Unchanged())
      && (old(PopupById(id)).Some? ==>
          var i := old(PopupById(id)).value;
          var chain := Ancestors(RemoveAt(old(popups), i), old(popups[i]));
          && (outcome == Panicked <==> chain.None?)
          && (chain.Some? ==> Snapshot() == old(Snapshot()).(popups := chain.value.0) && requests == old(requests)))
    }

    /**
     * Popup `Destroy`: the popup with the id and then, link by link, its
     * ancestor popups leave the registry. A missing popup or a missing
     * ancestor is a panic.
     */
    method DestroyPopup(id: W.Id) returns (outcome: Outcome, destroyed: seq<Popup>)
      modifies this
      ensures PopupDestroyed(id, outcome)
      ensures old(PopupById(id)).Some? ==>
        var i := old(PopupById(id)).value;
        var chain := Ancestors(RemoveAt(old(popups), i), old(popups[i]));
        chain.Some? ==> destroyed == [old(popups[i])] + chain.value.1
    {
      var i := PopupById(id);
      if i.None? {
        return Panicked, [];
      }
      var target := popups[i.value];
      popups := RemoveAt(popups, i.value);
      var ancestors;
      outcome, ancestors := RemoveAncestors(target);
      destroyed := [target] + ancestors;
    }

    /** The loop of popup `Destroy`: removes the ancestor popups of `target`, nearest first. */
    method RemoveAncestors(target: Popup) returns (outcome: Outcome, removed: seq<Popup>)
      modifies this
      ensures var chain := Ancestors(old(popups), target);
        && (outcome == Panicked <==> chain.None?)
        && (chain.Some? ==> Snapshot() == old(Snapshot()).(popups := chain.value.0) && removed == chain.value.1)
      ensures requests == old(requests)
    {
      var last := target;
      removed := [];
      assert Prepend([], Ancestors(popups, target)) == Ancestors(popups, target) by {
        if Ancestors(popups, target).Some? {
          assert [] + Ancestors(popups, target).value.1 == Ancestors(popups, target).value.1;
        }
      }
      while last.data.parent.PopupParent?
        invariant Ancestors(old(popups), target) == Prepend(removed, Ancestors(popups, last))
        invariant Snapshot() == old(Snapshot()).(popups := popups)
        invariant requests == old(requests)
        decreases |popups|
      {
        var j := FirstIndex(popups, (p: Popup) => p.surface == last.data.parent.surface);
        if j.None? {
          return Panicked, removed;
        }
        var p := popups[j.value];
        assert Ancestors(popups, last) == Prepend([p], Ancestors(RemoveAt(popups, j.value), p));
        PrependTwice(removed, [p], Ancestors(RemoveAt(popups, j.value), p));
        popups := RemoveAt(popups, j.value);
        removed := removed + [p];
        last := p;
      }
      outcome := Done;
    }

    /** The effect of popup `Size`. */
    twostate predicate PopupResized(id: W.Id, width: u32, height: u32)
      reads this
    {
      && (old(PopupById(id)).None? ==> Snapshot() == old(Snapshot()) && requests == old(requests))
      && (old(PopupById(id)).Some? ==>
          var i := old(PopupById(id)).value;
          var token := WrappingInc32(old(tokenCtr));
          var (p', reqs) := SetPopupSize(old(popups[i]), width, height, token);
          && Snapshot() == old(Snapshot()).(popups := old(popups)[i := p'], tokenCtr := token)
          && requests == old(requests) + reqs)
    }

    /** Popup `Size`: the reposition token advances (wrapping) and the popup takes the size under the new token. */
    method ResizePopup(id: W.Id, width: u32, height: u32)
      modifies this
      ensures PopupResized(id, width, height)
    {
      var i := PopupById(id);
      if i.Some? {
        tokenCtr := WrappingInc32(tokenCtr);
        var (p', reqs) := SetPopupSize(popups[i.value], width, height, tokenCtr);
        popups := popups[i.value := p'];
        requests := requests + reqs;
      }
    }

    /** The effect of activation `Activate`. */
    twostate predicate WindowActivated(window: W.Id, token: string)
      reads this
    {
      && (Snapshot() == old(Snapshot()))
      && (requests == old(requests) + (if hasActivation && WindowById(window).Some?
                                              then [Activate(windows[WindowById(window).value].surface, token)]
                                              else []))
    }

    /** Activation `Activate`: with the activation global and the window, the compositor is asked to activate it. */
    method ActivateWindow(window: W.Id, token: string)
      modifies this
      ensures WindowActivated(window, token)
    {
      if hasActivation {
        var i := WindowById(window);
        if i.Some? {
          requests := requests + [Activate(windows[i.value].surface, token)];
        }
      }
    }

    /** The effect of session-lock `Lock`. */
    twostate predicate SessionLocked()
      reads this
    {
      && (old(sessionLock).Some? || !canLock ==> Snapshot() == old(Snapshot()) && requests == old(requests))
      && (old(sessionLock).None? && canLock ==>
          Snapshot() == old(Snapshot()).(sessionLock := Some(old(nextObject)), nextObject := old(nextObject) + 1)
          && requests == old(requests))
      && (sessionLock.Some? <==> old(sessionLock).Some? || canLock)
    }

    /** Session-lock `Lock`: while unlocked, asks for a lock, which exists afterwards only if the compositor grants it. */
    method LockSession()
      modifies this
      ensures SessionLocked()
    {
      if sessionLock.None? && canLock {
        var lock := Fresh();
        sessionLock := Some(lock);
      }
    }

    /** The effect of session-lock `Unlock`. */
    twostate predicate SessionUnlocked()
      reads this
    {
      && (Snapshot() == old(Snapshot()).(sessionLock := None))
      && (requests == old(requests) + (if old(sessionLock).Some? then [Unlock(old(sessionLock).value)] else []) + [Roundtrip])
    }

    /** Session-lock `Unlock`: a held lock is released and dropped; a round trip follows either way. */
    method UnlockSession()
      modifies this
      ensures SessionUnlocked()
    {
      if sessionLock.Some? {
        requests := requests + [Unlock(sessionLock.value)];
        sessionLock := None;
      }
      requests := requests + [Roundtrip];
    }

    /** The effect of session-lock `DestroyLockSurface`. */
    twostate predicate LockSurfaceDestroyed(id: W.Id)
      reads this
    {
      && (old(LockById(id)).None? ==> Snapshot() == old(Snapshot()))
      && (old(LockById(id)).Some? ==> Snapshot() == old(Snapshot()).(lockSurfaces := RemoveAt(old(lockSurfaces), old(LockById(id)).value)))
      && (requests == old(requests))
    }

    /** Session-lock `DestroyLockSurface`: the first lock surface with the id leaves the registry. */
    method DestroyLockSurface(id: W.Id)
      modifies this
      ensures LockSurfaceDestroyed(id)
    {
      var i := LockById(id);
      if i.Some? {
        lockSurfaces := RemoveAt(lockSurfaces, i.value);
      }
    }

    /** Whether `handle_action` panics on `a` in the current state. */
    predicate PanicsOn(a: Action)
      reads this
    {
      match a
      case OnWindow(w) => w.Window?
      case OnPopup(DestroyPopup(id)) =>
        PopupById(id).None? || Ancestors(RemoveAt(popups, PopupById(id).value), popups[PopupById(id).value]).None?
      case _ => false
    }

    /** The effect of a layer action: the operation it names. */
    twostate predicate LayerHandled(l: LayerAction)
      reads this
    {
      match l
      case CreateLayer(builder) => LayerCreation(builder)
      case ResizeLayer(id, width, height) => LayerResized(id, width, height)
      case DestroyLayer(id) => LayerDestroyed(id)
      case ChangeLayer(id, change) => LayerChanged(id, change)
    }

    /** The effect of a window action: a panic for `Window`, else the operation it names. */
    twostate predicate WindowHandled(w: RW.Action, outcome: Outcome)
      reads this
    {
      match w
      case Window(_) => outcome == Panicked && Unchanged()
      case Size(id, width, height) => outcome == Done && WindowResized(id, width, height)
      case MinSize(_, _) => outcome == Done && WindowConfigured(w)
      case MaxSize(_, _) => outcome == Done && WindowConfigured(w)
      case Title(_, _) => outcome == Done && WindowConfigured(w)
      case AppId(_, _) => outcome == Done && WindowConfigured(w)
      case InteractiveMove(_) => outcome == Done && InteractiveStarted(w)
      case InteractiveResize(_, _) => outcome == Done && InteractiveStarted(w)
      case Destroy(id) => outcome == Done && WindowDestroyed(id)
    }

    /** The effect of a popup action; a grab changes nothing. */
    twostate predicate PopupHandled(p: PopupAction, fault: ToolkitFault, outcome: Outcome)
      reads this
    {
      match p
      case NewPopup(settings) => outcome == Done && PopupCreation(settings, fault)
      case DestroyPopup(id) => PopupDestroyed(id, outcome)
      case ResizePopup(id, width, height) => outcome == Done && PopupResized(id, width, height)
      case GrabPopup(_) => outcome == Done && Unchanged()
    }

    /** The effect of an activation action; a token request changes nothing. */
    twostate predicate ActivationHandled(act: ActivationAction)
      reads this
    {
      match act
      case RequestToken(_, _) => Unchanged()
      case ActivateWindow(window, token) => WindowActivated(window, token)
    }

    /** The effect of a session lock action: the operation it names. */
    twostate predicate LockHandled(k: SessionLockAction)
      reads this
    {
      match k
      case Lock => SessionLocked()
      case UnlockSession => SessionUnlocked()
      case LockSurfaceOn(id, _) => LockSurfaceCreation(id)
      case DestroyLockSurface(id) => LockSurfaceDestroyed(id)
    }

    /**
     * What `handle_action` does with `a`: the effect of the operation the
     * action names, a panic for a window `Window` action, and nothing for an
     * activation token request or a popup grab.
     */
    twostate predicate Handled(a: Action, fault: ToolkitFault, outcome: Outcome)
      reads this
    {
      match a
      case OnLayer(l) => outcome == Done && LayerHandled(l)
      case OnWindow(w) => WindowHandled(w, outcome)
      case OnPopup(p) => PopupHandled(p, fault, outcome)
      case OnActivation(act) => outcome == Done && ActivationHandled(act)
      case OnSessionLock(k) => outcome == Done && LockHandled(k)
    }

    /** The layer arm of `handle_action`. */
    method HandleLayerAction(l: LayerAction)
      modifies this
      ensures LayerHandled(l)
    {
      match l {
        case CreateLayer(builder) => var _ := CreateLayer(builder);
        case ResizeLayer(id, width, height) => ResizeLayer(id, width, height);
        case DestroyLayer(id) => DestroyLayer(id);
        case ChangeLayer(id, change) => ChangeLayer(id, change);
      }
    }

    /** The window arm of `handle_action`; a `Window` action panics. */
    method HandleWindowAction(w: RW.Action) returns (outcome: Outcome)
      modifies this
      ensures outcome == Panicked <==> w.Window?
      ensures WindowHandled(w, outcome)
    {
      outcome := Done;
      match w {
        case Window(_) => outcome := Panicked;
        case Size(id, width, height) => ResizeWindow(id, width, height);
        case MinSize(_, _) => ConfigureWindow(w);
        case MaxSize(_, _) => ConfigureWindow(w);
        case Title(_, _) => ConfigureWindow(w);
        case AppId(_, _) => ConfigureWindow(w);
        case InteractiveMove(_) => StartInteractive(w);
        case InteractiveResize(_, _) => StartInteractive(w);
        case Destroy(id) => DestroyWindow(id);
      }
    }

    /** The popup arm of `handle_action`; destroying panics on a missing popup or ancestor. */
    method HandlePopupAction(p: PopupAction, fault: ToolkitFault) returns (outcome: Outcome)
      modifies this
      ensures outcome == Panicked <==> old(PanicsOn(OnPopup(p)))
      ensures PopupHandled(p, fault, outcome)
    {
      outcome := Done;
      match p {
        case NewPopup(settings) => var _ := NewPopup(settings, fault);
        case DestroyPopup(id) => var o, _ := DestroyPopup(id); outcome := o;
        case ResizePopup(id, width, height) => ResizePopup(id, width, height);
        case GrabPopup(_) =>
      }
    }

    /** The activation arm of `handle_action`; a token request does nothing here. */
    method HandleActivationAction(act: ActivationAction)
      modifies this
      ensures ActivationHandled(act)
    {
      match act {
        case RequestToken(_, _) =>
        case ActivateWindow(window, token) => ActivateWindow(window, token);
      }
    }

    /** The session lock arm of `handle_action`. */
    method HandleLockAction(k: SessionLockAction)
      modifies this
      ensures LockHandled(k)
    {
      match k {
        case Lock => LockSession();
        case UnlockSession => UnlockSession();
        case LockSurfaceOn(id, _) => var _ := GetLockSurface(id);
        case DestroyLockSurface(id) => DestroyLockSurface(id);
      }
    }

    /**
     * `handle_action`: dispatches on the action. It panics on a window
     * `Window` action and on destroying a popup that is missing or whose
     * ancestors are; every other action is handled.
     */
    method HandleAction(a: Action, fault: ToolkitFault) returns (outcome: Outcome)
      modifies this
      ensures outcome == Panicked <==> old(PanicsOn(a))
      ensures Handled(a, fault, outcome)
    {
      outcome := Done;
      match a {
        case OnLayer(l) => HandleLayerAction(l);
        case OnWindow(w) => outcome := HandleWindowAction(w);
        case OnPopup(p) => outcome := HandlePopupAction(p, fault);
        case OnActivation(act) => HandleActivationAction(act);
        case OnSessionLock(k) => HandleLockAction(k);
      }
    }
  }
}
