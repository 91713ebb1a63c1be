/**
 * The surface registry of the older, generic smithay-client-toolkit event
 * loop: the same lists of windows, layer surfaces, popups and lock surfaces,
 * with the scale kept on each record and scale changes reported on a
 * separate compositor-update queue. Windows are created here too.
 */
module SctkRegistry {
  import opened Wrappers
  import opened Numeric
  import opened Seqs
  import opened Protocol
  import W = WindowId
  import E = WaylandEvent
  import RW = RuntimeWindow
  import WS = WinitState

  /** A layer-shell surface; its scale lives on the record. */
  datatype SctkLayerSurface = SctkLayerSurface(
    id: W.Id,
    surface: ObjectId,
    requestedSize: (Option<u32>, Option<u32>),
    currentSize: Option<(u32, u32)>,
    layer: Layer,
    anchor: Anchor,
    keyboardInteractivity: KeyboardInteractivity,
    margin: Margin,
    exclusiveZone: int,
    lastConfigure: Option<WS.LayerConfigure>,
    scaleFactor: Option<real>,
    fractionalScale: Option<ObjectId>,
    viewport: Option<ObjectId>)

  /** An xdg popup; its scale lives on the record. */
  datatype SctkPopup = SctkPopup(
    surface: ObjectId,
    lastConfigure: Option<WS.PopupConfigure>,
    data: WS.PopupData,
    scaleFactor: Option<real>,
    fractionalScale: Option<ObjectId>,
    viewport: Option<ObjectId>)

  /** A session-lock surface. */
  datatype SctkLockSurface = SctkLockSurface(id: W.Id, surface: ObjectId, lastConfigure: Option<(u32, u32)>)

  /** The scale changes the registry reports, each with the surface's viewport. */
  datatype CompositorUpdate =
    | WindowScaleChanged(surface: ObjectId, scale: real, viewport: Option<ObjectId>)
    | PopupScaleChanged(surface: ObjectId, toplevel: ObjectId, parent: ObjectId, scale: real, viewport: Option<ObjectId>)
    | LayerScaleChanged(surface: ObjectId, scale: real, viewport: Option<ObjectId>)

  /** What a toplevel reports to the application. */
  datatype WindowEventVariant =
    | Close
    | StateChanged(state: E.WindowState)
    | WmCapabilities(capabilities: E.WmCapabilities)
    | Configure(size: (NonZeroU32, NonZeroU32), configure: E.WindowConfigure, surface: ObjectId, first: bool)

  datatype SctkEvent = WindowEvent(variant: WindowEventVariant, id: ObjectId)

  /**
   * Where a new popup hangs: layer surfaces are searched first, then windows,
   * then popups, by id; a popup parent passes on its own toplevel.
   */
  function ParentOf(layers: seq<SctkLayerSurface>, windows: seq<WS.Window>, popups: seq<SctkPopup>, parent: W.Id)
    : (r: Option<(WS.SctkSurface, ObjectId)>)
    ensures r.None? <==>
      (forall i :: 0 <= i < |layers| ==> layers[i].id != parent)
      && (forall i :: 0 <= i < |windows| ==> windows[i].id != parent)
      && (forall i :: 0 <= i < |popups| ==> popups[i].data.id != parent)
    ensures r.Some? && r.value.0.LayerParent? ==>
      r.value.1 == r.value.0.surface
      && (exists i :: 0 <= i < |layers| && layers[i].id == parent && layers[i].surface == r.value.1)
    ensures r.Some? && r.value.0.WindowParent? ==>
      r.value.1 == r.value.0.surface
      && (forall i :: 0 <= i < |layers| ==> layers[i].id != parent)
      && (exists i :: 0 <= i < |windows| && windows[i].id == parent && windows[i].surface == r.value.1)
    ensures r.Some? && r.value.0.PopupParent? ==>
      (forall i :: 0 <= i < |layers| ==> layers[i].id != parent)
      && (forall i :: 0 <= i < |windows| ==> windows[i].id != parent)
      && (exists i :: 0 <= i < |popups| && popups[i].data.id == parent
            && popups[i].surface == r.value.0.surface && popups[i].data.toplevel == r.value.1)
  {
    match FirstIndex(layers, (l: SctkLayerSurface) => l.id == parent)
    case Some(i) => Some((WS.LayerParent(layers[i].surface), layers[i].surface))
    case None =>
      match FirstIndex(windows, (w: WS.Window) => w.id == parent)
      case Some(i) => Some((WS.WindowParent(windows[i].surface), windows[i].surface))
      case None =>
        match FirstIndex(popups, (p: SctkPopup) => p.data.id == parent)
        case Some(i) => Some((WS.PopupParent(popups[i].surface), popups[i].data.toplevel))
        case None => None
  }

  /** `f as i32` for a float that fits: rounds toward zero. */
  function Trunc(x: real): int
  {
    if x >= 0.0 then x.Floor else -((-x).Floor)
  }

  /** `f as i32 <= 0` holds exactly for the floats below 1. */
  lemma TruncNotPositive(x: real)
    ensures Trunc(x) <= 0 <==> x < 1.0
  {
  }

  /**
   * A size limit of a new window: dropped when a side truncates to zero or
   * less or exceeds `u16::MAX` (an unbounded side always does), otherwise
   * each side rounded down.
   */
  function LimitSize(width: RW.Extent, height: RW.Extent): (r: Option<(u32, u32)>)
    ensures r.Some? <==>
      width.Finite? && height.Finite? && 1.0 <= width.v <= 65535.0 && 1.0 <= height.v <= 65535.0
    ensures r.Some? ==>
      && 1 <= r.value.0 <= 65535 && r.value.0 as real <= width.v < r.value.0 as real + 1.0
      && 1 <= r.value.1 <= 65535 && r.value.1 as real <= height.v < r.value.1 as real + 1.0
  {
    match (width, height)
    case (Finite(w), Finite(h)) =>
      TruncNotPositive(w);
      TruncNotPositive(h);
      if Trunc(w) <= 0 || Trunc(h) <= 0 || w > 65535.0 || h > 65535.0 then None
      else Some((Trunc(w), Trunc(h)))
    case _ => None
  }

  /**
   * The size a new layer surface asks for: a dimension stretched between two
   * opposite anchors is cleared, any other is kept as given (missing stays
   * missing).
   */
  function ClearStretched(size: (Option<u32>, Option<u32>), anchor: Anchor): (r: (Option<u32>, Option<u32>))
    ensures r.1 == (if anchor.top && anchor.bottom then None else size.1)
    ensures r.0 == (if anchor.left && anchor.right then None else size.0)
  {
    (if anchor.left && anchor.right then None else size.0,
     if anchor.top && anchor.bottom then None else size.1)
  }

  /**
   * The two event loops clear the same stretched dimensions. Where the
   * generic one keeps a dimension of at least 1, the winit one asks for the
   * same value; where it keeps 0 or leaves an unstretched dimension missing,
   * the winit one asks for 1.
   */
  lemma StretchRulesAgree(size: (Option<u32>, Option<u32>), anchor: Anchor)
    ensures var g := ClearStretched(size, anchor);
      var n := WS.NormalizeLayerSize(Some(size), anchor);
      && (n.0.None? ==> g.0.None?) && (g.0.Some? ==> n.0.Some?)
      && (n.1.None? ==> g.1.None?) && (g.1.Some? ==> n.1.Some?)
      && (g.0.Some? && g.0.value >= 1 ==> n.0 == g.0)
      && (g.1.Some? && g.1.value >= 1 ==> n.1 == g.1)
      && (n.0.Some? && (g.0.None? || g.0.value == 0) ==> n.0 == Some(1))
      && (n.1.Some? && (g.1.None? || g.1.value == 0) ==> n.1 == Some(1))
  {
    var n := WS.NormalizeLayerSize(Some(size), anchor);
    assert n.0 == (if anchor.left && anchor.right then None else Some(WS.AtLeastOne(size.0)));
    assert n.1 == (if anchor.top && anchor.bottom then None else Some(WS.AtLeastOne(size.1)));
  }

  /** Every field of the registry but the effect log. */
  datatype SctkFields = SctkFields(
    seats: seq<WS.Seat>,
    windows: seq<WS.Window>,
    layerSurfaces: seq<SctkLayerSurface>,
    popups: seq<SctkPopup>,
    lockSurfaces: seq<SctkLockSurface>,
    sctkEvents: seq<SctkEvent>,
    frameEvents: seq<(ObjectId, u32)>,
    compositorUpdates: seq<CompositorUpdate>,
    sessionLock: Option<ObjectId>,
    nextObject: ObjectId)

  /** A queued scale change is about `surface` and carries `scale`. */
  predicate About(u: CompositorUpdate, surface: ObjectId, scale: real)
  {
    u.surface == surface && u.scale == scale
  }

  /** `b` is `a` with at most `n` scale changes about `surface` and `scale` added at the end. */
  predicate Grew(a: seq<CompositorUpdate>, b: seq<CompositorUpdate>, n: nat, surface: ObjectId, scale: real)
  {
    && |a| <= |b| <= |a| + n
    && b[..|a|] == a
    && forall k :: |a| <= k < |b| ==> About(b[k], surface, scale)
  }

  lemma GrewTrans(a: seq<CompositorUpdate>, b: seq<CompositorUpdate>, c: seq<CompositorUpdate>, n: nat, m: nat, k: nat,
                  surface: ObjectId, scale: real)
    requires Grew(a, b, n, surface, scale) && Grew(b, c, m, surface, scale) && n + m <= k
    ensures Grew(a, c, k, surface, scale)
  {
    assert c[..|a|] == c[..|b|][..|a|];
    forall i | |a| <= i < |c|
      ensures About(c[i], surface, scale)
    {
      if i < |b| {
        assert c[i] == c[..|b|][i];
      }
    }
  }

  /** `SctkState`: the registry the generic event loop owns. */
  class SctkState {
    var seats: seq<WS.Seat>
    var windows: seq<WS.Window>
    var layerSurfaces: seq<SctkLayerSurface>
    var popups: seq<SctkPopup>
    var lockSurfaces: seq<SctkLockSurface>
    var sctkEvents: seq<SctkEvent>
    /** Surfaces due a frame callback, with the time to report. */
    var frameEvents: seq<(ObjectId, u32)>
    var compositorUpdates: seq<CompositorUpdate>
    var sessionLock: Option<ObjectId>
    /** The id the compositor gives the next protocol object created. */
    var nextObject: ObjectId
    /** Which optional globals were bound at start-up. */
    const hasLayerShell: bool
    const hasViewporter: bool
    const hasFractionalScaling: bool
    const hasActivation: bool
    /** Requests sent to the compositor, oldest first. */
    ghost var requests: seq<Request>

    constructor (hasLayerShell: bool, hasViewporter: bool, hasFractionalScaling: bool, hasActivation: bool, seats: seq<WS.Seat>)
      ensures Snapshot() == SctkFields(seats, [], [], [], [], [], [], [], None, 0)
      ensures requests == []
      ensures this.hasLayerShell == hasLayerShell && this.hasViewporter == hasViewporter
      ensures this.hasFractionalScaling == hasFractionalScaling && this.hasActivation == hasActivation
    {
      this.seats := seats;
      windows := [];
      layerSurfaces := [];
      popups := [];
      lockSurfaces := [];
      sctkEvents := [];
      frameEvents := [];
      compositorUpdates := [];
      sessionLock := None;
      nextObject := 0;
      this.hasLayerShell := hasLayerShell;
      this.hasViewporter := hasViewporter;
      this.hasFractionalScaling := hasFractionalScaling;
      this.hasActivation := hasActivation;
      requests := [];
    }

    function Snapshot(): SctkFields
      reads this
    {
      SctkFields(seats, windows, layerSurfaces, popups, lockSurfaces, sctkEvents, frameEvents,
                 compositorUpdates, sessionLock, nextObject)
    }

    function WindowIndex(surface: ObjectId): Option<nat>
      reads this
    {
      FirstIndex(windows, (w: WS.Window) => w.surface == surface)
    }

    function PopupIndex(surface: ObjectId): Option<nat>
      reads this
    {
      FirstIndex(popups, (p: SctkPopup) => p.surface == surface)
    }

    function LayerIndex(surface: ObjectId): Option<nat>
      reads this
    {
      FirstIndex(layerSurfaces, (l: SctkLayerSurface) => l.surface == surface)
    }

    /** `surface` belongs to exactly one kind of scaled record: 0 windows, 1 popups, 2 layer surfaces. */
    predicate OnlyIn(surface: ObjectId, kind: nat)
      reads this
    {
      && (WindowIndex(surface).Some? <==> kind == 0)
      && (PopupIndex(surface).Some? <==> kind == 1)
      && (LayerIndex(surface).Some? <==> kind == 2)
    }

    /** A fresh protocol object id. */
    method Fresh() returns (o: ObjectId)
      modifies this
      ensures o == old(nextObject)
      ensures Snapshot() == old(Snapshot()).(nextObject := o + 1)
      ensures requests == old(requests)
    {
      o := nextObject;
      nextObject := nextObject + 1;
    }

    /** A fresh object when the global that makes it is bound, otherwise none. */
    method FreshIf(bound: bool) returns (o: Option<ObjectId>)
      modifies this
      ensures bound ==> o == Some(old(nextObject)) && Snapshot() == old(Snapshot()).(nextObject := old(nextObject) + 1)
      ensures !bound ==> o.None? && Snapshot() == old(Snapshot())
      ensures requests == old(requests)
    {
      if bound {
        var v := Fresh();
        o := Some(v);
      } else {
        o := None;
      }
    }

    /** Binds the viewport and fractional-scale objects of a just-created surface. */
    method ScalingObjects(ghost surface: ObjectId) returns (viewport: Option<ObjectId>, fractional: Option<ObjectId>)
      requires nextObject == surface + 1
      modifies this
      ensures (viewport, fractional, nextObject) == WS.ScalingObjectIds(surface, hasViewporter, hasFractionalScaling)
      ensures Snapshot() == old(Snapshot()).(nextObject := nextObject)
      ensures requests == old(requests)
    {
      viewport := FreshIf(hasViewporter);
      fractional := FreshIf(hasFractionalScaling);
    }

    /**
     * `scale_factor_changed`: windows, popups and layer surfaces are searched
     * in turn (lock surfaces never are). A legacy (integer) scale event on a
     * surface whose fractional-scale object is bound stops there. Otherwise
     * the record stores the scale, a legacy event also sets the buffer scale,
     * and a scale change carrying the record's viewport is queued.
     */
    method ScaleFactorChanged(surface: ObjectId, scale: real, legacy: bool)
      modifies this
      ensures Snapshot() == old(Snapshot()).(windows := windows, popups := popups, layerSurfaces := layerSurfaces,
                                             compositorUpdates := compositorUpdates)
      ensures Grew(old(compositorUpdates), compositorUpdates, 3, surface, scale)
      ensures old(WindowIndex(surface)).None? && old(PopupIndex(surface)).None? && old(LayerIndex(surface)).None? ==>
                Snapshot() == old(Snapshot()) && requests == old(requests)
      ensures old(OnlyIn(surface, 0)) ==>
                var i := old(WindowIndex(surface).value);
                var w := old(windows[i]);
                if legacy && w.fractionalScale.Some? then
                  Snapshot() == old(Snapshot()) && requests == old(requests)
                else
                  Snapshot() == old(Snapshot()).(
                    windows := old(windows)[i := w.(scaleFactor := Some(scale))],
                    compositorUpdates := old(compositorUpdates) + [WindowScaleChanged(surface, scale, w.viewport)])
                  && requests == old(requests) + (if legacy then [SetBufferScale(surface, scale)] else [])
      ensures old(OnlyIn(surface, 1)) ==>
                var i := old(PopupIndex(surface).value);
                var p := old(popups[i]);
                if legacy && p.fractionalScale.Some? then
                  Snapshot() == old(Snapshot()) && requests == old(requests)
                else
                  Snapshot() == old(Snapshot()).(
                    popups := old(popups)[i := p.(scaleFactor := Some(scale))],
                    compositorUpdates := old(compositorUpdates)
                      + [PopupScaleChanged(surface, p.data.toplevel, p.data.parent.surface, scale, p.viewport)])
                  && requests == old(requests) + (if legacy then [SetBufferScale(surface, scale)] else [])
      ensures old(OnlyIn(surface, 2)) ==>
                var i := old(LayerIndex(surface).value);
                var l := old(layerSurfaces[i]);
                if legacy && l.fractionalScale.Some? then
                  Snapshot() == old(Snapshot()) && requests == old(requests)
                else
                  Snapshot() == old(Snapshot()).(
                    layerSurfaces := old(layerSurfaces)[i := l.(scaleFactor := Some(scale))],
                    compositorUpdates := old(compositorUpdates) + [LayerScaleChanged(surface, scale, l.viewport)])
                  && requests == old(requests) + (if legacy then [SetBufferScale(surface, scale)] else [])
    {
      var wi, pi, li := WindowIndex(surface), PopupIndex(surface), LayerIndex(surface);
      ghost var u0 := compositorUpdates;
      assert Grew(u0, u0, 0, surface, scale);
      if wi.Some? {
        var stop := ScaleWindow(wi.value, surface, scale, legacy);
        if stop {
          GrewTrans(u0, u0, compositorUpdates, 0, 1, 3, surface, scale);
          return;
        }
      }
      ghost var u1 := compositorUpdates;
      assert Grew(u0, u1, 1, surface, scale);
      if pi.Some? {
        var stop := ScalePopup(pi.value, surface, scale, legacy);
        GrewTrans(u0, u1, compositorUpdates, 1, 1, 3, surface, scale);
        if stop {
          return;
        }
        GrewTrans(u0, u1, compositorUpdates, 1, 1, 2, surface, scale);
      }
      ghost var u2 := compositorUpdates;
      assert Grew(u0, u2, 2, surface, scale);
      if li.Some? {
        var stop := ScaleLayer(li.value, surface, scale, legacy);
      }
      GrewTrans(u0, u2, compositorUpdates, 2, 1, 3, surface, scale);
    }

    /** The window step of `scale_factor_changed`; `stop` when a legacy event meets a fractional-scale object. */
    method ScaleWindow(i: nat, surface: ObjectId, scale: real, legacy: bool) returns (stop: bool)
      requires i < |windows| && windows[i].surface == surface
      modifies this
      ensures Grew(old(compositorUpdates), compositorUpdates, 1, surface, scale)
      ensures stop == (legacy && old(windows[i]).fractionalScale.Some?)
      ensures stop ==> Snapshot() == old(Snapshot()) && requests == old(requests)
      ensures !stop ==>
        var w := old(windows[i]);
        && Snapshot() == old(Snapshot()).(windows := old(windows)[i := w.(scaleFactor := Some(scale))],
                                          compositorUpdates := old(compositorUpdates) + [WindowScaleChanged(surface, scale, w.viewport)])
        && requests == old(requests) + (if legacy then [SetBufferScale(surface, scale)] else [])
    {
      var w := windows[i];
      stop := legacy && w.fractionalScale.Some?;
      if !stop {
        windows := windows[i := w.(scaleFactor := Some(scale))];
        if legacy {
          requests := requests + [SetBufferScale(surface, scale)];
        }
        compositorUpdates := compositorUpdates + [WindowScaleChanged(surface, scale, w.viewport)];
      }
    }

    /** The popup step of `scale_factor_changed`. */
    method ScalePopup(i: nat, surface: ObjectId, scale: real, legacy: bool) returns (stop: bool)
      requires i < |popups| && popups[i].surface == surface
      modifies this
      ensures Grew(old(compositorUpdates), compositorUpdates, 1, surface, scale)
      ensures stop == (legacy && old(popups[i]).fractionalScale.Some?)
      ensures stop ==> Snapshot() == old(Snapshot()) && requests == old(requests)
      ensures !stop ==>
        var p := old(popups[i]);
        && Snapshot() == old(Snapshot()).(
             popups := old(popups)[i := p.(scaleFactor := Some(scale))],
             compositorUpdates := old(compositorUpdates)
               + [PopupScaleChanged(surface, p.data.toplevel, p.data.parent.surface, scale, p.viewport)])
        && requests == old(requests) + (if legacy then [SetBufferScale(surface, scale)] else [])
    {
      var p := popups[i];
      stop := legacy && p.fractionalScale.Some?;
      if !stop {
        popups := popups[i := p.(scaleFactor := Some(scale))];
        if legacy {
          requests := requests + [SetBufferScale(surface, scale)];
        }
        compositorUpdates := compositorUpdates + [PopupScaleChanged(surface, p.data.toplevel, p.data.parent.surface, scale, p.viewport)];
      }
    }

    /** The layer-surface step of `scale_factor_changed`. */
    method ScaleLayer(i: nat, surface: ObjectId, scale: real, legacy: bool) returns (stop: bool)
      requires i < |layerSurfaces| && layerSurfaces[i].surface == surface
      modifies this
      ensures Grew(old(compositorUpdates), compositorUpdates, 1, surface, scale)
      ensures stop == (legacy && old(layerSurfaces[i]).fractionalScale.Some?)
      ensures stop ==> Snapshot() == old(Snapshot()) && requests == old(requests)
      ensures !stop ==>
        var l := old(layerSurfaces[i]);
        && Snapshot() == old(Snapshot()).(layerSurfaces := old(layerSurfaces)[i := l.(scaleFactor := Some(scale))],
                                          compositorUpdates := old(compositorUpdates) + [LayerScaleChanged(surface, scale, l.viewport)])
        && requests == old(requests) + (if legacy then [SetBufferScale(surface, scale)] else [])
    {
      var l := layerSurfaces[i];
      stop := legacy && l.fractionalScale.Some?;
      if !stop {
        layerSurfaces := layerSurfaces[i := l.(scaleFactor := Some(scale))];
        if legacy {
          requests := requests + [SetBufferScale(surface, scale)];
        }
        compositorUpdates := compositorUpdates + [LayerScaleChanged(surface, scale, l.viewport)];
      }
    }

    /** What a new popup sends: the grab (with the first seat, when asked), the commit, the viewport destination. */
    function PopupSetupRequests(surface: ObjectId, grab: bool, size: (u32, u32)): seq<Request>
      reads this
    {
      (if grab && |seats| > 0 then [Grab(surface, seats[0].seat, WS.GrabSerial(seats[0]))] else [])
      + [Commit(surface)]
      + (var vp := WS.ScalingObjectIds(surface, hasViewporter, hasFractionalScaling).0;
         if vp.Some? then [SetDestination(vp.value, size.0, size.1)] else [])
    }

    /**
     * `get_popup`: resolves the parent, needs a positioner size, creates the
     * surface, grabs with the first seat when asked, commits, binds the
     * scaling objects and records the popup, not yet configured. It hands
     * back the popup's id, its parent's and toplevel's surfaces and its own.
     */
    method GetPopup(settings: WS.PopupSettings, fault: WS.ToolkitFault)
      returns (r: Result<(W.Id, ObjectId, ObjectId, ObjectId), WS.PopupCreationError>)
      modifies this
      ensures var parent := ParentOf(old(layerSurfaces), old(windows), old(popups), settings.parent);
        && (r == Failure(WS.ParentMissing) <==> parent.None?)
        && (r == Failure(WS.SizeMissing) <==> parent.Some? && settings.positionerSize.None?)
        && (r == Failure(WS.PositionerCreationFailed) <==> parent.Some? && settings.positionerSize.Some? && fault == WS.PositionerFault)
        && (r == Failure(WS.PopupCreationFailed) <==> parent.Some? && settings.positionerSize.Some? && fault == WS.PopupFault)
      ensures r.Failure? && r.error != WS.PopupCreationFailed ==> Snapshot() == old(Snapshot()) && requests == old(requests)
      ensures r == Failure(WS.PopupCreationFailed) ==>
        Snapshot() == old(Snapshot()).(nextObject := old(nextObject) + 1) && requests == old(requests)
      ensures r.Success? ==>
        var parent := ParentOf(old(layerSurfaces), old(windows), old(popups), settings.parent).value;
        var surface := old(nextObject);
        var size := settings.positionerSize.value;
        var (vp, fs, next) := WS.ScalingObjectIds(surface, hasViewporter, hasFractionalScaling);
        && r.value == (settings.id, parent.0.surface, parent.1, surface)
        && Snapshot() == old(Snapshot()).(
             popups := old(popups) + [SctkPopup(surface, None, WS.PopupData(settings.id, parent.0, parent.1, size), None, fs, vp)],
             nextObject := next)
        && requests == old(requests) + old(PopupSetupRequests(surface, settings.grab, size))
    {
      var parent := ParentOf(layerSurfaces, windows, popups, settings.parent);
      if parent.None? {
        return Failure(WS.ParentMissing);
      }
      if settings.positionerSize.None? {
        return Failure(WS.SizeMissing);
      }
      if fault == WS.PositionerFault {
        return Failure(WS.PositionerCreationFailed);
      }
      var surface := Fresh();
      if fault == WS.PopupFault {
        return Failure(WS.PopupCreationFailed);
      }
      var size := settings.positionerSize.value;
      var (kind, toplevel) := parent.value;
      AttachPopup(settings.id, kind, toplevel, size, settings.grab, surface);
      r := Success((settings.id, kind.surface, toplevel, surface));
    }

    /** Grabs, commits, binds the scaling objects and records the popup on the just-created `surface`. */
    method AttachPopup(id: W.Id, parent: WS.SctkSurface, toplevel: ObjectId, size: (u32, u32), grab: bool, surface: ObjectId)
      requires nextObject == surface + 1
      modifies this
      ensures
        var (vp, fs, next) := WS.ScalingObjectIds(surface, hasViewporter, hasFractionalScaling);
        Snapshot() == old(Snapshot()).(
          popups := old(popups) + [SctkPopup(surface, None, WS.PopupData(id, parent, toplevel, size), None, fs, vp)],
          nextObject := next)
      ensures requests == old(requests) + old(PopupSetupRequests(surface, grab, size))
    {
      var setup := PopupSetupRequests(surface, grab, size);
      requests := requests + setup;
      var vp, fs := ScalingObjects(surface);
      popups := popups + [SctkPopup(surface, None, WS.PopupData(id, parent, toplevel, size), None, fs, vp)];
    }

    /**
     * What `get_window` sends for a new window on `surface`: the decoration
     * mode, the app id, the size limits that survive `LimitSize`, the title,
     * the geometry at the requested size, a commit, and the activation when
     * there is a token and the activation global is bound.
     */
    function WindowSetupRequests(surface: ObjectId, settings: RW.SctkWindowSettings): seq<Request>
    {
      var limits := settings.sizeLimits;
      var minSize := LimitSize(RW.Finite(limits.minWidth), RW.Finite(limits.minHeight));
      var maxSize := LimitSize(limits.maxWidth, limits.maxHeight);
      [RequestDecorationMode(surface, settings.clientDecorations)]
      + (if settings.appId.Some? then [SetAppId(surface, settings.appId.value)] else [])
      + (if minSize.Some? then [SetMinSize(surface, minSize)] else [])
      + (if maxSize.Some? then [SetMaxSize(surface, maxSize)] else [])
      + (if settings.title.Some? then [SetTitle(surface, settings.title.value)] else [])
      + [SetWindowGeometry(surface, 0, 0, settings.size.0, settings.size.1), Commit(surface)]
      + (if settings.xdgActivationToken.Some? && hasActivation then [Activate(surface, settings.xdgActivationToken.value)] else [])
    }

    /**
     * `get_window`: creates the surface and the toplevel, sends the setup
     * requests, binds the scaling objects and records the window with its
     * size (a zero side becoming 1) as both requested and current size, not
     * yet configured.
     */
    method GetWindow(settings: RW.SctkWindowSettings) returns (id: W.Id, surface: ObjectId)
      modifies this
      ensures id == settings.windowId && surface == old(nextObject)
      ensures
        var size := (WS.NonZeroOrOne(settings.size.0), WS.NonZeroOrOne(settings.size.1));
        var (vp, fs, next) := WS.ScalingObjectIds(surface, hasViewporter, hasFractionalScaling);
        && Snapshot() == old(Snapshot()).(
             windows := old(windows) + [WS.Window(id, surface, None, Some(size), size, None, settings.resizable, fs, vp)],
             nextObject := next)
        && requests == old(requests) + WindowSetupRequests(surface, settings)
    {
      surface := Fresh();
      id := settings.windowId;
      requests := requests + WindowSetupRequests(surface, settings);
      var vp, fs := ScalingObjects(surface);
      var size := (WS.NonZeroOrOne(settings.size.0), WS.NonZeroOrOne(settings.size.1));
      windows := windows + [WS.Window(id, surface, None, Some(size), size, None, settings.resizable, fs, vp)];
    }

    /**
     * `get_layer_surface`: needs the layer shell, then a size (a missing one
     * panics); creates the surface, clears stretched dimensions, sends the
     * initial layer state and a commit, binds the scaling objects and records
     * the surface, not yet configured and with no current size.
     */
    method GetLayerSurface(settings: WS.LayerSurfaceSettings) returns (r: Result<(W.Id, ObjectId), WS.LayerSurfaceCreationError>)
      requires hasLayerShell ==> settings.size.Some?
      modifies this
      ensures r.Failure? <==> !hasLayerShell
      ensures r.Failure? ==> r.error == WS.LayerShellNotSupported && Snapshot() == old(Snapshot()) && requests == old(requests)
      ensures r.Success? ==>
        var surface := old(nextObject);
        var size := ClearStretched(settings.size.value, settings.anchor);
        var (vp, fs, next) := WS.ScalingObjectIds(surface, hasViewporter, hasFractionalScaling);
        && r.value == (settings.id, surface)
        && Snapshot() == old(Snapshot()).(
             layerSurfaces := old(layerSurfaces) + [SctkLayerSurface(settings.id, surface, size, None, settings.layer, settings.anchor,
                                                                     settings.keyboardInteractivity, settings.margin,
                                                                     settings.exclusiveZone, None, None, fs, vp)],
             nextObject := next)
        && requests == old(requests)
             + [SetAnchor(surface, settings.anchor), SetKeyboardInteractivity(surface, settings.keyboardInteractivity),
                SetMargin(surface, settings.margin), SetLayerSize(surface, size.0.GetOr(0), size.1.GetOr(0)),
                SetExclusiveZone(surface, settings.exclusiveZone)]
             + (if settings.pointerInteractivity then [] else [SetEmptyInputRegion(surface)])
             + [Commit(surface)]
    {
      if !hasLayerShell {
        return Failure(WS.LayerShellNotSupported);
      }
      var surface := Fresh();
      var size := ClearStretched(settings.size.value, settings.anchor);
      requests := requests
        + [SetAnchor(surface, settings.anchor), SetKeyboardInteractivity(surface, settings.keyboardInteractivity),
           SetMargin(surface, settings.margin), SetLayerSize(surface, size.0.GetOr(0), size.1.GetOr(0)),
           SetExclusiveZone(surface, settings.exclusiveZone)];
      if !settings.pointerInteractivity {
        requests := requests + [SetEmptyInputRegion(surface)];
      }
      requests := requests + [Commit(surface)];
      var vp, fs := ScalingObjects(surface);
      layerSurfaces := layerSurfaces + [SctkLayerSurface(settings.id, surface, size, None, settings.layer, settings.anchor,
                                                         settings.keyboardInteractivity, settings.margin,
                                                         settings.exclusiveZone, None, None, fs, vp)];
      r := Success((settings.id, surface));
    }

    /** `get_lock_surface`: only while the session is locked, a new surface recorded as an unconfigured lock surface. */
    method GetLockSurface(id: W.Id) returns (r: Option<ObjectId>)
      modifies this
      ensures r.None? <==> old(sessionLock).None?
      ensures r.None? ==> Snapshot() == old(Snapshot()) && requests == old(requests)
      ensures r.Some? ==>
        && r.value == old(nextObject)
        && Snapshot() == old(Snapshot()).(lockSurfaces := old(lockSurfaces) + [SctkLockSurface(id, r.value, None)],
                                          nextObject := r.value + 1)
        && requests == old(requests)
    {
      if sessionLock.None? {
        return None;
      }
      var surface := Fresh();
      lockSurfaces := lockSurfaces + [SctkLockSurface(id, surface, None)];
      r := Some(surface);
    }
  }
}
