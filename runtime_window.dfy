/**
 * Window settings and window actions of the Wayland platform layer, and the
 * translation of generic window actions into them.
 */
module RuntimeWindow {
  import opened Wrappers
  import opened Numeric
  import opened Protocol
  import W = WindowId

  /** A length bound that may be unbounded (`f32::INFINITY`). */
  datatype Extent = Finite(v: real) | Infinite

  /** The size bounds a window builder asks for. */
  datatype SizeLimits = SizeLimits(minWidth: real, minHeight: real, maxWidth: Extent, maxHeight: Extent)

  /** `SctkWindowSettings`: what a window is created with. */
  datatype SctkWindowSettings = SctkWindowSettings(
    windowId: W.Id,
    appId: Option<string>,
    title: Option<string>,
    parent: Option<W.Id>,
    autosize: bool,
    sizeLimits: SizeLimits,
    size: (u32, u32),
    resizable: Option<real>,
    clientDecorations: bool,
    transparent: bool,
    xdgActivationToken: Option<string>)

  /** `Limits::NONE`: no minimum and no maximum. */
  const NO_LIMITS: SizeLimits := SizeLimits(0.0, 0.0, Infinite, Infinite)

  function RealMax(x: real, y: real): real { if x >= y then x else y }

  /** `x.min(e)`: an unbounded extent leaves `x` as it is. */
  function MinExtent(x: real, e: Extent): real
  {
    match e
    case Infinite => x
    case Finite(v) => if v <= x then v else x
  }

  /** `e.min(f)` over extents. */
  function ExtentMin(e: Extent, f: Extent): Extent
  {
    match (e, f)
    case (Infinite, _) => f
    case (_, Infinite) => e
    case (Finite(x), Finite(y)) => Finite(if x <= y then x else y)
  }

  /** `e.max(x)`: an unbounded extent stays unbounded. */
  function ExtentAtLeast(e: Extent, x: real): Extent
  {
    match e
    case Infinite => Infinite
    case Finite(v) => Finite(RealMax(v, x))
  }

  /**
   * `Limits::min_width` and `min_height`: the minimum is raised to the given
   * value, but never above the maximum.
   */
  function WithMinWidth(l: SizeLimits, w: real): SizeLimits
  {
    l.(minWidth := MinExtent(RealMax(l.minWidth, w), l.maxWidth))
  }

  function WithMinHeight(l: SizeLimits, h: real): SizeLimits
  {
    l.(minHeight := MinExtent(RealMax(l.minHeight, h), l.maxHeight))
  }

  /**
   * `Limits::max_width` and `max_height`: the maximum is lowered to the given
   * value, but never below the minimum.
   */
  function WithMaxWidth(l: SizeLimits, w: Extent): SizeLimits
  {
    l.(maxWidth := ExtentAtLeast(ExtentMin(l.maxWidth, w), l.minWidth))
  }

  function WithMaxHeight(l: SizeLimits, h: Extent): SizeLimits
  {
    l.(maxHeight := ExtentAtLeast(ExtentMin(l.maxHeight, h), l.minHeight))
  }

  /** The builder chain `Limits::NONE.min_width(..).min_height(..).max_width(..).max_height(..)`. */
  function BuildLimits(minWidth: real, minHeight: real, maxWidth: Extent, maxHeight: Extent): SizeLimits
  {
    WithMaxHeight(WithMaxWidth(WithMinHeight(WithMinWidth(NO_LIMITS, minWidth), minHeight), maxWidth), maxHeight)
  }

  /** The limits every default builder carries: at least 1x1, at most 1920x1080. */
  const DEFAULT_LIMITS: SizeLimits := BuildLimits(1.0, 1.0, Finite(1920.0), Finite(1080.0))

  /** The fields every default builder shares; only the window id differs between callers. */
  function DefaultSettingsWithId(windowId: W.Id): (s: SctkWindowSettings)
    ensures s.windowId == windowId
    ensures s.size == (1024, 768) && s.resizable == Some(8.0)
    ensures s.clientDecorations && !s.transparent && !s.autosize
    ensures s.sizeLimits == DEFAULT_LIMITS
    ensures s.sizeLimits == SizeLimits(1.0, 1.0, Finite(1920.0), Finite(1080.0))
    ensures s.appId.None? && s.title.None? && s.parent.None? && s.xdgActivationToken.None?
  {
    SctkWindowSettings(windowId, None, None, None, false, DEFAULT_LIMITS, (1024, 768), Some(8.0), true, false, None)
  }

  /** `SctkWindowSettings::default`: a fresh unique window id with the default fields. */
  method DefaultSettings(ids: W.IdAllocator) returns (s: SctkWindowSettings)
    modifies ids
    ensures (s.windowId, ids.count) == W.UniqueStep(old(ids.count))
    ensures s == DefaultSettingsWithId(s.windowId)
  {
    var id := ids.Unique();
    s := DefaultSettingsWithId(id);
  }

  /** The Wayland window actions. */
  datatype Action =
    | Window(builder: SctkWindowSettings)
    | Destroy(id: W.Id)
    | Size(id: W.Id, width: u32, height: u32)
    | MinSize(id: W.Id, limit: Option<(u32, u32)>)
    | MaxSize(id: W.Id, limit: Option<(u32, u32)>)
    | Title(id: W.Id, title: string)
    | InteractiveResize(id: W.Id, edge: ResizeEdge)
    | InteractiveMove(id: W.Id)
    | AppId(id: W.Id, appId: string)

  datatype Error = NotSupported

  /** A logical size in floating-point units. */
  datatype LogicalSize = LogicalSize(width: real, height: real)

  /** The generic window settings the translation reads. */
  datatype WindowSettings = WindowSettings(
    size: LogicalSize,
    minSize: Option<LogicalSize>,
    maxSize: Option<LogicalSize>,
    resizable: bool,
    resizeBorder: nat,
    decorations: bool,
    transparent: bool,
    applicationId: string)

  /** Generic window actions; reply channels and callbacks are dropped. */
  datatype GenericAction =
    | Open(id: W.Id, settings: WindowSettings)
    | Close(id: W.Id)
    | Resize(id: W.Id, size: LogicalSize)
    | Drag(id: W.Id)
    | GetSize(id: W.Id)
    | Maximize(id: W.Id, maximized: bool)
    | Minimize(id: W.Id, minimized: bool)
    | GetMaximized(id: W.Id)
    | Move(id: W.Id, x: real, y: real)
    | GetMode(id: W.Id)
    | ToggleMaximize(id: W.Id)
    | ToggleDecorations(id: W.Id)
    | RequestUserAttention(id: W.Id)
    | GainFocus(id: W.Id)
    | ChangeLevel(id: W.Id)
    | GetRawId(id: W.Id)
    | ChangeIcon(id: W.Id)
    | Screenshot(id: W.Id)
    | ChangeMode(id: W.Id)
    | ShowSystemMenu(id: W.Id)
    | RunWithHandle(id: W.Id)
    | GetPosition(id: W.Id)
    | GetMinimized(id: W.Id)
    | GetOldest
    | GetLatest

  /** `f32::round`: to the nearest integer, halves away from zero. */
  function RoundHalfAway(x: real): (n: int)
    ensures -0.5 <= n as real - x <= 0.5
    ensures x >= 0.0 ==> n >= 0
  {
    if x >= 0.0 then (x + 0.5).Floor else -((-x + 0.5).Floor)
  }

  /** `x.round() as u32`: rounds, then saturates into `0..=u32::MAX`. */
  function RoundAsU32(x: real): (r: u32)
    ensures x <= 0.0 ==> r == 0
    ensures x >= U32_MAX as real ==> r == U32_MAX
    ensures 0.0 <= x <= U32_MAX as real ==> -0.5 <= r as real - x <= 0.5
  {
    var n := RoundHalfAway(x);
    if n < 0 then 0 else if n > U32_MAX then U32_MAX else n
  }

  /** The builder an `Open` (or `Spawn`) request turns into. */
  function BuilderFor(id: W.Id, s: WindowSettings): (b: SctkWindowSettings)
    ensures b.windowId == id
    ensures b.appId == Some(s.applicationId)
    ensures b.title.None? && b.parent.None? && !b.autosize && b.xdgActivationToken.None?
    ensures b.clientDecorations == !s.decorations
    ensures b.resizable.Some? <==> s.resizable
    ensures s.resizable ==> b.resizable == Some(s.resizeBorder as real)
    ensures b.transparent == s.transparent
    ensures s.minSize.None? ==> b.sizeLimits.minWidth == 1.0 && b.sizeLimits.minHeight == 1.0
    ensures s.minSize.Some? ==> b.sizeLimits.minWidth == RealMax(0.0, s.minSize.value.width)
    ensures s.minSize.Some? ==> b.sizeLimits.minHeight == RealMax(0.0, s.minSize.value.height)
    ensures s.maxSize.None? ==> b.sizeLimits.maxWidth == Infinite && b.sizeLimits.maxHeight == Infinite
    ensures s.maxSize.Some? ==> b.sizeLimits.maxWidth == Finite(RealMax(s.maxSize.value.width, b.sizeLimits.minWidth))
    ensures s.maxSize.Some? ==> b.sizeLimits.maxHeight == Finite(RealMax(s.maxSize.value.height, b.sizeLimits.minHeight))
    ensures b.sizeLimits.maxWidth.Finite? ==> b.sizeLimits.minWidth <= b.sizeLimits.maxWidth.v
    ensures b.sizeLimits.maxHeight.Finite? ==> b.sizeLimits.minHeight <= b.sizeLimits.maxHeight.v
    ensures b.size == (RoundAsU32(s.size.width), RoundAsU32(s.size.height))
  {
    var min := s.minSize.GetOr(LogicalSize(1.0, 1.0));
    var limits :=
      match s.maxSize
      case None => BuildLimits(min.width, min.height, Infinite, Infinite)
      case Some(max) => BuildLimits(min.width, min.height, Finite(max.width), Finite(max.height));
    SctkWindowSettings(
      id, Some(s.applicationId), None, None, false, limits,
      (RoundAsU32(s.size.width), RoundAsU32(s.size.height)),
      if s.resizable then Some(s.resizeBorder as real) else None,
      !s.decorations, s.transparent, None)
  }

  /** `GetOldest` and `GetLatest` are left as `todo!()` and panic. */
  predicate Implemented(a: GenericAction)
  {
    !a.GetOldest? && !a.GetLatest?
  }

  /** `TryFrom<window::Action> for Action`. */
  function TryFrom(a: GenericAction): (r: Result<Action, Error>)
    requires Implemented(a)
    ensures r.Success? <==> a.Open? || a.Close? || a.Resize? || a.Drag?
  {
    match a
    case Open(id, s) => Success(Window(BuilderFor(id, s)))
    case Close(id) => Success(Destroy(id))
    case Resize(id, size) => Success(Size(id, RoundAsU32(size.width), RoundAsU32(size.height)))
    case Drag(id) => Success(InteractiveMove(id))
    case _ => Failure(NotSupported)
  }

  /**
   * The supported translations keep the window id: `Open` builds a window for
   * it, `Close` destroys it, `Resize` sizes it to the rounded size and `Drag`
   * moves it.
   */
  lemma TranslationKeepsId(a: GenericAction)
    requires Implemented(a) && TryFrom(a).Success?
    ensures a.Open? ==> TryFrom(a).value == Window(BuilderFor(a.id, a.settings))
    ensures a.Open? ==> TryFrom(a).value.builder.windowId == a.id
    ensures a.Close? ==> TryFrom(a).value == Destroy(a.id)
    ensures a.Resize? ==> TryFrom(a).value.Size? && TryFrom(a).value.id == a.id
    ensures a.Resize? ==> TryFrom(a).value.width == RoundAsU32(a.size.width) && TryFrom(a).value.height == RoundAsU32(a.size.height)
    ensures a.Drag? ==> TryFrom(a).value == InteractiveMove(a.id)
  {
  }

  /** Maximizing and minimizing are not supported here, whatever the flag says. */
  lemma MaximizeMinimizeUnsupported(id: W.Id, flag: bool)
    ensures TryFrom(Maximize(id, flag)) == Failure(NotSupported)
    ensures TryFrom(Minimize(id, flag)) == Failure(NotSupported)
  {
  }
}
