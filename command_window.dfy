/**
 * The command-layer variant of the Wayland window actions: a richer action set
 * tagged with the message type of the command that carries it, and its
 * translation from generic window commands.
 */
module CommandWindow {
  import opened Wrappers
  import opened Numeric
  import opened Protocol
  import W = WindowId
  import R = RuntimeWindow

  /** The window modes a `Mode` action selects. */
  datatype Mode = Windowed | FullscreenMode | Hidden

  /** `SctkWindowSettings::default` of this layer: the reserved first-window id `main`. */
  function DefaultSettings(main: W.Id): (s: R.SctkWindowSettings)
    ensures s.windowId == main
    ensures s.size == (1024, 768) && s.resizable == Some(8.0) && s.clientDecorations
    ensures s == R.DefaultSettingsWithId(main)
  {
    R.DefaultSettingsWithId(main)
  }

  /**
   * Window actions of a command producing messages of type `T`; `T` is only a
   * marker (a `PhantomData` in the builder variant).
   */
  datatype Action<T> =
    | Window(builder: R.SctkWindowSettings)
    | Destroy(id: W.Id)
    | Size(id: W.Id, width: u32, height: u32)
    | MinSize(id: W.Id, limit: Option<(u32, u32)>)
    | MaxSize(id: W.Id, limit: Option<(u32, u32)>)
    | Title(id: W.Id, title: string)
    | Minimize(id: W.Id)
    | ToggleMaximized(id: W.Id)
    | Maximize(id: W.Id)
    | UnsetMaximize(id: W.Id)
    | ToggleFullscreen(id: W.Id)
    | Fullscreen(id: W.Id)
    | UnsetFullscreen(id: W.Id)
    | InteractiveResize(id: W.Id, edge: ResizeEdge)
    | InteractiveMove(id: W.Id)
    | ShowWindowMenu(id: W.Id, x: int, y: int)
    | SetMode(id: W.Id, mode: Mode)
    | AppId(id: W.Id, appId: string)

  /** `Action::map`: re-tags the action with another message type; the closure is never called. */
  function Map<T, A>(a: Action<T>, f: T -> A): (r: Action<A>)
    ensures a.Window? <==> r.Window?
    ensures a.Window? ==> r.builder == a.builder
    ensures !a.Window? ==> r.id == a.id
  {
    match a
    case Window(b) => Window(b)
    case Destroy(id) => Destroy(id)
    case Size(id, w, h) => Size(id, w, h)
    case MinSize(id, s) => MinSize(id, s)
    case MaxSize(id, s) => MaxSize(id, s)
    case Title(id, t) => Title(id, t)
    case Minimize(id) => Minimize(id)
    case ToggleMaximized(id) => ToggleMaximized(id)
    case Maximize(id) => Maximize(id)
    case UnsetMaximize(id) => UnsetMaximize(id)
    case ToggleFullscreen(id) => ToggleFullscreen(id)
    case Fullscreen(id) => Fullscreen(id)
    case UnsetFullscreen(id) => UnsetFullscreen(id)
    case InteractiveResize(id, e) => InteractiveResize(id, e)
    case InteractiveMove(id) => InteractiveMove(id)
    case ShowWindowMenu(id, x, y) => ShowWindowMenu(id, x, y)
    case SetMode(id, m) => SetMode(id, m)
    case AppId(id, s) => AppId(id, s)
  }

  /**
   * `map` keeps the variant and every payload: mapping there and back with any
   * closures gives the original action, and mapping to the same type is the identity.
   */
  lemma MapPreservesPayload<T, A>(a: Action<T>, f: T -> A, g: A -> T)
    ensures Map(Map(a, f), g) == a
    ensures Map(a, (x: T) => x) == a
  {
  }

  /** Generic window commands; reply channels are dropped. */
  datatype GenericAction<T> =
    | Spawn(id: W.Id, settings: R.WindowSettings)
    | Close(id: W.Id)
    | Resize(id: W.Id, size: R.LogicalSize)
    | Drag(id: W.Id)
    | FetchSize(id: W.Id)
    | FetchMaximized(id: W.Id)
    | MaximizeTo(id: W.Id, maximized: bool)
    | MinimizeTo(id: W.Id, minimized: bool)
    | Move(id: W.Id, x: real, y: real)
    | FetchMode(id: W.Id)
    | ChangeMode(id: W.Id, mode: Mode)
    | ToggleMaximize(id: W.Id)
    | ToggleDecorations(id: W.Id)
    | RequestUserAttention(id: W.Id)
    | GainFocus(id: W.Id)
    | ChangeLevel(id: W.Id)
    | ShowWindowMenuAt(id: W.Id)
    | FetchId(id: W.Id)
    | ChangeIcon(id: W.Id)
    | Screenshot(id: W.Id)
    | FetchMinimized(id: W.Id)

  datatype Error = NotSupported

  /** The generic commands that have a Wayland counterpart. */
  predicate Supported<T>(a: GenericAction<T>)
  {
    a.Spawn? || a.Close? || a.Resize? || a.Drag? || a.MaximizeTo? || a.ChangeMode?
    || (a.MinimizeTo? && a.minimized)
  }

  /** `TryFrom<window::Action<T>> for Action<T>`. */
  function TryFrom<T>(a: GenericAction<T>): (r: Result<Action<T>, Error>)
    ensures r.Success? <==> Supported(a)
  {
    match a
    case Spawn(id, s) => Success(Window(R.BuilderFor(id, s)))
    case Close(id) => Success(Destroy(id))
    case Resize(id, size) => Success(Size(id, R.RoundAsU32(size.width), R.RoundAsU32(size.height)))
    case Drag(id) => Success(InteractiveMove(id))
    case MaximizeTo(id, maximized) => Success(if maximized then Maximize(id) else UnsetMaximize(id))
    case MinimizeTo(id, minimized) => if minimized then Success(Minimize(id)) else Failure(NotSupported)
    case ChangeMode(id, m) => Success(SetMode(id, m))
    case _ => Failure(NotSupported)
  }

  /**
   * Supported commands keep their window id: `Close` destroys it, `Drag` moves
   * it, `Maximize(true/false)` maximizes or unmaximizes it, `Minimize(true)`
   * minimizes it, `ChangeMode` sets its mode and `Resize` sizes it to the
   * rounded size.
   */
  lemma TranslationKeepsId<T>(a: GenericAction<T>)
    ensures a.Close? ==> TryFrom(a) == Success(Destroy(a.id))
    ensures a.Drag? ==> TryFrom(a) == Success(InteractiveMove(a.id))
    ensures a.MaximizeTo? && a.maximized ==> TryFrom(a) == Success(Maximize(a.id))
    ensures a.MaximizeTo? && !a.maximized ==> TryFrom(a) == Success(UnsetMaximize(a.id))
    ensures a.MinimizeTo? ==> TryFrom(a) == (if a.minimized then Success(Minimize(a.id)) else Failure(NotSupported))
    ensures a.ChangeMode? ==> TryFrom(a) == Success(SetMode(a.id, a.mode))
    ensures a.Resize? ==> TryFrom(a).value.Size? && TryFrom(a).value.id == a.id
    ensures a.Resize? ==> TryFrom(a).value.width == R.RoundAsU32(a.size.width) && TryFrom(a).value.height == R.RoundAsU32(a.size.height)
  {
  }

  /**
   * `Spawn` builds the same window the platform layer's `Open` builds: minimum
   * size 1x1 when none is given, client decorations exactly when server
   * decorations are off, and a resize border exactly when resizable.
   */
  lemma SpawnMatchesOpen<T>(id: W.Id, s: R.WindowSettings)
    ensures TryFrom<T>(Spawn(id, s)).Success?
    ensures R.TryFrom(R.Open(id, s)).Success?
    ensures TryFrom<T>(Spawn(id, s)).value.builder == R.TryFrom(R.Open(id, s)).value.builder
    ensures TryFrom<T>(Spawn(id, s)).value.builder.clientDecorations == !s.decorations
    ensures s.minSize.None? ==> TryFrom<T>(Spawn(id, s)).value.builder.sizeLimits.minWidth == 1.0
  {
  }
}
