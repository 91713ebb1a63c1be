/**
 * The Wayland protocol objects and requests the surface coordinator deals with.
 * Protocol objects are opaque handles; requests sent to the compositor are
 * recorded as `Request` entries of an effect log.
 */
module Protocol {
  import opened Wrappers
  import opened Numeric

  /** A protocol object's id (`ObjectId`): surfaces, seats, pointers, viewports. */
  type ObjectId = nat

  /** `xdg_toplevel.resize_edge`. */
  datatype ResizeEdge = NoEdge | Top | Bottom | Left | TopLeft | BottomLeft | Right | TopRight | BottomRight

  /** The cursor shapes the coordinator uses. */
  datatype CursorIcon =
    | DefaultCursor
    | NResize | SResize | WResize | EResize
    | NwResize | SwResize | NeResize | SeResize
    | OtherIcon(name: string)

  /** The layer of a layer-shell surface. */
  datatype Layer = Background | Bottom | Top | Overlay

  /** The edges a layer-shell surface is anchored to. */
  datatype Anchor = Anchor(top: bool, bottom: bool, left: bool, right: bool)

  datatype KeyboardInteractivity = NoKeyboard | Exclusive | OnDemand

  datatype Margin = Margin(top: int, right: int, bottom: int, left: int)

  /** A request sent to the compositor. */
  datatype Request =
    | SetWindowGeometry(surface: ObjectId, x: int, y: int, width: nat, height: nat)
    | SetDestination(viewport: ObjectId, width: nat, height: nat)
    | SetBufferScale(surface: ObjectId, scale: real)
    | Commit(surface: ObjectId)
    | Roundtrip
    | Grab(popup: ObjectId, seat: ObjectId, serial: u32)
    | Resize(surface: ObjectId, seat: ObjectId, serial: u32, edge: ResizeEdge)
    | Move(surface: ObjectId, seat: ObjectId, serial: u32)
    | SetCursor(pointer: ObjectId, icon: CursorIcon)
    | SetLayerSize(surface: ObjectId, width: nat, height: nat)
    | SetAnchor(surface: ObjectId, anchor: Anchor)
    | SetExclusiveZone(surface: ObjectId, zone: int)
    | SetMargin(surface: ObjectId, margin: Margin)
    | SetKeyboardInteractivity(surface: ObjectId, value: KeyboardInteractivity)
    | SetLayer(surface: ObjectId, layer: Layer)
    | SetEmptyInputRegion(surface: ObjectId)
    | SetMinSize(surface: ObjectId, size: Option<(u32, u32)>)
    | SetMaxSize(surface: ObjectId, size: Option<(u32, u32)>)
    | SetTitle(surface: ObjectId, title: string)
    | SetAppId(surface: ObjectId, appId: string)
    | RequestDecorationMode(surface: ObjectId, client: bool)
    | SetPositionerSize(surface: ObjectId, width: nat, height: nat)
    | Reposition(surface: ObjectId, token: u32)
    | Activate(surface: ObjectId, activationToken: string)
    | DestroySurface(surface: ObjectId)
    | Unlock(lock: ObjectId)
}
