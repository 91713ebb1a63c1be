/**
 * The window handle winit sees for a layer surface, popup or lock surface:
 * it reads the shared block and turns the few window calls that mean
 * something for these surfaces into messages to the event-loop thread.
 */
module WinitWindow {
  import opened Wrappers
  import opened Numeric
  import opened Protocol
  import W = WindowId
  import opened WinitState
  import opened WinitLoop

  /** Which kind of surface a handle wraps, and the application's id for it. */
  datatype SurfaceIdWrapper =
    | LayerSurfaceId(id: W.Id)
    | WindowSurfaceId(id: W.Id)
    | PopupId(id: W.Id)
    | SessionLockId(id: W.Id)

  /** A cursor: a named icon, or a custom image the handle does not support. */
  datatype Cursor = Icon(icon: CursorIcon) | Custom(image: nat)

  /** `NotSupportedError`. */
  datatype NotSupportedError = NotSupportedError

  /**
   * The action `request_inner_size` sends for a logical size: a layer surface
   * asks for both dimensions, a popup for its new size, a lock surface for
   * nothing. (A window handle never gets here.)
   */
  function InnerSizeAction(wrapper: SurfaceIdWrapper, width: u32, height: u32): (r: Option<Action>)
    requires !wrapper.WindowSurfaceId?
    ensures r.None? <==> wrapper.SessionLockId?
    ensures wrapper.LayerSurfaceId? ==> r == Some(OnLayer(ResizeLayer(wrapper.id, Some(width), Some(height))))
    ensures wrapper.PopupId? ==> r == Some(OnPopup(ResizePopup(wrapper.id, width, height)))
  {
    match wrapper
    case LayerSurfaceId(id) => Some(OnLayer(ResizeLayer(id, Some(width), Some(height))))
    case PopupId(id) => Some(OnPopup(ResizePopup(id, width, height)))
    case SessionLockId(_) => None
  }

  /**
   * A resize request from a handle addresses the surface the handle wraps,
   * asks for exactly the size given, and is never a creation or destruction.
   */
  lemma InnerSizeActionTargetsItsSurface(wrapper: SurfaceIdWrapper, width: u32, height: u32)
    requires !wrapper.WindowSurfaceId?
    ensures var r := InnerSizeAction(wrapper, width, height);
      r.Some? ==>
        && (r.value.OnLayer? || r.value.OnPopup?)
        && (r.value.OnLayer? ==>
              r.value.layerAction.ResizeLayer? && r.value.layerAction.id == wrapper.id
              && r.value.layerAction.width == Some(width) && r.value.layerAction.height == Some(height))
        && (r.value.OnPopup? ==>
              r.value.popupAction.ResizePopup? && r.value.popupAction.id == wrapper.id
              && (r.value.popupAction.width, r.value.popupAction.height) == (width, height))
  {
  }

  /** `SctkWinitWindow`: the handle; `tx` is everything it has sent on its channel. */
  class SctkWinitWindow {
    var tx: seq<Message>
    const wrapper: SurfaceIdWrapper
    const surface: ObjectId
    const common: Common

    constructor (common: Common, wrapper: SurfaceIdWrapper, surface: ObjectId)
      ensures tx == [] && this.common == common && this.wrapper == wrapper && this.surface == surface
    {
      tx := [];
      this.common := common;
      this.wrapper := wrapper;
      this.surface := surface;
    }

    /** `id`: the winit window id is the surface's protocol object id and nothing else. */
    function Id(): (r: ObjectId)
      ensures r == surface
    {
      surface
    }

    /** `scale_factor`: the fractional scale in the shared block, 1 until one is known. */
    function ScaleFactor(): (r: real)
      reads common
      ensures common.fractionalScale.Some? ==> r == common.fractionalScale.value
      ensures common.fractionalScale.None? ==> r == 1.0
    {
      common.fractionalScale.GetOr(1.0)
    }

    /** `request_redraw`: exactly one `RequestRedraw` for this surface. */
    method RequestRedraw()
      modifies this
      ensures tx == old(tx) + [RequestRedrawMessage(surface)]
    {
      tx := tx + [RequestRedrawMessage(surface)];
    }

    /** `pre_present_notify`: exactly one `PrePresentNotify` for this surface. */
    method PrePresentNotify()
      modifies this
      ensures tx == old(tx) + [PrePresentNotifyMessage(surface)]
    {
      tx := tx + [PrePresentNotifyMessage(surface)];
    }

    /** `set_cursor`: an icon goes to the event loop; a custom cursor is dropped. */
    method SetCursor(cursor: Cursor)
      modifies this
      ensures cursor.Icon? ==> tx == old(tx) + [SetCursorMessage(cursor.icon)]
      ensures cursor.Custom? ==> tx == old(tx)
    {
      if cursor.Icon? {
        tx := tx + [SetCursorMessage(cursor.icon)];
      }
    }

    /**
     * `request_inner_size` for a logical size: sends the resize action of
     * `InnerSizeAction`, if any, and never reports a size back.
     */
    method RequestInnerSize(width: u32, height: u32) returns (r: Option<(u32, u32)>)
      requires !wrapper.WindowSurfaceId?
      modifies this
      ensures r.None?
      ensures wrapper.SessionLockId? ==> tx == old(tx)
      ensures !wrapper.SessionLockId? ==> tx == old(tx) + [ActionMessage(InnerSizeAction(wrapper, width, height).value)]
    {
      var action := InnerSizeAction(wrapper, width, height);
      if action.Some? {
        tx := tx + [ActionMessage(action.value)];
      }
      r := None;
    }

    /** `inner_position`: never supported. */
    function InnerPosition(): Result<(int, int), NotSupportedError>
    {
      Failure(NotSupportedError)
    }

    /** `outer_position`: always the origin. */
    function OuterPosition(): Result<(int, int), NotSupportedError>
    {
      Success((0, 0))
    }

    function IsMaximized(): bool { false }
    function IsDecorated(): bool { false }
    function IsResizable(): bool { false }
    function IsMinimized(): Option<bool> { None }
    function IsVisible(): Option<bool> { None }
    /** `fullscreen` and `theme` never have a value; `()` stands for their payload. */
    function Fullscreen(): Option<()> { None }
    function Theme(): Option<()> { None }
  }

  /**
   * What a wrapped surface reports about itself never depends on it: no
   * inner position, the origin as outer position, not maximized, decorated or
   * resizable, and no minimized, visible, fullscreen or theme answer.
   */
  lemma ConstantGetters(a: SctkWinitWindow, b: SctkWinitWindow)
    ensures a.InnerPosition() == b.InnerPosition() == Failure(NotSupportedError)
    ensures a.OuterPosition() == b.OuterPosition() == Success((0, 0))
    ensures !a.IsMaximized() && !a.IsDecorated() && !a.IsResizable()
    ensures a.IsMinimized().None? && a.IsVisible().None? && a.Fullscreen().None? && a.Theme().None?
  {
  }
}
