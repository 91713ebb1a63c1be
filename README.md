# Wayland surface coordinator of iced (sctk / winit back-ends)

This project models the Wayland surface coordinator of the iced GUI toolkit in Dafny.
The coordinator is a single-threaded registry of toplevel windows, layer-shell surfaces,
xdg popups and session-lock surfaces. It has rules that create, resize, rescale and
destroy those surfaces in response to application actions and compositor events.

The model covers:

- **The winit event loop's registry** (`WinitState`). The class `WaylandState` holds its
  lists, maps and counters, and one method handles each action of `handle_action`.
  - `Common`, the block a surface shares with the window handle, is a class, because
    both sides see the same object.
  - Protocol requests (`set_window_geometry`, `set_destination`, `commit`, `grab`,
    `resize`, `roundtrip`, …) are appended to a ghost log `requests`.
  - Protocol objects (`WlSurface`, viewports, locks) are natural-number ids. The
    compositor hands them out from the counter `nextObject`.
  - A panic of the event-loop thread is the outcome `Panicked`.
- **The winit loop** (`WinitLoop`): the message handler of the action channel, the
  subcompositor announcement, and one iteration of the dispatch loop. That iteration
  forwards the drained events and sends the redraws.
- **Pointer frames** (`Pointer`): resize-edge hit testing, cursor arbitration, forwarding
  by the first seat only, and per-seat focus and press tracking. The rest of a frame is
  abandoned once an event ends it.
- **The window handle** (`WinitWindow`): the handle winit holds for a layer surface, popup
  or lock surface. The channel it writes to is the sequence `tx`.
- **The generic sctk event loop's registry** (`SctkRegistry`) and its xdg toplevel
  handler (`XdgWindow`). `SctkWindow::update_size` in `sctk/src/event_loop/state.rs` is the
  same as the winit one, so `WinitState.UpdateSize` models both.
- **Action translators** from generic window actions to Wayland actions, with their
  default window settings: `RuntimeWindow` and `CommandWindow`.
- **Identifiers**: the window id allocator (`WindowId`), and the accessibility ids with
  their counters, conversions, `PartialEq`, `IdEq` and `Hash` (`AccessibilityId`).
- **Small values**: the drag-and-drop destination list and the null clipboard
  (`Clipboard`), the partial equality of Wayland window events (`WaylandEvent`), and the
  toggler widget (`Toggler`).

Integers are unbounded. `u32` and `u64` are subtypes of them, and the counters that wrap
are written with explicit wrap-around: the atomic window and widget id counters
(`Numeric.WrappingInc64`) and the popup reposition token `tokenCtr` (`Numeric.WrappingInc32`). Floating-point values
are `real`. Rust's `f as i32` on a float that fits is truncation toward zero
(`SctkRegistry.Trunc`), and `f32::round` rounds halves away from zero
(`RuntimeWindow.RoundHalfAway`).

Foreign calls are not modelled as code:

- Which optional globals were bound at start-up (layer shell, viewporter,
  fractional-scale manager, activation) is constructor input.
- Whether the compositor grants a session lock is constructor input (`canLock`).
- Which toolkit constructor fails while a popup is created is a `ToolkitFault` parameter.
- The events the Wayland handlers produce during one dispatch are the `dispatched`
  parameter of `WinitLoop.Iteration`.

## Model

| member | source | states |
|---|---|---|
| WindowId.UniqueStep | core/src/window/id.rs:18-25 | the id handed out is never `NONE`: it is the counter, or 1 when the counter yields 0 (a second draw); the counter then moves one past the id, wrapping at 2^64 |
| WindowId.IdAllocator.constructor | core/src/window/id.rs:11 | the global counter starts at 1 |
| WindowId.IdAllocator.Unique | core/src/window/id.rs:18-25 | `unique` returns exactly the id `UniqueStep` gives for the old counter and leaves the counter where `UniqueStep` puts it |
| WindowId.FirstUniqueIsOne | core/src/window/id.rs:11-25 | the first id a fresh counter hands out is `Id(1)` |
| WindowId.IssuedIncreasing | core/src/window/id.rs:18-25 | while the counter does not wrap, the n successive ids are count, count+1, …, strictly increasing and hence distinct |
| AccessibilityId.A11yFromU64 | accessibility/src/id.rs:23-27 | a number becomes a window node with that number |
| AccessibilityId.A11yFromId | accessibility/src/id.rs:29-34 | a non-set id becomes a widget node holding it; a set id is excluded, as the code asserts |
| AccessibilityId.IdFromU64 | accessibility/src/id.rs:106-110 | a number becomes the `Unique` id holding it, which converts back to the same number |
| AccessibilityId.IdToU64 | accessibility/src/id.rs:113-125 | the number of a non-set id; the unique id with that number is `IdEq`-equal to the id, from either side |
| AccessibilityId.FromNodeId | accessibility/src/id.rs:47-56 | a node id is a window node iff it is above `u32::MAX`; otherwise it is the widget `Unique(v)` |
| AccessibilityId.ToNodeId | accessibility/src/id.rs:58-66 | a window node above `u32::MAX` converts back to itself; a widget at or below `u32::MAX` converts back to an `IdEq`-equal widget, and a custom one not to itself |
| AccessibilityId.NodeIdRoundTrip | accessibility/src/id.rs:47-70 | every node id survives NodeId → A11yId → NodeId unchanged |
| AccessibilityId.A11yIdRoundTrip | accessibility/src/id.rs:47-70 | A11yId → NodeId → A11yId is the identity on window nodes above `u32::MAX` and on unique widgets at or below it |
| AccessibilityId.CustomLosesName | accessibility/src/id.rs:47-70 | a custom widget id comes back from the round trip as the unique id with its number, without its name |
| AccessibilityId.SameReflexive | accessibility/src/id.rs:159-168 | `PartialEq` on `Internal` is reflexive, recursively through sets |
| AccessibilityId.SameSymmetric | accessibility/src/id.rs:159-168 | `PartialEq` on `Internal` is symmetric |
| AccessibilityId.Same | accessibility/src/id.rs:159-168 | `PartialEq` never equates ids of different variants, and equates custom ids with the same name whatever their numbers |
| AccessibilityId.IdEq | accessibility/src/id.rs:175-192 | two custom ids are `IdEq`-equal iff their numbers or their names match; a unique and a custom id, either way round, iff their numbers match; two unique ids iff equal |
| AccessibilityId.SameImpliesIdEq | accessibility/src/id.rs:159-192 | ids equal under `PartialEq` are equal under `IdEq` |
| AccessibilityId.IdEqSymmetric | accessibility/src/id.rs:175-192 | `IdEq` is symmetric, including its custom/unique and set/member cases |
| AccessibilityId.SetMatchesMembers | accessibility/src/id.rs:186-190 | a set is `IdEq`-equal, in both orders, to each of its non-set members |
| AccessibilityId.IdEqNotTransitive | accessibility/src/id.rs:178-181 | `IdEq` is not transitive: custom ids sharing a number and custom ids sharing a name chain into an unequal pair |
| AccessibilityId.HashDisagreesWithEq | accessibility/src/id.rs:159-203 | as written, two custom ids equal by name under `PartialEq` feed different numbers to the hasher |
| AccessibilityId.HashOf | accessibility/src/id.rs:194-203 | as written a custom id feeds only its number to the hasher, never its name, and a set feeds one item per member |
| AccessibilityId.HashKeyAgreesWithEq | accessibility/src/id.rs:159-203 | hashing a custom id by its name gives equal hash input for every pair equal under `PartialEq` |
| AccessibilityId.IdCounters.constructor | accessibility/src/id.rs:67-68 | both global counters start at 1 |
| AccessibilityId.IdCounters.Next | accessibility/src/id.rs:86-88 | `next` returns the old widget counter and advances it by one (wrapping), leaving the window counter alone |
| AccessibilityId.IdCounters.Reset | accessibility/src/id.rs:81-84 | `reset` puts the widget counter back to 1 and leaves the window counter alone |
| AccessibilityId.IdCounters.Unique | accessibility/src/id.rs:93-97 | `unique` is `Unique(n)` for the old counter n, which then advances |
| AccessibilityId.IdCounters.New | accessibility/src/id.rs:77-79 | `new(name)` is `Custom(n, name)` for the old counter n, which then advances |
| AccessibilityId.IdCounters.WindowNodeId | accessibility/src/id.rs:139-142 | the window counter advances by one, wrapping at 2^64; the node id is `u32::MAX` plus the old counter, above `u32::MAX` for a counter of at least 1; a counter past `u64::MAX - u32::MAX` makes the addition overflow, the panic outcome `None` |
| AccessibilityId.SuccessiveUniqueDiffer | accessibility/src/id.rs:208-214 | two successive unique ids are different, as the file's test asserts |
| AccessibilityId.WindowAndWidgetNodesDisjoint | accessibility/src/id.rs:47-70 | a window node id never collides with a widget's node id at or below `u32::MAX`, and converts back to a window node |
| Clipboard.DndDestinationRectangles.constructor | core/src/clipboard.rs:168-172 | `new` is empty |
| Clipboard.DndDestinationRectangles.WithCapacity | core/src/clipboard.rs:175-179 | `with_capacity` is empty whatever the capacity |
| Clipboard.DndDestinationRectangles.Push | core/src/clipboard.rs:182-184 | the rectangle is added at the end and the earlier ones are unchanged |
| Clipboard.DndDestinationRectangles.Append | core/src/clipboard.rs:187-189 | the other list is moved to the end in order and left empty |
| Clipboard.DndDestinationRectangles.IntoRectangles | core/src/clipboard.rs:193-196 | the list handed over is the stored list reversed |
| Clipboard.DndDestinationRectangles.AsRef | core/src/clipboard.rs:199-203 | the borrowed slice is the stored list in push order, where `into_rectangles` hands over its reverse |
| Clipboard.ReversedTwice | core/src/clipboard.rs:193-196 | reversing twice gives the list back, so no rectangle is lost or reordered beyond the reversal |
| Clipboard.ReversedPush | core/src/clipboard.rs:182-196 | the rectangle pushed last is the first one handed over |
| Clipboard.Null.Read | core/src/clipboard.rs:111-113 | the null clipboard never has anything to read |
| WaylandEvent.EventEqIsEquality | core/src/event/wayland/window.rs:19-35 | two events are equal iff they have the same variant and equal payloads, with a configure compared on capabilities, state, decoration mode, new size and suggested bounds; events of different variants are never equal |
| WaylandEvent.EventEq | core/src/event/wayland/window.rs:19-35 | equal events compare equal, and events of different variants never do |
| RuntimeWindow.DefaultSettingsWithId | runtime/src/platform_specific/wayland/window.rs:47-67 | default settings: size 1024x768, resize border 8, client decorations, opaque, no autosize, limits 1x1 to 1920x1080, no app id, title, parent or token |
| RuntimeWindow.DefaultSettings | runtime/src/platform_specific/wayland/window.rs:47-67 | the default takes the next unique window id from the allocator and otherwise the default fields |
| RuntimeWindow.RoundHalfAway | runtime/src/platform_specific/wayland/window.rs:208-211 | rounding lands within one half of the value and never below 0 for a non-negative value |
| RuntimeWindow.RoundAsU32 | runtime/src/platform_specific/wayland/window.rs:208-211 | `round() as u32` saturates: 0 at or below 0, `u32::MAX` at or above it, and within one half of the value between |
| RuntimeWindow.BuilderFor | runtime/src/platform_specific/wayland/window.rs:197-225 | an `Open` builder has the given id, the application id, no title, parent or token, no autosize, client decorations iff not decorated, a resize border iff resizable, the transparency, min limits 1x1 and max limits unbounded when absent; a given minimum is raised to at least 0 and a given maximum to at least the minimum, as the `Limits` builder clamps, so the minimum never exceeds a finite maximum; and the rounded size |
| RuntimeWindow.TryFrom | runtime/src/platform_specific/wayland/window.rs:192-257 | the translation succeeds exactly for `Open`, `Close`, `Resize` and `Drag`; every other implemented action is `NotSupported` |
| RuntimeWindow.TranslationKeepsId | runtime/src/platform_specific/wayland/window.rs:197-232 | `Open` becomes the builder for its id and settings, `Close` becomes `Destroy`, `Resize` becomes `Size` with each logical dimension rounded to `u32` by `RoundAsU32`, `Drag` becomes `InteractiveMove`, each with the same id |
| RuntimeWindow.MaximizeMinimizeUnsupported | runtime/src/platform_specific/wayland/window.rs:233-251 | maximize and minimize are `NotSupported` whatever the flag |
| CommandWindow.DefaultSettings | runtime/src/command/platform_specific/wayland/window.rs:47-67 | the default carries the reserved main id and the same default fields as the runtime settings |
| CommandWindow.Map | runtime/src/command/platform_specific/wayland/window.rs:180-216 | `map` keeps the variant: a builder stays the same builder, any other action keeps its window id |
| CommandWindow.MapPreservesPayload | runtime/src/command/platform_specific/wayland/window.rs:180-216 | `map` keeps the variant and every payload: mapping there and back, or with the identity, gives the action back |
| CommandWindow.TryFrom | runtime/src/command/platform_specific/wayland/window.rs:324-399 | the translation succeeds exactly for spawn, close, resize, drag, maximize, minimize-to-true and mode changes |
| CommandWindow.TranslationKeepsId | runtime/src/command/platform_specific/wayland/window.rs:359-396 | close, drag, maximize (set or unset), minimize, mode and resize each translate to their Wayland action on the same id, a resize with each dimension rounded to `u32` by `RoundAsU32`; minimizing to false is `NotSupported` |
| CommandWindow.SpawnMatchesOpen | runtime/src/command/platform_specific/wayland/window.rs:329-357 | `Spawn` builds the same settings as the runtime translation of `Open`: decorations negated, min size 1x1 when absent |
| Toggler.MouseInteraction | widget/src/toggler.rs:322-335 | the pointer hand exactly when the cursor is over the bounds, the idle interaction otherwise |
| Toggler.StatusOf | widget/src/toggler.rs:364-374 | the draw status is hovered exactly when the cursor is over the bounds and always carries the toggle state |
| Toggler.DefaultStyle | widget/src/toggler.rs:605-649 | the default style has transparent zero-width borders, radii 8 and handle margin 2 |
| Toggler.BackgroundIgnoresHover | widget/src/toggler.rs:608-617 | the background depends on the toggle state only: strong primary when toggled, strong background otherwise |
| Toggler.HoverForeground | widget/src/toggler.rs:619-636 | a toggled handle takes the strong primary text colour, and hovering halves its opacity; an untoggled one switches from the base to the weak background colour |
| Toggler.SetIdUndoesExposedId | widget/src/toggler.rs:500-520 | handing `set_id` the id `id()` exposes leaves both ids as they were |
| Toggler.SetIdKeepsLabelId | widget/src/toggler.rs:511-520 | `set_id` never gives an unlabelled toggler a label id nor takes a labelled one's away |
| Toggler.Toggler.Id | widget/src/toggler.rs:500-509 | a labelled toggler exposes the set of its id and its label id, an unlabelled one its id |
| Toggler.Toggler.constructor | widget/src/toggler.rs:85-118 | a new toggler takes the next unique id, a second one for its label exactly when it has a label, width Fill, default size, no spacing, no text size, left alignment |
| Toggler.Toggler.SetSize | widget/src/toggler.rs:121-124 | only the size changes |
| Toggler.Toggler.SetWidth | widget/src/toggler.rs:127-130 | only the width changes |
| Toggler.Toggler.SetTextSize | widget/src/toggler.rs:133-136 | only the text size changes, to the given one |
| Toggler.Toggler.SetTextAlignment | widget/src/toggler.rs:148-151 | only the text alignment changes |
| Toggler.Toggler.SetSpacing | widget/src/toggler.rs:166-169 | only the spacing changes |
| Toggler.Toggler.SetId | widget/src/toggler.rs:511-520 | the ids become those `IdsAfterSetId` gives: a two-member set on a labelled toggler sets both, a non-set id on an unlabelled one replaces the id, anything else changes nothing |
| Toggler.Toggler.OnEvent | widget/src/toggler.rs:294-320 | the event is captured iff it is a left press or finger press over the bounds, and then exactly `on_toggle(!is_toggled)` is published; otherwise nothing is published |
| WinitState.Common.Default | winit/src/platform_specific/wayland/event_loop/state.rs:222-226 | no fractional scale, no focus, IME box at the origin, size 1x1 |
| WinitState.Common.FromSize | winit/src/platform_specific/wayland/event_loop/state.rs:228-235 | the default block with the given size |
| WinitState.SeatSetCursor | winit/src/platform_specific/wayland/event_loop/state.rs:107-113 | a seat with a pointer sets the cursor on it and remembers it as active; a seat without one is unchanged and sends nothing |
| WinitState.UpdateSize | winit/src/platform_specific/wayland/event_loop/state.rs:138-157 | a missing dimension keeps the current one; nothing is sent iff the size is unchanged; otherwise the geometry and, with a viewport, its destination are set to the new size |
| WinitState.UpdateSizeIdempotent | winit/src/platform_specific/wayland/event_loop/state.rs:138-157 | updating to the size just set changes nothing and sends nothing |
| WinitState.SetWindowSize | winit/src/platform_specific/wayland/event_loop/state.rs:133-136 | the requested and the current size both become the given size; nothing else changes |
| WinitState.LayerSetSize | winit/src/platform_specific/wayland/event_loop/state.rs:180-185 | the requested size is recorded as given, and the surface asks for it with a missing dimension as 0 |
| WinitState.UpdateViewport | winit/src/platform_specific/wayland/event_loop/state.rs:187-193 | the current size becomes the given one and the viewport, if any, follows |
| WinitState.SetPopupSize | winit/src/platform_specific/wayland/event_loop/state.rs:252-260 | the geometry and the positioner take the new size and a reposition with the token follows |
| WinitState.AtLeastOne | winit/src/platform_specific/wayland/event_loop/state.rs:682-691 | a requested dimension defaults to 1 and is never below 1 |
| WinitState.NormalizeLayerSize | winit/src/platform_specific/wayland/event_loop/state.rs:682-691 | a layer dimension is absent iff both opposite anchors are set; otherwise it is at least 1 and equal to the request when that is at least 1 |
| WinitState.GrabSerial | winit/src/platform_specific/wayland/event_loop/state.rs:596-606 | the grab serial is the last pointer press's, else the last key press's, else 0 |
| WinitState.ResolveParent | winit/src/platform_specific/wayland/event_loop/state.rs:471-497 | the parent is found iff some layer surface, window or popup has the id; layer surfaces win over windows, windows over popups; a popup parent passes on its toplevel |
| WinitState.ScalingObjectIds | winit/src/platform_specific/wayland/event_loop/state.rs:614-622 | a new surface gets a viewport iff the viewporter is bound and a fractional-scale object iff the manager is bound, both fresh and distinct |
| WinitState.ApplyLayerChange | winit/src/platform_specific/wayland/event_loop/state.rs:835-878 | an anchor, exclusive-zone, margin, interactivity or layer change alters only that field and sends the matching request on the layer's surface |
| WinitState.ResizedConfigureAsWritten | winit/src/platform_specific/wayland/event_loop/state.rs:816-820 | as written, the width agrees with the corrected rule, the height is the given width whenever a width is given, and without a width the last configure is re-sent unchanged: the given height is never used |
| WinitState.ResizedConfigureAsWrittenDropsHeight | winit/src/platform_specific/wayland/event_loop/state.rs:817 | as written, a layer last configured at 5x5 and resized to 10x20 re-sends a configure of 10x10 while requesting a height of 20 |
| WinitState.ResizedConfigure | winit/src/platform_specific/wayland/event_loop/state.rs:816-820 | the re-sent configure takes each dimension the resize gives and keeps the other |
| WinitState.ResizedConfigureMatchesRequest | winit/src/platform_specific/wayland/event_loop/state.rs:806-823 | the re-sent configure agrees with the size the layer then requests, in every dimension the resize gives |
| WinitState.NonZeroOrOne | winit/src/platform_specific/wayland/event_loop/state.rs:886 | a zero dimension becomes 1, any other is kept |
| WinitState.Ancestors | winit/src/platform_specific/wayland/event_loop/state.rs:976-1014 | the popups left and the ancestors removed together number the popups there were |
| WinitState.AncestorsPartition | winit/src/platform_specific/wayland/event_loop/state.rs:976-1014 | the popups removed and the popups left are a partition of the popups there were |
| WinitState.AncestorsLinked | winit/src/platform_specific/wayland/event_loop/state.rs:976-1014 | the popups removed form a parent chain from the destroyed popup up to one whose parent is a window or layer surface |
| WinitState.DestroyTakesAncestorsNotChildren | winit/src/platform_specific/wayland/event_loop/state.rs:976-1014 | destroying a popup removes its parent popup with it but leaves its child popup registered |
| WinitState.WaylandState.constructor | winit/src/platform_specific/wayland/event_loop/mod.rs:180-222 | the registry starts with the given seats and globals, no surfaces, no events, no session lock, token counter 0, `ready` set, and nothing sent or requested |
| WinitState.WaylandState.ScaleFactorChanged | winit/src/platform_specific/wayland/event_loop/state.rs:382-457 | for a surface in exactly one of the window, popup, layer and lock lists: a legacy event meeting a fractional-scale object stores and sends nothing; otherwise the scale is stored, a legacy event sets the buffer scale, and exactly one scale-change event is queued; an unknown surface changes nothing |
| WinitState.WaylandState.ScaleWindow | winit/src/platform_specific/wayland/event_loop/state.rs:389-405 | the window step: stop exactly on a legacy event with a fractional-scale object, else store the scale and set the buffer scale for a legacy event |
| WinitState.WaylandState.ScaleCommon | winit/src/platform_specific/wayland/event_loop/state.rs:406-450 | the popup, layer and lock steps: the same rule, storing the scale in the shared block and nothing else |
| WinitState.WaylandState.ScalingObjects | winit/src/platform_specific/wayland/event_loop/state.rs:614-622 | binds exactly the scaling objects `ScalingObjectIds` gives for the new surface |
| WinitState.WaylandState.GetPopup | winit/src/platform_specific/wayland/event_loop/state.rs:464-645 | `ParentMissing` before `SizeMissing`, both changing nothing; a failed positioner changes nothing; a failed popup object leaves only the new surface and its id mapping; on success the popup is recorded unconfigured with its parent, toplevel and size, and the grab, commit and viewport requests are sent |
| WinitState.WaylandState.CreatePopup | winit/src/platform_specific/wayland/event_loop/state.rs:529-595 | the surface is created and mapped to the popup id before the popup object, whose failure is the only error here |
| WinitState.WaylandState.AttachPopup | winit/src/platform_specific/wayland/event_loop/state.rs:596-645 | the popup is appended with a fresh 1-size shared block of its size, and the grab (first seat, when asked), commit and viewport requests are sent |
| WinitState.WaylandState.GetLayerSurface | winit/src/platform_specific/wayland/event_loop/state.rs:647-743 | fails with `LayerShellNotSupported` iff no layer shell is bound, changing nothing; otherwise the surface is recorded with the normalised size, no current size and no configure, and its initial state and a commit are sent |
| WinitState.WaylandState.GetLockSurface | winit/src/platform_specific/wayland/event_loop/state.rs:745-783 | nothing is created iff there is no session lock; otherwise a lock surface on the next object id, with its scaling objects and a new 1x1 shared block, is appended and mapped to the id, and nothing else changes |
| WinitState.WaylandState.SendEvent | winit/src/platform_specific/wayland/event_loop/state.rs:1149-1151 | exactly one platform-specific message is sent and nothing else changes |
| WinitState.WaylandState.CreateLayer | winit/src/platform_specific/wayland/event_loop/state.rs:791-805 | the layer surface exists iff the layer shell is bound; then exactly the new record is appended and mapped, the setup requests are made, a `Created` event is sent for it, and nothing else changes |
| WinitState.WaylandState.ResizeLayer | winit/src/platform_specific/wayland/event_loop/state.rs:806-823 | the layer records and asks for the size; a layer configured before re-sends a configure, not marked first, built by the corrected `ResizedConfigure` (see Findings); an unknown id changes nothing |
| WinitState.WaylandState.DestroyLayer | winit/src/platform_specific/wayland/event_loop/state.rs:824-834 | the first layer with the id is removed and `Done` is sent for it |
| WinitState.WaylandState.ChangeLayer | winit/src/platform_specific/wayland/event_loop/state.rs:835-878 | the change is applied to the layer, requested, and the layer is queued once for commit; an unknown id changes nothing |
| WinitState.WaylandState.ResizeWindow | winit/src/platform_specific/wayland/event_loop/state.rs:884-895 | zero becomes 1; the window records and takes the size; a configured window reports its new size, not marked first |
| WinitState.WaylandState.ConfigureWindow | winit/src/platform_specific/wayland/event_loop/state.rs:896-913 | min size, max size, title and app id are requested on the window, which is queued for commit |
| WinitState.WaylandState.StartInteractive | winit/src/platform_specific/wayland/event_loop/state.rs:914-925 | a move or resize happens only with the window and a pointer press on the first seat, using that press's serial |
| WinitState.WaylandState.DestroyWindow | winit/src/platform_specific/wayland/event_loop/state.rs:941-956 | the first window with the id is removed and its toplevel destroyed; nothing is sent |
| WinitState.WaylandState.NewPopup | winit/src/platform_specific/wayland/event_loop/state.rs:965-975 | the popup is created iff its parent resolves, a size is given and the toolkit does not fail; then exactly the new record is appended and mapped, its setup requests are made and it is announced with its parent and toplevel; a failing popup object leaves only its surface id mapped; nothing else changes |
| WinitState.WaylandState.DestroyPopup | winit/src/platform_specific/wayland/event_loop/state.rs:976-1014 | a missing popup panics; otherwise the popup and then its ancestor popups leave the registry, as `Ancestors` describes |
| WinitState.WaylandState.RemoveAncestors | winit/src/platform_specific/wayland/event_loop/state.rs:987-1012 | the loop removes exactly the chain `Ancestors` gives, nearest first, or panics where it does |
| WinitState.WaylandState.ResizePopup | winit/src/platform_specific/wayland/event_loop/state.rs:1015-1040 | the reposition token advances with wrap-around and the popup takes the size under the new token |
| WinitState.WaylandState.ActivateWindow | winit/src/platform_specific/wayland/event_loop/state.rs:1087-1093 | activation is requested iff the activation global is bound and the window exists |
| WinitState.WaylandState.LockSession | winit/src/platform_specific/wayland/event_loop/state.rs:1096-1101 | a lock is requested only while unlocked, and exists afterwards iff it existed or the compositor grants it |
| WinitState.WaylandState.UnlockSession | winit/src/platform_specific/wayland/event_loop/state.rs:1102-1114 | a held lock is released and dropped, then a round trip follows |
| WinitState.WaylandState.DestroyLockSurface | winit/src/platform_specific/wayland/event_loop/state.rs:1126-1140 | only the first lock surface with the id is removed |
| WinitState.WaylandState.HandleAction | winit/src/platform_specific/wayland/event_loop/state.rs:785-1147 | panics exactly on a window `Window` action and on a popup destroy whose popup or ancestor is missing; otherwise the state and requests change as `Handled` gives for the action, which is the contract of the operation the action names (layer create, resize, destroy and change, a creation stating the whole new state with the new record; window resize, configure, interactive move or resize and destroy; popup create, destroy and resize; activation; lock, unlock, lock surface create and destroy); a token request and a popup grab change nothing |
| WinitLoop.HandleMessage | winit/src/platform_specific/wayland/event_loop/mod.rs:112-141 | an action has the effect `Handled` gives it, as in `handle_action`; `SetCursor` stores the icon and shows it on the first seat only; `RequestRedraw` and `PrePresentNotify` remove and insert the surface in the requested-frame set; `Ready` sets ready; nothing else changes |
| WinitLoop.SetCursorOnlyFirstSeat | winit/src/platform_specific/wayland/event_loop/mod.rs:119-124 | every seat but the first is left as it was by `SetCursor` |
| WinitLoop.AnnounceSubcompositor | winit/src/platform_specific/wayland/event_loop/mod.rs:257-276 | a subcompositor event is sent iff both the subcompositor and the viewporter are bound |
| WinitLoop.ForwardOf | winit/src/platform_specific/wayland/event_loop/mod.rs:295-306 | winit events go out as winit messages, all others as platform-specific ones |
| WinitLoop.Forwarded | winit/src/platform_specific/wayland/event_loop/mod.rs:294-307 | the drained queue becomes one message per event, in order |
| WinitLoop.ForwardedAppend | winit/src/platform_specific/wayland/event_loop/mod.rs:294-307 | forwarding one more event adds exactly its message at the end |
| WinitLoop.ForwardBatch | winit/src/platform_specific/wayland/event_loop/mod.rs:294-307 | the drain loop produces exactly `Forwarded` of the queue |
| WinitLoop.RedrawCandidates | winit/src/platform_specific/wayland/event_loop/mod.rs:309-323 | the candidates are the layer, popup and lock surfaces, in that order |
| WinitLoop.Redraws | winit/src/platform_specific/wayland/event_loop/mod.rs:309-337 | a redraw goes to every candidate whose frame was not requested, and only to those |
| WinitLoop.RedrawsAppend | winit/src/platform_specific/wayland/event_loop/mod.rs:309-337 | one more candidate adds a redraw for it exactly when its frame was not requested |
| WinitLoop.RedrawBatch | winit/src/platform_specific/wayland/event_loop/mod.rs:309-337 | the redraw loop produces exactly `Redraws` of the candidates |
| WinitLoop.WindowsGetNoRedraw | winit/src/platform_specific/wayland/event_loop/mod.rs:309-337 | a surface that is not a layer, popup or lock surface is never sent a redraw |
| WinitLoop.Iteration | winit/src/platform_specific/wayland/event_loop/mod.rs:279-338 | `AboutToWait` first; nothing more while not ready or when nothing is queued after dispatch; else the queue is forwarded in order and emptied, then the redraws follow |
| Pointer.ClassifyEdge | winit/src/platform_specific/wayland/handlers/seat/pointer.rs:51-76 | each of the nine regions holds exactly when its border tests do under the order corners (top-left, bottom-left, top-right, bottom-right), left, right, top, bottom; no edge iff no test holds |
| Pointer.EdgeIcon | winit/src/platform_specific/wayland/handlers/seat/pointer.rs:79-89 | top → n-resize, bottom → s-resize, left → w-resize, right → e-resize, top-left → nw-resize, bottom-left → sw-resize, top-right → ne-resize, bottom-right → se-resize; never the default cursor |
| Pointer.EdgeIconInjective | winit/src/platform_specific/wayland/handlers/seat/pointer.rs:79-89 | different edges show different cursors |
| Pointer.ButtonToWinit | winit/src/platform_specific/wayland/handlers/seat/pointer.rs:232-250 | 0x110 left, 0x111 right, 0x112 middle, 0x113/0x116 back, 0x114/0x115 forward, each iff; any other code its low 16 bits |
| Pointer.EdgeUnder | winit/src/platform_specific/wayland/handlers/seat/pointer.rs:42-77 | an edge is found iff the first window on the event's surface is resizable and `ClassifyEdge` of its current size and border puts the event on an edge, and then it is that edge of that window |
| Pointer.WinitFor | winit/src/platform_specific/wayland/handlers/seat/pointer.rs:140-205 | enter, leave, motion, press, release and axis become the matching winit events, a press or release with its converted button; an axis event is a line delta of the discrete steps when the horizontal step count is positive, otherwise a pixel delta of the absolute values, ending when the horizontal axis stops |
| Pointer.ForwardEvent | winit/src/platform_specific/wayland/handlers/seat/pointer.rs:127-207 | motion is forwarded as a pointer event with the pointer and seat, everything else as a winit event on the surface |
| Pointer.Track | winit/src/platform_specific/wayland/handlers/seat/pointer.rs:209-225 | enter focuses, leave unfocuses and forgets the active icon, a press is remembered; nothing else changes |
| Pointer.ShowIcon | winit/src/platform_specific/wayland/handlers/seat/pointer.rs:106-118 | the edge cursor is set only when it is not already active |
| Pointer.RestoreIcon | winit/src/platform_specific/wayland/handlers/seat/pointer.rs:119-125 | off an edge, the application's icon (or the default) is restored only when it differs from the active one |
| Pointer.Step | winit/src/platform_specific/wayland/handlers/seat/pointer.rs:40-229 | an event ends the frame iff it is a left press or motion on an edge; a left press records the press and asks for a resize, motion shows the edge cursor if it is not active; any other event on an edge shows the edge cursor, off an edge the application cursor is restored, then the active seat forwards it and the seat tracks focus and presses |
| Pointer.RunIgnoresRest | winit/src/platform_specific/wayland/handlers/seat/pointer.rs:99-110 | once an event ends the frame, the events after it have no effect |
| Pointer.InactiveSeatQueuesNothing | winit/src/platform_specific/wayland/handlers/seat/pointer.rs:127 | a seat other than the first forwards nothing |
| Pointer.ActiveSeatQueuesAtMostOnePerEvent | winit/src/platform_specific/wayland/handlers/seat/pointer.rs:127-207 | the first seat forwards at most one event per pointer event |
| Pointer.RunFrame | winit/src/platform_specific/wayland/handlers/seat/pointer.rs:40-229 | the frame loop computes exactly `Run` over the events |
| Pointer.PointerFrame | winit/src/platform_specific/wayland/handlers/seat/pointer.rs:20-229 | a frame from an unknown pointer changes nothing; otherwise the first matching seat, the queue and the requests become those `Run` gives, with forwarding only for seat 0 |
| WinitWindow.InnerSizeAction | winit/src/platform_specific/wayland/winit_window.rs:106-128 | a layer asks for both dimensions, a popup for its size, a lock surface for nothing |
| WinitWindow.InnerSizeActionTargetsItsSurface | winit/src/platform_specific/wayland/winit_window.rs:106-128 | a resize request addresses the wrapped surface's id with exactly the size given |
| WinitWindow.SctkWinitWindow.constructor | winit/src/platform_specific/wayland/winit_window.rs:34-48 | a new handle has sent nothing and holds its shared block, wrapper and surface |
| WinitWindow.SctkWinitWindow.Id | winit/src/platform_specific/wayland/winit_window.rs:52-54 | the window id is the surface's object id |
| WinitWindow.SctkWinitWindow.ScaleFactor | winit/src/platform_specific/wayland/winit_window.rs:56-59 | the fractional scale of the shared block, 1 when unset |
| WinitWindow.SctkWinitWindow.RequestRedraw | winit/src/platform_specific/wayland/winit_window.rs:61-63 | exactly one `RequestRedraw` for the surface is sent |
| WinitWindow.SctkWinitWindow.PrePresentNotify | winit/src/platform_specific/wayland/winit_window.rs:65-67 | exactly one `PrePresentNotify` for the surface is sent |
| WinitWindow.SctkWinitWindow.SetCursor | winit/src/platform_specific/wayland/winit_window.rs:69-78 | an icon is sent, a custom cursor is dropped |
| WinitWindow.SctkWinitWindow.RequestInnerSize | winit/src/platform_specific/wayland/winit_window.rs:106-128 | sends the action `InnerSizeAction` gives (nothing for a lock surface) and answers `None` |
| WinitWindow.ConstantGetters | winit/src/platform_specific/wayland/winit_window.rs:134-310 | no inner position, the origin as outer position, never maximized, decorated or resizable, and no minimized, visible, fullscreen or theme answer |
| SctkRegistry.ParentOf | sctk/src/event_loop/state.rs:476-502 | the same ordered parent search as the winit registry, over the sctk records |
| SctkRegistry.TruncNotPositive | sctk/src/event_loop/state.rs:687-688 | `as i32 <= 0` holds exactly for values below 1 |
| SctkRegistry.LimitSize | sctk/src/event_loop/state.rs:686-705 | a limit is kept iff both sides are finite, at least 1 and at most `u16::MAX`, and then each side is rounded down |
| SctkRegistry.ClearStretched | sctk/src/event_loop/state.rs:789-795 | a dimension stretched between opposite anchors is cleared, any other kept as given |
| SctkRegistry.StretchRulesAgree | sctk/src/event_loop/state.rs:789-795 | the sctk and winit rules clear the same dimensions; where sctk keeps a value of at least 1 winit asks for the same |
| SctkRegistry.SctkState.constructor | sctk/src/event_loop/state.rs:286-350 | the registry starts empty with the given seats and globals |
| SctkRegistry.SctkState.ScaleFactorChanged | sctk/src/event_loop/state.rs:391-464 | only windows, popups, layers and the update queue change, lock surfaces never; at most three updates about the surface and scale are queued; an unknown surface queues nothing; on a surface of one kind the step of that kind is applied |
| SctkRegistry.SctkState.ScaleWindow | sctk/src/event_loop/state.rs:397-419 | a legacy event with a fractional-scale object stops; otherwise the window stores the scale and a window scale change with its viewport is queued |
| SctkRegistry.SctkState.ScalePopup | sctk/src/event_loop/state.rs:420-442 | the same rule for a popup, queuing its surface, toplevel and parent |
| SctkRegistry.SctkState.ScaleLayer | sctk/src/event_loop/state.rs:443-461 | the same rule for a layer surface |
| SctkRegistry.SctkState.GetPopup | sctk/src/event_loop/state.rs:471-645 | the same errors as the winit registry, in the same order; on success the popup is recorded unconfigured and its parent's, toplevel's and own surfaces are handed back |
| SctkRegistry.SctkState.AttachPopup | sctk/src/event_loop/state.rs:596-645 | the popup is appended and its grab, commit and viewport requests are sent |
| SctkRegistry.SctkState.GetWindow | sctk/src/event_loop/state.rs:649-759 | one window is appended with the size (zero sides as 1) as both requested and current size, no configure; decorations client iff asked, the surviving limits, title, geometry and commit are sent, and activation only with both a token and the global |
| SctkRegistry.SctkState.GetLayerSurface | sctk/src/event_loop/state.rs:761-852 | fails iff no layer shell is bound, changing nothing; otherwise the surface is recorded with stretched dimensions cleared and no current size |
| SctkRegistry.SctkState.GetLockSurface | sctk/src/event_loop/state.rs:854-880 | nothing is created iff there is no session lock; otherwise an unconfigured lock surface is recorded |
| XdgWindow.Tagged | sctk/src/handlers/shell/xdg_window.rs:55-84 | each window event carries the window's surface, in order |
| XdgWindow.ConfigureWindow | sctk/src/handlers/shell/xdg_window.rs:35-89 | a state change is reported iff the state differs from the last configure's, a capability change likewise (both always on the first); the size is updated; the configure is recorded; a last `Configure` carries the new size and whether it was the first; nothing else is reported, so there is one event per change plus the `Configure` |
| XdgWindow.FirstConfigureReportsEverything | sctk/src/handlers/shell/xdg_window.rs:52-84 | the first configure reports state, capabilities and a configure tagged first, in that order |
| XdgWindow.RepeatedConfigureIsQuiet | sctk/src/handlers/shell/xdg_window.rs:35-89 | the same configure again reports only a configure not tagged first and changes and sends nothing else |
| XdgWindow.RequestClose | sctk/src/handlers/shell/xdg_window.rs:13-33 | a known window queues exactly one `Close`; an unknown one changes nothing |
| XdgWindow.ConfigureToplevel | sctk/src/handlers/shell/xdg_window.rs:35-89 | for a known window the events of `ConfigureWindow` are queued in order, the window is replaced, one frame event at time 0 is queued and the size requests are sent; an unknown window changes nothing |
| XdgWindow.ConfigureEvents | sctk/src/handlers/shell/xdg_window.rs:52-84 | the pushes build exactly the tagged events of `ConfigureWindow` |

## Left out

- iced_core's `layout::Limits` (core/src/layout/limits.rs) is not part of this model. Its
  `min_*`/`max_*` builder clamping is written out as `RuntimeWindow.BuildLimits`, with
  `f32` taken as real numbers, so NaN bounds are not modelled.
- Protocol objects are natural-number ids, and requests are entries in a log. Nothing
  about the wire protocol, object destruction or compositor replies is modelled.
- Thread spawn, the calloop channels, registry binding and the busy `loop` in
  `winit/src/platform_specific/wayland/event_loop/mod.rs` are left out, and so is
  `proxy.wake_up`. One iteration of the loop is `WinitLoop.Iteration`. Event dispatch is
  reduced to the events it queues (the `dispatched` parameter).
- `Arc<Mutex<Common>>` is a shared class object. The locking is not modelled.
- Floating point is not modelled bit for bit:
  - scales are `real`;
  - `to_logical` in `request_inner_size` and `to_physical` in `inner_size` are not
    modelled, so `WinitWindow.SctkWinitWindow.RequestInnerSize` takes the logical size
    already converted;
  - the `as i32` casts of sizes and the buffer-scale integer cast are not modelled.
- XdgPositioner details (anchor, gravity, offset, constraint adjustment, reactive) are
  left out. A positioner is reduced to its size.
- XDG toplevel, xdg popup and positioner objects get no object ids.
- The layer-shell `get_popup` request that attaches a popup to a layer parent is not
  logged.
- The second parent lookup inside the popup creation match cannot fail once the first
  one succeeded. It is not modelled.
- `LayerSurfaceCreationFailed` and `WlSurfaceCreationFailed` are declared in the source
  but never produced by the modelled code.
- The layer `LayerSurface` action's title and display in its `Created` event are not
  modelled.
- The empty input region of a layer surface without pointer interactivity is one request,
  `SetEmptyInputRegion`. The region object it stands for is not modelled: not its creation,
  not setting it as the input region, and not its destruction.
- Activation `RequestToken` has its effect commented out in the source. It is modelled
  as changing nothing.
- `inner_size`, `has_focus`, the IME and monitor calls of the window handle and the other
  `todo!()` members are not modelled. Neither are the setters that do nothing.
- `WinitWindow.SctkWinitWindow.RequestInnerSize`: requires a handle that is not a
  toplevel window, because that case is `unimplemented!()` in the source.
- `RuntimeWindow.TryFrom`: requires an action other than `GetOldest` and `GetLatest`,
  because those are `todo!()`.
- `AccessibilityId.A11yFromId` and `AccessibilityId.ToNodeId`: require a non-set id,
  because the source asserts or panics on one.
- `AccessibilityId.IdToU64`: requires a non-set id, because `From<Id> for u64` panics on a set.
- `SctkRegistry.SctkState.GetLayerSurface`: requires a size when the layer shell is
  bound, because the source unwraps it and panics on `None`.
- `WinitState.WaylandState.ResizeLayer`: re-sends the corrected configure of
  `WinitState.ResizedConfigure`, not the one `state.rs:817` builds, which takes the width for
  both dimensions; the as-written rule is `WinitState.ResizedConfigureAsWritten` (see
  Findings). `HandleAction`, `HandleMessage` and `Iteration` therefore run the corrected
  rule for this action.
- `WinitState.WaylandState.ScaleFactorChanged`: states the per-kind result and the one
  queued event only when the surface belongs to exactly one of the window, popup, layer and
  lock lists (`OnlyIn`). For a surface in several lists it states nothing beyond the
  unknown-surface case.
- `WinitState.WaylandState.ResizePopup`: the token counter wraps at 2^32, where
  `self.token_ctr += 1` at `state.rs:1023` panics on overflow in a debug build.
- `AccessibilityId.IdCounters.WindowNodeId`: the overflowing addition is the panic of a
  debug build (`None`); the wrapped value a release build would hand out is not modelled.
- `SctkRegistry.SctkState.ScaleFactorChanged`: states the per-kind result only when the
  surface belongs to exactly one kind of record. When a surface id appears in several
  lists, it states only the frame and the bound on queued updates.
- `Toggler.Toggler`: the line height, shaping, wrap, font, class and accessibility
  setters, `layout` and the geometry of `draw` are not modelled.
- The layer-surface, popup, session-lock and activation action enums come from files
  that are not part of this model. Their variants are taken from how `handle_action`
  uses them.
- The DnD, data-device, clipboard and subsurface handlers of both event loops are not
  part of this model.

## Findings

| source | as written | input that shows it | evidently intended | confidence | as-written member | corrected member |
|---|---|---|---|---|---|---|
| accessibility/src/id.rs:194-203 | `Hash` hashes a `Custom` id by its number, while `PartialEq` compares two `Custom` ids by name only | `Custom(1, "a")` and `Custom(2, "a")` are equal but hash differently, which breaks the `Hash`/`Eq` contract | equal ids feed equal values to the hasher, e.g. hash a `Custom` id by its name | not executed | AccessibilityId.HashDisagreesWithEq | AccessibilityId.HashKeyAgreesWithEq |
| winit/src/platform_specific/wayland/event_loop/state.rs:817 | the configure re-sent after a layer `Size` action takes `width` for both dimensions | a layer last configured at 5x5, resized to width 10 and height 20, reports 10x10 while it requests a height of 20 | the height falls back on `height`: `(width.unwrap_or(w0), height.unwrap_or(h0))` | not executed | WinitState.ResizedConfigureAsWrittenDropsHeight | WinitState.ResizedConfigureMatchesRequest |
