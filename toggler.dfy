/** The toggler widget: construction, event handling, ids and style selection. */
module Toggler {
  import opened Wrappers
  import opened Numeric
  import A = AccessibilityId

  /** The toggler's square size when none is given. */
  const DEFAULT_SIZE: real := 16.0

  datatype Length = Fill | FillPortion(portion: u16) | Shrink | Fixed(pixels: real)
  datatype HorizontalAlignment = Left | Center | Right

  datatype MouseButton = LeftButton | RightButton | MiddleButton | OtherButton(code: u16)

  /** The events a widget receives; only presses matter to a toggler. */
  datatype Event =
    | MouseButtonPressed(button: MouseButton)
    | FingerPressed(finger: nat)
    | OtherEvent

  /** Whether a widget consumed an event. */
  datatype EventStatus = Ignored | Captured

  /** The cursor shape a widget asks for; `Idle` stands for the default one. */
  datatype Interaction = Idle | Pointer

  /** The toggler's status while drawing. */
  datatype Status = Active(isToggled: bool) | Hovered(isToggled: bool)

  datatype Color = Color(r: real, g: real, b: real, a: real)
  const TRANSPARENT: Color := Color(0.0, 0.0, 0.0, 0.0)

  /** A palette entry: a colour and the text colour that goes on it. */
  datatype Pair = Pair(color: Color, text: Color)

  /** The parts of the theme's extended palette the default style reads. */
  datatype Palette = Palette(primaryStrong: Pair, backgroundBase: Pair, backgroundWeak: Pair, backgroundStrong: Pair)

  datatype Style = Style(
    background: Color,
    backgroundBorderWidth: real,
    backgroundBorderColor: Color,
    foreground: Color,
    foregroundBorderWidth: real,
    foregroundBorderColor: Color,
    borderRadius: real,
    handleRadius: real,
    handleMargin: real)

  /** A press that can toggle: the left mouse button or a finger. */
  predicate IsTogglePress(event: Event)
  {
    event == MouseButtonPressed(LeftButton) || event.FingerPressed?
  }

  /** `mouse_interaction`: the pointer hand exactly over the bounds. */
  function MouseInteraction(cursorOver: bool): (r: Interaction)
    ensures r == Pointer <==> cursorOver
    ensures !cursorOver ==> r == Idle
  {
    if cursorOver then Pointer else Idle
  }

  /** The status `draw` hands to the style: hovered exactly over the bounds, with the toggle state. */
  function StatusOf(isToggled: bool, cursorOver: bool): (r: Status)
    ensures r.Hovered? <==> cursorOver
    ensures r.isToggled == isToggled
  {
    if cursorOver then Hovered(isToggled) else Active(isToggled)
  }

  /** `default`: the theme's style for a toggler in the given status. */
  function DefaultStyle(palette: Palette, status: Status): (s: Style)
    ensures s.handleMargin == 2.0
    ensures s.borderRadius == 8.0 && s.handleRadius == 8.0
    ensures s.backgroundBorderWidth == 0.0 && s.foregroundBorderWidth == 0.0
    ensures s.backgroundBorderColor == TRANSPARENT && s.foregroundBorderColor == TRANSPARENT
  {
    var background :=
      if status.isToggled then palette.primaryStrong.color else palette.backgroundStrong.color;
    var foreground :=
      match status
      case Active(t) => if t then palette.primaryStrong.text else palette.backgroundBase.color
      case Hovered(t) => if t then palette.primaryStrong.text.(a := 0.5) else palette.backgroundWeak.color;
    Style(background, 0.0, TRANSPARENT, foreground, 0.0, TRANSPARENT, 8.0, 8.0, 2.0)
  }

  /** Hovering never changes the background: it follows the toggle state alone. */
  lemma BackgroundIgnoresHover(palette: Palette, isToggled: bool)
    ensures DefaultStyle(palette, Active(isToggled)).background == DefaultStyle(palette, Hovered(isToggled)).background
    ensures isToggled ==> DefaultStyle(palette, Active(isToggled)).background == palette.primaryStrong.color
    ensures !isToggled ==> DefaultStyle(palette, Active(isToggled)).background == palette.backgroundStrong.color
  {
  }

  /**
   * Hovering a toggled toggler shows its handle at half opacity; hovering an
   * untoggled one switches the handle from the base to the weak background colour.
   */
  lemma HoverForeground(palette: Palette)
    ensures DefaultStyle(palette, Active(true)).foreground == palette.primaryStrong.text
    ensures DefaultStyle(palette, Hovered(true)).foreground == DefaultStyle(palette, Active(true)).foreground.(a := 0.5)
    ensures DefaultStyle(palette, Active(false)).foreground == palette.backgroundBase.color
    ensures DefaultStyle(palette, Hovered(false)).foreground == palette.backgroundWeak.color
  {
  }

  /** `id()`: a labelled toggler exposes the pair `[id, label_id]`, an unlabelled one its id. */
  function ExposedId(labelled: bool, id: A.Id, labelId: Option<A.Id>): A.Id
    requires labelled ==> labelId.Some?
  {
    if labelled then A.Id(A.Set([id.inner, labelId.value.inner])) else id
  }

  /**
   * The ids after `set_id(given)`: a two-member set on a labelled toggler
   * replaces both, a non-set id on an unlabelled one replaces `id`, anything
   * else leaves both as they were.
   */
  function IdsAfterSetId(labelled: bool, id: A.Id, labelId: Option<A.Id>, given: A.Id): (A.Id, Option<A.Id>)
  {
    match given.inner
    case Set(list) =>
      if |list| == 2 && labelled then (A.Id(list[0]), Some(A.Id(list[1]))) else (id, labelId)
    case _ =>
      if !labelled then (given, labelId) else (id, labelId)
  }

  /** Handing `set_id` the id `id()` exposes leaves the toggler's ids as they were. */
  lemma SetIdUndoesExposedId(labelled: bool, id: A.Id, labelId: Option<A.Id>)
    requires labelled <==> labelId.Some?
    ensures IdsAfterSetId(labelled, id, labelId, ExposedId(labelled, id, labelId)) == (id, labelId)
  {
  }

  /** `set_id` keeps a labelled toggler's label id present and an unlabelled one's absent. */
  lemma SetIdKeepsLabelId(labelled: bool, id: A.Id, labelId: Option<A.Id>, given: A.Id)
    requires labelled <==> labelId.Some?
    ensures labelled <==> IdsAfterSetId(labelled, id, labelId, given).1.Some?
  {
  }

  /** The messages a widget publishes while handling an event. */
  class Shell<M> {
    var messages: seq<M>

    constructor ()
      ensures messages == []
    {
      messages := [];
    }

    method Publish(m: M)
      modifies this
      ensures messages == old(messages) + [m]
    {
      messages := messages + [m];
    }
  }

  class Toggler<M> {
    var id: A.Id
    var labelId: Option<A.Id>
    const isToggled: bool
    const onToggle: bool -> M
    const labelText: Option<string>
    var width: Length
    var size: real
    var textSize: Option<real>
    var textAlignment: HorizontalAlignment
    var spacing: real

    /** A label id exists exactly when a label does. */
    predicate Valid()
      reads this
    {
      labelText.Some? <==> labelId.Some?
    }

    /**
     * `new`: a fresh unique id, a second one for the label when there is a
     * label, full width, the default size and no spacing.
     */
    constructor (labelText: Option<string>, isToggled: bool, onToggle: bool -> M, counters: A.IdCounters)
      modifies counters
      ensures Valid()
      ensures id == A.Id(A.Unique(old(counters.nextId)))
      ensures labelText.Some? ==> labelId == Some(A.Id(A.Unique(WrappingInc64(old(counters.nextId)))))
      ensures this.labelText == labelText && this.isToggled == isToggled && this.onToggle == onToggle
      ensures width == Fill && size == DEFAULT_SIZE && spacing == 0.0
      ensures textSize == None && textAlignment == Left
    {
      var first := counters.Unique();
      var second: Option<A.Id> := None;
      if labelText.Some? {
        var l := counters.Unique();
        second := Some(l);
      }
      id := first;
      labelId := second;
      this.isToggled := isToggled;
      this.onToggle := onToggle;
      this.labelText := labelText;
      width := Fill;
      size := DEFAULT_SIZE;
      textSize := None;
      textAlignment := Left;
      spacing := 0.0;
    }

    /** The `size` setter. */
    method SetSize(size: real)
      modifies this
      ensures this.size == size
      ensures id == old(id) && labelId == old(labelId) && width == old(width)
      ensures textSize == old(textSize) && textAlignment == old(textAlignment) && spacing == old(spacing)
    {
      this.size := size;
    }

    /** The `width` setter. */
    method SetWidth(width: Length)
      modifies this
      ensures this.width == width
      ensures id == old(id) && labelId == old(labelId) && size == old(size)
      ensures textSize == old(textSize) && textAlignment == old(textAlignment) && spacing == old(spacing)
    {
      this.width := width;
    }

    /** The `text_size` setter. */
    method SetTextSize(textSize: real)
      modifies this
      ensures this.textSize == Some(textSize)
      ensures id == old(id) && labelId == old(labelId) && size == old(size)
      ensures width == old(width) && textAlignment == old(textAlignment) && spacing == old(spacing)
    {
      this.textSize := Some(textSize);
    }

    /** The `text_alignment` setter. */
    method SetTextAlignment(alignment: HorizontalAlignment)
      modifies this
      ensures textAlignment == alignment
      ensures id == old(id) && labelId == old(labelId) && size == old(size)
      ensures width == old(width) && textSize == old(textSize) && spacing == old(spacing)
    {
      textAlignment := alignment;
    }

    /** The `spacing` setter. */
    method SetSpacing(spacing: real)
      modifies this
      ensures this.spacing == spacing
      ensures id == old(id) && labelId == old(labelId) && size == old(size)
      ensures width == old(width) && textSize == old(textSize) && textAlignment == old(textAlignment)
    {
      this.spacing := spacing;
    }

    /** `id()`. */
    function Id(): (r: A.Id)
      reads this
      requires Valid()
      ensures labelText.Some? ==> r.inner == A.Set([id.inner, labelId.value.inner])
      ensures labelText.None? ==> r == id
    {
      ExposedId(labelText.Some?, id, labelId)
    }

    /** `set_id`. */
    method SetId(given: A.Id)
      requires Valid()
      modifies this
      ensures Valid()
      ensures (id, labelId) == IdsAfterSetId(labelText.Some?, old(id), old(labelId), given)
      ensures width == old(width) && size == old(size) && textSize == old(textSize)
      ensures textAlignment == old(textAlignment) && spacing == old(spacing)
    {
      match given.inner {
        case Set(list) =>
          if |list| == 2 && labelText.Some? {
            id := A.Id(list[0]);
            labelId := Some(A.Id(list[1]));
          }
        case _ =>
          if labelText.None? {
            id := given;
          }
      }
    }

    /**
     * `on_event`: a toggling press over the bounds publishes exactly one
     * message, `on_toggle(!is_toggled)`, and is captured; anything else
     * publishes nothing and is ignored.
     */
    method OnEvent(event: Event, cursorOver: bool, shell: Shell<M>) returns (status: EventStatus)
      modifies shell
      ensures status == Captured <==> IsTogglePress(event) && cursorOver
      ensures status == Captured ==> shell.messages == old(shell.messages) + [onToggle(!isToggled)]
      ensures status == Ignored ==> shell.messages == old(shell.messages)
    {
      if IsTogglePress(event) {
        if cursorOver {
          shell.Publish(onToggle(!isToggled));
          status := Captured;
        } else {
          status := Ignored;
        }
      } else {
        status := Ignored;
      }
    }
  }
}
