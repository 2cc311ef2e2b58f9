/**
 * The password field: an edit text whose end compound-drawable slot holds a
 * toggle icon. Touching the icon switches between the masked and the plain
 * text transformation; focus and text changes decide whether the icon shows.
 *
 * The pure part (FieldState and its step functions) states what each event
 * does; the class PasswordEditText holds the same state in fields and its
 * handlers are proved to perform exactly those steps.
 */
module PasswordField {
  import opened Wrappers

  const LAYOUT_DIRECTION_LTR: int := 0
  const LAYOUT_DIRECTION_RTL: int := 1
  const ACTION_UP: int := 1

  /**
   * The two icons. VisibleIcon is the one shown while the password is
   * masked (touching it reveals the text); InvisibleIcon is shown while the
   * text is plain.
   */
  datatype Icon = VisibleIcon | InvisibleIcon

  /** What a compound-drawable slot can hold: one of the icons, or a drawable set elsewhere. */
  datatype Drawable = PasswordIcon(icon: Icon) | OtherDrawable(id: int)

  datatype Transformation = Masked | Plain

  /** The four relative compound-drawable slots. */
  datatype Slots = Slots(start: Option<Drawable>, top: Option<Drawable>, end: Option<Drawable>, bottom: Option<Drawable>)

  /** What the hit test reads from the view: layout direction, width and paddings. */
  datatype Layout = Layout(direction: int, width: int, paddingStart: int, paddingEnd: int)

  datatype FieldState = FieldState(
    current: Icon,                 // the icon the field currently uses
    visibleShown: bool,            // VisibleIcon's own visibility flag
    invisibleShown: bool,          // InvisibleIcon's own visibility flag
    visibleWidth: int,             // intrinsic widths of the two icons
    invisibleWidth: int,
    slots: Slots,
    transformation: Transformation,
    selection: int,                // cursor position
    text: string,
    focused: bool,
    hasFocusListener: bool,        // a user focus listener is registered
    hasTouchListener: bool)        // a user touch listener is registered

  function Other(i: Icon): Icon {
    if i == VisibleIcon then InvisibleIcon else VisibleIcon
  }

  function Shown(s: FieldState, i: Icon): bool {
    if i == VisibleIcon then s.visibleShown else s.invisibleShown
  }

  function IconWidth(s: FieldState, i: Icon): int {
    if i == VisibleIcon then s.visibleWidth else s.invisibleWidth
  }

  /** The transformation that goes with an icon after a toggle. */
  function TransformationFor(i: Icon): Transformation {
    if i == VisibleIcon then Masked else Plain
  }

  /**
   * The field's invariant: the end slot holds the current icon exactly when
   * that icon's flag is set; the other icon's flag is set (it was visible
   * when the field last switched away from it, or it has never been hidden);
   * and the icon shows exactly while the field is focused with some text.
   */
  predicate Invariant(s: FieldState) {
    && s.slots.end == (if Shown(s, s.current) then Some(PasswordIcon(s.current)) else None)
    && Shown(s, Other(s.current))
    && (Shown(s, s.current) <==> s.focused && |s.text| > 0)
  }

  /**
   * r is s with at most the current icon's flag switched; the end slot is
   * rewritten, to the icon or to nothing, exactly when that flag switches,
   * and every other slot and field is kept.
   */
  predicate FlagStep(s: FieldState, r: FieldState) {
    && r.(visibleShown := s.visibleShown, invisibleShown := s.invisibleShown, slots := s.slots) == s
    && Shown(r, Other(s.current)) == Shown(s, Other(s.current))
    && r.slots == (if Shown(r, s.current) == Shown(s, s.current) then s.slots
                   else s.slots.(end := if Shown(r, s.current) then Some(PasswordIcon(s.current)) else None))
  }

  /** `setDrawableVisible(visible)`: set the current icon's flag and the end slot to match. */
  function DrawableVisible(s: FieldState, visible: bool): (r: FieldState)
    ensures Shown(r, s.current) == visible
    ensures FlagStep(s, r)
  {
    if Shown(s, s.current) == visible then s
    else
      var flagged := if s.current == VisibleIcon then s.(visibleShown := visible) else s.(invisibleShown := visible);
      flagged.(slots := s.slots.(end := if visible then Some(PasswordIcon(s.current)) else None))
  }

  lemma DrawableVisibleIdempotent(s: FieldState, visible: bool)
    ensures Shown(s, s.current) == visible ==> DrawableVisible(s, visible) == s
    ensures DrawableVisible(DrawableVisible(s, visible), visible) == DrawableVisible(s, visible)
  {
  }

  /** Only the current icon's flag and the end slot change, and the end slot follows the flag. */
  lemma DrawableVisibleFrame(s: FieldState, visible: bool)
    requires Shown(s, s.current) != visible
    ensures var r := DrawableVisible(s, visible);
      && r.(visibleShown := s.visibleShown, invisibleShown := s.invisibleShown, slots := s.slots) == s
      && r.slots == s.slots.(end := if visible then Some(PasswordIcon(s.current)) else None)
  {
  }

  /** `refreshDrawableStatus()`: put the current icon into the end slot. */
  function Refreshed(s: FieldState): (r: FieldState)
    ensures r.slots == s.slots.(end := Some(PasswordIcon(s.current)))
    ensures r.(slots := s.slots) == s
  {
    s.(slots := s.slots.(end := Some(PasswordIcon(s.current))))
  }

  /**
   * The state right after the constructor: both icons start with their
   * flag set (a drawable is visible until told otherwise), VisibleIcon
   * becomes current and is then hidden.
   */
  function Initial(slots: Slots, transformation: Transformation, text: string, selection: int,
                   visibleWidth: int, invisibleWidth: int): (r: FieldState)
    ensures r.current == VisibleIcon && !Shown(r, VisibleIcon) && r.slots.end == None
    ensures r.slots.(end := slots.end) == slots
    ensures Invariant(r)
  {
    var created := FieldState(VisibleIcon, true, true, visibleWidth, invisibleWidth, slots,
                              transformation, selection, text, false, false, false);
    DrawableVisible(created, false)
  }

  /** `onFocusChange(hasFocus)`, after the platform has recorded the new focus. */
  function FocusChanged(s: FieldState, hasFocus: bool): (r: FieldState)
    ensures Shown(r, r.current) == (hasFocus && |s.text| > 0)
    ensures r.focused == hasFocus
    ensures FlagStep(s.(focused := hasFocus), r)
  {
    var t := s.(focused := hasFocus);
    if hasFocus then DrawableVisible(t, |t.text| > 0) else DrawableVisible(t, false)
  }

  /** `onTextChanged(text, ...)`, after the platform has replaced the text. */
  function TextChanged(s: FieldState, text: string): (r: FieldState)
    ensures r.focused ==> Shown(r, r.current) == (|text| > 0)
    ensures r.focused ==> FlagStep(s.(text := text), r)
    ensures !r.focused ==> r == s.(text := text)
  {
    var t := s.(text := text);
    if t.focused then DrawableVisible(t, |text| > 0) else t
  }

  /**
   * The hit test of `onTouch`: x lies strictly inside the icon's strip,
   * at the end edge for left-to-right layout and at the start edge for
   * right-to-left layout; no other direction hits.
   */
  function HitsIcon(layout: Layout, iconWidth: int, x: int): (hit: bool)
    ensures hit ==> layout.direction == LAYOUT_DIRECTION_LTR || layout.direction == LAYOUT_DIRECTION_RTL
    ensures layout.direction == LAYOUT_DIRECTION_LTR ==>
      (hit <==> layout.width - iconWidth - layout.paddingEnd < x < layout.width - layout.paddingEnd)
    ensures layout.direction == LAYOUT_DIRECTION_RTL ==>
      (hit <==> layout.paddingStart < x < layout.paddingStart + iconWidth)
  {
    if layout.direction == LAYOUT_DIRECTION_LTR then
      x > layout.width - iconWidth - layout.paddingEnd && x < layout.width - layout.paddingEnd
    else if layout.direction == LAYOUT_DIRECTION_RTL then
      x > layout.paddingStart && x < layout.paddingStart + iconWidth
    else
      false
  }

  /**
   * The two strips mirror each other: x hits in left-to-right layout exactly
   * when width - x hits in right-to-left layout with the paddings swapped.
   */
  lemma HitStripsMirror(width: int, paddingStart: int, paddingEnd: int, iconWidth: int, x: int)
    ensures HitsIcon(Layout(LAYOUT_DIRECTION_LTR, width, paddingStart, paddingEnd), iconWidth, x)
        <==> HitsIcon(Layout(LAYOUT_DIRECTION_RTL, width, paddingEnd, paddingStart), iconWidth, width - x)
  {
  }

  /**
   * Java's `String.length()`: the number of UTF-16 code units, two for a
   * character outside the Basic Multilingual Plane.
   */
  function Utf16Length(text: string): (n: nat)
    ensures |text| <= n <= 2 * |text|
  {
    if text == [] then 0
    else (if text[0] as int >= 0x1_0000 then 2 else 1) + Utf16Length(text[1..])
  }

  /**
   * The switch done by ACTION_UP on a visible icon: the other icon, its
   * transformation, the end slot refreshed and the cursor at the end.
   * Setting the transformation resets the text, which calls the field's
   * own `onTextChanged` back with the same text while the new icon is
   * already current; that may set the new icon's flag, and nothing else.
   */
  function Toggled(s: FieldState): (r: FieldState)
    ensures r.current == Other(s.current)
    ensures r.transformation == TransformationFor(r.current)
    ensures r.selection == Utf16Length(s.text)
    ensures r.slots == s.slots.(end := Some(PasswordIcon(r.current)))
    ensures Shown(r, s.current) == Shown(s, s.current)
    ensures Shown(r, r.current) == (if s.focused then |s.text| > 0 else Shown(s, r.current))
    ensures r.(current := s.current, transformation := s.transformation, selection := s.selection,
               slots := s.slots, visibleShown := s.visibleShown, invisibleShown := s.invisibleShown) == s
  {
    var switched :=
      if s.current == VisibleIcon then s.(current := InvisibleIcon, transformation := Plain)
      else s.(current := VisibleIcon, transformation := Masked);
    var reentered := TextChanged(switched, switched.text);
    var refreshed := Refreshed(reentered);
    refreshed.(selection := Utf16Length(refreshed.text))
  }

  /**
   * On every toggle a touch can trigger (the icon is showing, in a
   * consistent state) the re-entered text callback changes nothing: both
   * flags are kept and the invariant still holds.
   */
  lemma ToggleKeepsFlags(s: FieldState)
    requires Invariant(s) && Shown(s, s.current)
    ensures Toggled(s).visibleShown == s.visibleShown && Toggled(s).invisibleShown == s.invisibleShown
    ensures Invariant(Toggled(s)) && Shown(Toggled(s), Toggled(s).current)
  {
  }

  /** Two toggles bring back the icon and, once it matches, the transformation. */
  lemma ToggleTwice(s: FieldState)
    ensures Toggled(Toggled(s)).current == s.current
    ensures Toggled(Toggled(s)).transformation == TransformationFor(s.current)
    ensures (Invariant(s) && Shown(s, s.current) && s.transformation == TransformationFor(s.current)
             && s.selection == Utf16Length(s.text)) ==> Toggled(Toggled(s)) == s
  {
    if Invariant(s) && Shown(s, s.current) {
      ToggleKeepsFlags(s);
      ToggleKeepsFlags(Toggled(s));
    }
  }

  /** The state after a touch, whether it was consumed, and whether it went to the user's listener. */
  datatype TouchOutcome = TouchOutcome(state: FieldState, consumed: bool, forwarded: bool)

  /** `onTouch(event)` with the event's truncated x, its action and what the user's listener would answer. */
  function Touched(s: FieldState, layout: Layout, x: int, action: int, listenerAnswer: bool): (r: TouchOutcome)
    ensures r.forwarded <==>
      !(Shown(s, s.current) && HitsIcon(layout, IconWidth(s, s.current), x)) && s.hasTouchListener
    ensures r.consumed == ((Shown(s, s.current) && HitsIcon(layout, IconWidth(s, s.current), x))
                           || (r.forwarded && listenerAnswer))
    ensures action == ACTION_UP && Shown(s, s.current) && HitsIcon(layout, IconWidth(s, s.current), x) ==>
      r.state == Toggled(s)
    ensures r.state.current != s.current <==>
      (action == ACTION_UP && Shown(s, s.current) && HitsIcon(layout, IconWidth(s, s.current), x))
    ensures r.state.current == s.current ==> r.state == s
  {
    if Shown(s, s.current) && HitsIcon(layout, IconWidth(s, s.current), x) then
      TouchOutcome(if action == ACTION_UP then Toggled(s) else s, true, false)
    else
      TouchOutcome(s, s.hasTouchListener && listenerAnswer, s.hasTouchListener)
  }

  /** The callbacks the platform can deliver, and the two listener setters. */
  datatype Event =
    | FocusChange(hasFocus: bool)
    | TextChange(text: string)
    | Touch(layout: Layout, x: int, action: int, listenerAnswer: bool)
    | SetFocusListener(present: bool)
    | SetTouchListener(present: bool)

  function Apply(s: FieldState, e: Event): FieldState {
    match e
    case FocusChange(hasFocus) => FocusChanged(s, hasFocus)
    case TextChange(text) => TextChanged(s, text)
    case Touch(layout, x, action, answer) => Touched(s, layout, x, action, answer).state
    case SetFocusListener(present) => s.(hasFocusListener := present)
    case SetTouchListener(present) => s.(hasTouchListener := present)
  }

  function Run(s: FieldState, events: seq<Event>): FieldState
    decreases |events|
  {
    if events == [] then s else Run(Apply(s, events[0]), events[1..])
  }

  lemma ApplyKeepsInvariant(s: FieldState, e: Event)
    requires Invariant(s)
    ensures Invariant(Apply(s, e))
  {
    match e
    case FocusChange(hasFocus) =>
    case TextChange(text) =>
    case Touch(layout, x, action, answer) =>
      if action == ACTION_UP && Shown(s, s.current) && HitsIcon(layout, IconWidth(s, s.current), x) {
        ToggleKeepsFlags(s);
      }
    case SetFocusListener(present) =>
    case SetTouchListener(present) =>
  }

  /**
   * Whatever the platform delivers after construction, the end slot holds
   * the current icon exactly while the field is focused and not empty, and
   * holds nothing otherwise.
   */
  lemma {:induction false} RunKeepsInvariant(s: FieldState, events: seq<Event>)
    requires Invariant(s)
    ensures Invariant(Run(s, events))
    ensures Run(s, events).slots.end ==
      (if Run(s, events).focused && |Run(s, events).text| > 0
       then Some(PasswordIcon(Run(s, events).current)) else None)
    decreases |events|
  {
    if events != [] {
      ApplyKeepsInvariant(s, events[0]);
      RunKeepsInvariant(Apply(s, events[0]), events[1..]);
    }
  }

  lemma ApplyKeepsTransformationMatched(s: FieldState, e: Event)
    requires s.transformation == TransformationFor(s.current)
    ensures Apply(s, e).transformation == TransformationFor(Apply(s, e).current)
  {
    match e
    case FocusChange(hasFocus) =>
    case TextChange(text) =>
    case Touch(layout, x, action, answer) =>
    case SetFocusListener(present) =>
    case SetTouchListener(present) =>
  }

  /** The toggle only ever leaves the transformation matching the icon. */
  lemma {:induction false} RunKeepsTransformationMatched(s: FieldState, events: seq<Event>)
    requires s.transformation == TransformationFor(s.current)
    ensures Run(s, events).transformation == TransformationFor(Run(s, events).current)
    decreases |events|
  {
    if events != [] {
      ApplyKeepsTransformationMatched(s, events[0]);
      RunKeepsTransformationMatched(Apply(s, events[0]), events[1..]);
    }
  }

  /** The widget itself: the fields the Java class updates in its handlers. */
  class PasswordEditText {
    var current: Icon
    var visibleShown: bool
    var invisibleShown: bool
    const visibleWidth: int
    const invisibleWidth: int
    var startSlot: Option<Drawable>
    var topSlot: Option<Drawable>
    var endSlot: Option<Drawable>
    var bottomSlot: Option<Drawable>
    var transformation: Transformation
    var selection: int
    var text: string
    var focused: bool
    var hasFocusListener: bool
    var hasTouchListener: bool

    function State(): FieldState
      reads this
    {
      FieldState(current, visibleShown, invisibleShown, visibleWidth, invisibleWidth,
                 Slots(startSlot, topSlot, endSlot, bottomSlot),
                 transformation, selection, text, focused, hasFocusListener, hasTouchListener)
    }

    ghost predicate Valid()
      reads this
    {
      Invariant(State())
    }

    /** The slots, transformation, text and cursor come from the inflated view; the widths from the icons. */
    constructor (slots: Slots, transformation: Transformation, text: string, selection: int,
                 visibleWidth: int, invisibleWidth: int)
      ensures State() == Initial(slots, transformation, text, selection, visibleWidth, invisibleWidth)
      ensures Valid()
    {
      this.visibleWidth := visibleWidth;
      this.invisibleWidth := invisibleWidth;
      startSlot, topSlot, endSlot, bottomSlot := slots.start, slots.top, slots.end, slots.bottom;
      this.transformation := transformation;
      this.text := text;
      this.selection := selection;
      visibleShown, invisibleShown := true, true;
      focused, hasFocusListener, hasTouchListener := false, false, false;
      current := VisibleIcon;
      new;
      SetDrawableVisible(false);
    }

    function IsVisible(i: Icon): bool
      reads this
    {
      if i == VisibleIcon then visibleShown else invisibleShown
    }

    method SetDrawableVisible(visible: bool)
      modifies this
      ensures State() == DrawableVisible(old(State()), visible)
    {
      if IsVisible(current) == visible {
        return;
      }
      if current == VisibleIcon {
        visibleShown := visible;
      } else {
        invisibleShown := visible;
      }
      endSlot := if visible then Some(PasswordIcon(current)) else None;
    }

    method RefreshDrawableStatus()
      modifies this
      ensures State() == Refreshed(old(State()))
    {
      endSlot := Some(PasswordIcon(current));
    }

    method SetOnFocusChangeListener(present: bool)
      modifies this
      ensures State() == old(State()).(hasFocusListener := present)
    {
      hasFocusListener := present;
    }

    method SetOnTouchListener(present: bool)
      modifies this
      ensures State() == old(State()).(hasTouchListener := present)
    {
      hasTouchListener := present;
    }

    /** Returns whether the event is forwarded to a user focus listener. */
    method OnFocusChange(hasFocus: bool) returns (forwarded: bool)
      requires Valid()
      modifies this
      ensures State() == FocusChanged(old(State()), hasFocus)
      ensures forwarded == hasFocusListener
      ensures Valid()
    {
      focused := hasFocus;
      if hasFocus {
        SetDrawableVisible(|text| > 0);
      } else {
        SetDrawableVisible(false);
      }
      forwarded := hasFocusListener;
      ApplyKeepsInvariant(old(State()), FocusChange(hasFocus));
    }

    /** Returns whether the touch is consumed and whether it is passed on to a user touch listener. */
    method OnTouch(layout: Layout, x: int, action: int, listenerAnswer: bool) returns (consumed: bool, forwarded: bool)
      requires Valid()
      modifies this
      ensures TouchOutcome(State(), consumed, forwarded) == Touched(old(State()), layout, x, action, listenerAnswer)
      ensures Valid()
    {
      ApplyKeepsInvariant(State(), Touch(layout, x, action, listenerAnswer));
      var iconWidth := if current == VisibleIcon then visibleWidth else invisibleWidth;
      var touchDrawable := false;
      if layout.direction == LAYOUT_DIRECTION_LTR {
        touchDrawable := x > layout.width - iconWidth - layout.paddingEnd && x < layout.width - layout.paddingEnd;
      } else if layout.direction == LAYOUT_DIRECTION_RTL {
        touchDrawable := x > layout.paddingStart && x < layout.paddingStart + iconWidth;
      }
      if IsVisible(current) && touchDrawable {
        if action == ACTION_UP {
          Toggle();
        }
        return true, false;
      }
      return hasTouchListener && listenerAnswer, hasTouchListener;
    }

    /** The switch `onTouch` makes on ACTION_UP over the visible icon. */
    method Toggle()
      modifies this
      ensures State() == Toggled(old(State()))
    {
      // setting the transformation resets the text and calls OnTextChanged back
      if current == VisibleIcon {
        current := InvisibleIcon;
        transformation := Plain;
        OnTextChanged(text);
        RefreshDrawableStatus();
      } else if current == InvisibleIcon {
        current := VisibleIcon;
        transformation := Masked;
        OnTextChanged(text);
        RefreshDrawableStatus();
      }
      selection := Utf16Length(text);
    }

    /** Also reached from inside Toggle, where the state is between two consistent ones. */
    method OnTextChanged(newText: string)
      modifies this
      ensures State() == TextChanged(old(State()), newText)
      ensures old(Valid()) ==> Valid()
    {
      text := newText;
      if focused {
        SetDrawableVisible(|newText| > 0);
      }
      if Invariant(old(State())) {
        ApplyKeepsInvariant(old(State()), TextChange(newText));
      }
    }
  }
}
