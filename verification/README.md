# KennieViews widgets: password field and slanted corner view

This project models the two widgets of the KennieViews library that hold logic
of their own, and proves properties of the model in Dafny.

- **PasswordEditText** is an edit text with a toggle icon in its end
  compound-drawable slot. Focus changes and text changes decide whether the
  icon shows. A touch inside the icon's strip switches between the masked
  and the plain text transformation and moves the cursor to the end.
  `password_field.dfy` states each event as a pure step on `FieldState`.
  The class `PasswordEditText` holds the same state in fields, and its
  handlers are proved to perform exactly those steps. The main result is an
  invariant that every sequence of events keeps:
  - the end slot holds the current icon exactly when that icon's flag is set;
  - the other icon's flag is set;
  - the icon shows exactly while the field is focused and not empty.
- **SlantedView** is a square view. It fills a band or a triangle at one of
  its four corners and draws a label turned by 45 degrees.
  - `slanted.dfy` gives the outline of each of the eight modes as a pure
    function of (mode, width, height, slant length), and the label's
    placement in the same way.
  - The class `SlantedView` keeps the configuration that the chainable
    setters change.
  - `DrawBackground` builds the path through `moveTo`/`lineTo` calls on a
    `Graphics.Path`, and is proved to produce exactly the outline's verbs.
  - `graphics.dfy` models the path: a `lineTo` on a path with no open
    contour first injects a `moveTo`. On a new path that point is the
    origin, so the outlines of the modes that start with `lineTo` begin
    at (0, 0).

Exceptions become the `Err` side of `Wrappers.Result`:
- `NotSquare` stands for the IllegalStateException thrown by drawing;
- `UnknownMode` stands for the IllegalArgumentException thrown by drawing;
- `IllegalMode(argument)` stands for the IllegalArgumentException thrown by
  `setMode`;
- `NullText` stands for the NullPointerException drawing throws when the
  label text was set to null. A null text is `None` in the model.

Integer modelling:
- The slant length is an `int`, as `setSlantedLength(int)` sets it.
- Java's `(int)(x / 2f)` is written out as `TruncHalf`, which truncates
  toward zero. Dafny's own `/` would round down for negative numbers.

## Model

| member | source | states |
|---|---|---|
| PasswordField.Initial | widgets/src/main/java/com/kennie/lib/widgets/et/PasswordEditText.java:50-66 | after construction the current icon is the "show" icon, hidden, the end slot is empty, the other slots are as inflated, and the invariant holds |
| PasswordField.PasswordEditText.constructor | widgets/src/main/java/com/kennie/lib/widgets/et/PasswordEditText.java:50-66 | the constructed field's state is Initial (both icons start visible, then setDrawableVisible(false) runs) |
| PasswordField.DrawableVisible | widgets/src/main/java/com/kennie/lib/widgets/et/PasswordEditText.java:68-80 | afterwards the current icon's flag equals the argument; the end slot is rewritten (to the icon when visible, to nothing otherwise) exactly when the flag switches; the other icon's flag, the other three slots and every other field are unchanged |
| PasswordField.DrawableVisibleIdempotent | widgets/src/main/java/com/kennie/lib/widgets/et/PasswordEditText.java:68-71 | when the flag already has the value nothing changes; applying it twice equals applying it once |
| PasswordField.DrawableVisibleFrame | widgets/src/main/java/com/kennie/lib/widgets/et/PasswordEditText.java:72-80 | when the flag changes, only that flag and the end slot change; the end slot becomes the icon when visible, empty when not; start, top and bottom slots are untouched |
| PasswordField.Refreshed | widgets/src/main/java/com/kennie/lib/widgets/et/PasswordEditText.java:82-89 | the end slot holds the current icon; the start, top and bottom slots and every other field are unchanged |
| PasswordField.FocusChanged | widgets/src/main/java/com/kennie/lib/widgets/et/PasswordEditText.java:106-111 | after a focus change the icon shows exactly when focus was gained with non-empty text; apart from the recorded focus, only the current icon's flag and, when that flag switches, the end slot change |
| PasswordField.TextChanged | widgets/src/main/java/com/kennie/lib/widgets/et/PasswordEditText.java:167-171 | while focused the icon shows exactly when the new text is non-empty, and apart from the text only the current icon's flag and, when it switches, the end slot change; while unfocused only the text changes |
| PasswordField.HitsIcon | widgets/src/main/java/com/kennie/lib/widgets/et/PasswordEditText.java:123-137 | a hit for left-to-right layout is width - iconW - paddingEnd < x < width - paddingEnd, for right-to-left paddingStart < x < paddingStart + iconW; any other direction never hits |
| PasswordField.HitStripsMirror | widgets/src/main/java/com/kennie/lib/widgets/et/PasswordEditText.java:129-137 | x hits in left-to-right layout exactly when width - x hits in right-to-left layout with the paddings swapped |
| PasswordField.Utf16Length | widgets/src/main/java/com/kennie/lib/widgets/et/PasswordEditText.java:152-155 | the cursor position String.length() gives lies between the number of characters and twice that |
| PasswordField.Toggled | widgets/src/main/java/com/kennie/lib/widgets/et/PasswordEditText.java:140-155 | the toggle switches to the other icon, sets the plain transformation for the "hide" icon and the masked one for the "show" icon, puts the new icon in the end slot and leaves the other slots alone, and moves the cursor to the text's UTF-16 length; the re-entered onTextChanged (:167-171) can only set the new icon's flag, to whether a focused field has text; the old icon's flag and all other fields are unchanged |
| PasswordField.ToggleKeepsFlags | widgets/src/main/java/com/kennie/lib/widgets/et/PasswordEditText.java:139-155 | on every toggle a touch can trigger from a consistent state, both flags are kept and the invariant holds afterwards with the new icon showing |
| PasswordField.ToggleTwice | widgets/src/main/java/com/kennie/lib/widgets/et/PasswordEditText.java:141-155 | two toggles restore the icon and give the transformation of the original icon; from a consistent state with the icon showing, the matching transformation and the cursor at the end they restore the whole state |
| PasswordField.Touched | widgets/src/main/java/com/kennie/lib/widgets/et/PasswordEditText.java:122-160 | the touch goes to the user listener exactly when it misses the visible icon and a listener is registered; it is consumed exactly when it hits the visible icon or the listener consumes it; on ACTION_UP over the visible icon the new state is Toggled; in every other case the state is unchanged |
| PasswordField.ApplyKeepsInvariant | widgets/src/main/java/com/kennie/lib/widgets/et/PasswordEditText.java:106-171 | every event keeps the field's invariant |
| PasswordField.RunKeepsInvariant | widgets/src/main/java/com/kennie/lib/widgets/et/PasswordEditText.java:59-171 | after any sequence of events the invariant holds and the end slot holds the current icon exactly while focused with non-empty text |
| PasswordField.RunKeepsTransformationMatched | widgets/src/main/java/com/kennie/lib/widgets/et/PasswordEditText.java:139-151 | once the transformation matches the icon, no sequence of events breaks that |
| PasswordField.PasswordEditText.SetDrawableVisible | widgets/src/main/java/com/kennie/lib/widgets/et/PasswordEditText.java:68-80 | the handler performs DrawableVisible on the fields |
| PasswordField.PasswordEditText.RefreshDrawableStatus | widgets/src/main/java/com/kennie/lib/widgets/et/PasswordEditText.java:82-89 | the handler performs Refreshed on the fields |
| PasswordField.PasswordEditText.SetOnFocusChangeListener | widgets/src/main/java/com/kennie/lib/widgets/et/PasswordEditText.java:91-94 | only the focus-listener registration changes |
| PasswordField.PasswordEditText.SetOnTouchListener | widgets/src/main/java/com/kennie/lib/widgets/et/PasswordEditText.java:96-99 | only the touch-listener registration changes |
| PasswordField.PasswordEditText.OnFocusChange | widgets/src/main/java/com/kennie/lib/widgets/et/PasswordEditText.java:105-115 | the handler performs FocusChanged, keeps the invariant and forwards the event exactly when a listener is registered |
| PasswordField.PasswordEditText.OnTouch | widgets/src/main/java/com/kennie/lib/widgets/et/PasswordEditText.java:121-160 | the handler performs Touched, returns its consumed and forwarded flags and keeps the invariant |
| PasswordField.PasswordEditText.Toggle | widgets/src/main/java/com/kennie/lib/widgets/et/PasswordEditText.java:140-155 | the inline switch, including the re-entered onTextChanged, performs Toggled on the fields |
| PasswordField.PasswordEditText.OnTextChanged | widgets/src/main/java/com/kennie/lib/widgets/et/PasswordEditText.java:166-171 | the handler performs TextChanged; a consistent state stays consistent |
| Graphics.TracedFromEmpty | widgets/src/main/java/com/kennie/lib/widgets/views/SlantedView.java:200-212 | lineTo calls on a new path trace a contour that starts at the origin |
| Graphics.TracedAfterMove | widgets/src/main/java/com/kennie/lib/widgets/views/SlantedView.java:192-198 | a moveTo on a new path followed by lineTo calls traces a contour from the moveTo point |
| Slanted.Outline | widgets/src/main/java/com/kennie/lib/widgets/views/SlantedView.java:159-186 | exactly the modes 0..7 select an outline; band modes give four vertices, triangle modes three |
| Slanted.Background | widgets/src/main/java/com/kennie/lib/widgets/views/SlantedView.java:152-190 | width != height fails with NotSquare before the mode is considered; otherwise a mode outside 0..7 fails with UnknownMode; otherwise the path is one contour (a moveTo, then lineTos, then close) whose vertices are the outline of the mode |
| Slanted.OutlineInside | widgets/src/main/java/com/kennie/lib/widgets/views/SlantedView.java:192-245 | with 0 <= L <= w and L <= h every vertex lies in [0,w] x [0,h] |
| Slanted.TriangleCorners | widgets/src/main/java/com/kennie/lib/widgets/views/SlantedView.java:222-245 | a triangle outline is three corners of the rectangle: its named corner and the two next to it, never the opposite one |
| Slanted.TriangleIgnoresLength | widgets/src/main/java/com/kennie/lib/widgets/views/SlantedView.java:222-245 | the triangle outlines do not depend on the slant length |
| Slanted.BandBetweenDiagonals | widgets/src/main/java/com/kennie/lib/widgets/views/SlantedView.java:192-220 | in a square of side w, two band vertices are at taxicab distance w from the named corner and two at w - L |
| Slanted.TriangleOnDiagonal | widgets/src/main/java/com/kennie/lib/widgets/views/SlantedView.java:222-245 | a triangle outline has the named corner and two vertices at distance w from it |
| Slanted.FullBandIsTriangle | widgets/src/main/java/com/kennie/lib/widgets/views/SlantedView.java:192-245 | a band with L = w has the same vertices as the triangle of its corner |
| Slanted.BandArea | widgets/src/main/java/com/kennie/lib/widgets/views/SlantedView.java:192-220 | twice the band's area is w * w - (w - L) * (w - L) |
| Slanted.TriangleArea | widgets/src/main/java/com/kennie/lib/widgets/views/SlantedView.java:222-245 | twice a triangle's area is w * w |
| Slanted.TruncHalf | widgets/src/main/java/com/kennie/lib/widgets/views/SlantedView.java:266 | the offset (int)(L / 2f) is L halved and truncated toward zero |
| Slanted.LabelLayout | widgets/src/main/java/com/kennie/lib/widgets/views/SlantedView.java:247-327 | a label placement exists exactly for the modes 0..7 |
| Slanted.LabelPlacement | widgets/src/main/java/com/kennie/lib/widgets/views/SlantedView.java:262-327 | the rotation is -45 for the top-left and bottom-right families and +45 for the others; the rotation centre is the box centre; the box is (int)(w - L/2) by (int)(h - L/2), shifted by the offset for the right and bottom corners |
| Slanted.TriangleSharesLabel | widgets/src/main/java/com/kennie/lib/widgets/views/SlantedView.java:267-324 | each triangle mode places its label like the band mode of the same corner |
| Slanted.Render | widgets/src/main/java/com/kennie/lib/widgets/views/SlantedView.java:143-149 | drawing fails as the background does when the background fails; with a good background a null text fails with NullText; otherwise it yields the background path, the label placement and the text |
| Slanted.ModeAfterSet | widgets/src/main/java/com/kennie/lib/widgets/views/SlantedView.java:367-373 | setMode succeeds exactly when the stored mode is valid, stores the argument unchecked, and otherwise throws naming the argument |
| Slanted.SetModeChecksStoredMode | widgets/src/main/java/com/kennie/lib/widgets/views/SlantedView.java:367-373 | setMode(8) on a valid view succeeds, the next draw fails, and setMode(1) after it is refused |
| Slanted.ModeAfterSetIntended | widgets/src/main/java/com/kennie/lib/widgets/views/SlantedView.java:367-373 | the corrected setMode succeeds exactly for an argument in 0..7 |
| Slanted.IntendedKeepsModeValid | widgets/src/main/java/com/kennie/lib/widgets/views/SlantedView.java:367-373 | with the corrected setMode the stored mode stays in 0..7 and drawing a square with a non-null text never fails |
| Slanted.SlantedView.constructor | widgets/src/main/java/com/kennie/lib/widgets/views/SlantedView.java:74-92 | defaults: empty text, text size 14, white text, transparent background, slant length 40, mode MODE_LEFT |
| Slanted.SlantedView.SetText | widgets/src/main/java/com/kennie/lib/widgets/views/SlantedView.java:329-333 | only the text changes, to the argument, null included; returns the same view |
| Slanted.SlantedView.SetTextResource | widgets/src/main/java/com/kennie/lib/widgets/views/SlantedView.java:335-341 | an empty resource string leaves the view unchanged; otherwise only the text changes; returns the same view |
| Slanted.SlantedView.GetText | widgets/src/main/java/com/kennie/lib/widgets/views/SlantedView.java:343-345 | returns the stored text, null included |
| Slanted.SlantedView.SetSlantedBackgroundColor | widgets/src/main/java/com/kennie/lib/widgets/views/SlantedView.java:347-352 | only the background colour changes; returns the same view |
| Slanted.SlantedView.SetTextColor | widgets/src/main/java/com/kennie/lib/widgets/views/SlantedView.java:354-359 | only the text colour changes; returns the same view |
| Slanted.SlantedView.SetMode | widgets/src/main/java/com/kennie/lib/widgets/views/SlantedView.java:367-373 | as ModeAfterSet: when the stored mode is valid only the mode changes, to the argument, and the view is returned; otherwise nothing changes and IllegalMode(argument) is thrown |
| Slanted.SlantedView.GetMode | widgets/src/main/java/com/kennie/lib/widgets/views/SlantedView.java:375-377 | returns the stored mode, valid or not |
| Slanted.SlantedView.SetTextSize | widgets/src/main/java/com/kennie/lib/widgets/views/SlantedView.java:379-384 | only the text size changes; returns the same view |
| Slanted.SlantedView.SetSlantedLength | widgets/src/main/java/com/kennie/lib/widgets/views/SlantedView.java:392-396 | only the slant length changes; returns the same view |
| Slanted.SlantedView.ModeLeftPath | widgets/src/main/java/com/kennie/lib/widgets/views/SlantedView.java:192-198 | the path gains moveTo(w,0) and the remaining left-band vertices as lineTo calls |
| Slanted.SlantedView.ModeRightPath | widgets/src/main/java/com/kennie/lib/widgets/views/SlantedView.java:200-205 | the path gains lineTo calls through the right-band vertices |
| Slanted.SlantedView.ModeLeftBottomPath | widgets/src/main/java/com/kennie/lib/widgets/views/SlantedView.java:207-212 | the path gains lineTo calls through the left-bottom-band vertices |
| Slanted.SlantedView.ModeRightBottomPath | widgets/src/main/java/com/kennie/lib/widgets/views/SlantedView.java:214-220 | the path gains moveTo(0,h) and the remaining right-bottom-band vertices |
| Slanted.SlantedView.ModeLeftTrianglePath | widgets/src/main/java/com/kennie/lib/widgets/views/SlantedView.java:222-226 | the path gains lineTo calls through the left-triangle vertices |
| Slanted.SlantedView.ModeRightTrianglePath | widgets/src/main/java/com/kennie/lib/widgets/views/SlantedView.java:228-232 | the path gains lineTo calls through the right-triangle vertices |
| Slanted.SlantedView.ModeLeftBottomTrianglePath | widgets/src/main/java/com/kennie/lib/widgets/views/SlantedView.java:234-238 | the path gains lineTo calls through the left-bottom-triangle vertices |
| Slanted.SlantedView.ModeRightBottomTrianglePath | widgets/src/main/java/com/kennie/lib/widgets/views/SlantedView.java:240-245 | the path gains moveTo(0,h) and the remaining right-bottom-triangle vertices |
| Slanted.SlantedView.TraceOutline | widgets/src/main/java/com/kennie/lib/widgets/views/SlantedView.java:159-186 | the builder the stored mode selects leaves exactly that mode's outline on the new path as one open contour; any other mode selects no builder |
| Slanted.SlantedView.DrawBackground | widgets/src/main/java/com/kennie/lib/widgets/views/SlantedView.java:152-190 | building the path step by step yields exactly Background for the stored mode and slant length |
| Slanted.SlantedView.OnDraw | widgets/src/main/java/com/kennie/lib/widgets/views/SlantedView.java:143-149 | drawing yields exactly Render for the stored configuration |

## Left out

- Attribute inflation (`init`, `obtainStyledAttributes`) is not modelled. The SlantedView constructor models a view inflated without attributes, so a mode, text or length coming from XML is not modelled.
- Text measurement and centring inside the label box (`measureText`, `ascent`, `descent`) are not modelled. They use floating point and the platform's text paint. The model stops at the box, the rotation and the rotation centre.
- Canvas drawing, `Paint`/`Xfermode` setup, `canvas.save`/`rotate` and `postInvalidate` are not modelled. They are platform calls with no effect on the modelled state. Colours and text size are kept only as stored values.
- Slanted.Render: the canvas is taken to be the size of the view. The slant length is an integer and float arithmetic is treated as exact. The source stores the length as a float, because an attribute can set a fractional length.
- Drawable loading and wrapping, and the transformation-method singletons, are not modelled. The icons are two abstract values with given intrinsic widths. Android drawables start visible, and the model encodes this as both flags starting true.
- MotionEvent is not modelled. A touch is its truncated x, its action code and the answer the user's touch listener would give. The listeners themselves are only present or absent.
- `getText()` is taken to be non-null. The null branches at PasswordEditText.java:107 and :153 are not modelled.
- Of what `setTransformationMethod` does, only the text reset's call back into the field's own `onTextChanged` is modelled. Its other effects (re-layout, the platform's cursor handling) are not, and the cursor is set explicitly right after it.
- The platform's own changes to the cursor on a text change are not modelled, and neither are other code's calls that set compound drawables or drawable visibility.
- `beforeTextChanged` and `afterTextChanged` are empty in the source and are not modelled.
- Graphics.Path: a `moveTo` always appends a verb, and curve verbs are not modelled. The slanted view uses neither a repeated `moveTo` nor curves.
- MainWidgetActivity, MainAdapter and TagShapeActivity are not modelled. They are UI wiring with no logic of their own.

## Findings

| source | as written | input that shows it | evidently intended | confidence | as-written member | corrected member |
|---|---|---|---|---|---|---|
| widgets/src/main/java/com/kennie/lib/widgets/views/SlantedView.java:367-373 | setMode validates the stored mode, not its argument | setMode(8) on a new view succeeds. The next draw throws IllegalArgumentException, and every later setMode, even setMode(1), throws as well. | validate the argument, which the exception message names | high; not executed | Slanted.SetModeChecksStoredMode | Slanted.IntendedKeepsModeValid |

`SlantedView.SetMode` keeps the as-written behaviour because that is what the widget does.
