# SpringButton, modelled in Dafny

SpringButton is an Android widget: a horizontal row of text segments that act as one
connected button group. The widget keeps an array of labels, an array of layout
weights, four corner radii (`BoundsRadio`), a button colour that depends on the press
state, an optional click listener, and the child views it rebuilds from all of these.

This project models that logic:

- `item_background.dfy`, module `ItemBackground`. This part is pure. It holds the
  `BoundsRadio` value, the button colour as a two-colour list, and each segment's
  rounded-rectangle background. The rectangle keeps one (x, y) radius pair per
  corner, as the toolkit's eight-number corner array does. The state-list drawable
  keeps its entries in the order they were added and shows the first one whose
  state matches. This module also chooses a segment's radii from its position in
  the row.
  In the Java class these are private helpers (lines 199-241). They read only the
  radii, the button colour and the number of labels (line 202), and build new
  drawables from them. So they are pure functions of those values and the
  segment's index, kept in their own module apart from the state they are called
  from. `FirstItemBg`, `NormalItemBg`, `LastItemBg` and `ItemBgDrawableAt` follow
  `getFirstItemBg`, `getNormalItemBg`, `getLastItemBg` and `getItemBGDrawable`. The
  radii they give at each position are stated in the lemma `PositionRadii`.
- `spring_button.dfy`, module `SpringButtonWidget`. This part is imperative. The class
  `SpringButton` holds the fields that the Java class updates. Labels and weights are
  arrays, so `setButtons` aliases the caller's label array just as Java does. The
  children are a sequence of freshly allocated `TextView` objects. This module models
  the setters, the rebuild (`updateTexts`/`addButton`), the identity search
  `getChildIndex`, the click handler and the divider pass of `draw`.

Exceptions are modelled as an `Outcome`: a call either returns or throws.
`IllegalArgumentException` and `ArrayIndexOutOfBoundsException` carry the lengths and
the index involved. The rebuild has no precondition. When the weight array is shorter
than the label array, it throws at the first label with no weight (line 178). It keeps
the children it has already added, because that exception comes before `addView` at
line 181.

Three behaviours of the code may look unintended. The model follows the code in each:

- `setButtons(null, …)` returns without changing anything (lines 140-143). The
  segments already shown stay as they are.
- `setButtonColor(null)` returns without changing anything (lines 123-126). The only
  sign that a default colour list was meant here is the TODO at line 124.
- A lone segment takes the first-segment branch at line 200. It gets only its left
  radii, although its right corners are on the outline too.
  `ItemBackground.LoneSegmentKeepsOnlyLeftRadii` states this.

## Model

| member | source | states |
|---|---|---|
| `ItemBackground.ValueOf` | app/src/main/java/com/rod/springbutton/SpringButton.java:40-44 | a single-colour list gives that colour in every press state |
| `ItemBackground.ItemBgDrawable` | app/src/main/java/com/rod/springbutton/SpringButton.java:229-234 | the rectangle has the given colour, every corner is a circular arc (x radius = y radius), and reading the radii back gives the requested `BoundsRadio` |
| `ItemBackground.AddState` | app/src/main/java/com/rod/springbutton/SpringButton.java:239-240 | an added entry goes after the earlier ones: in each state the list shows what it showed before, and only where nothing matched before does it show the new drawable, if its spec matches |
| `ItemBackground.StateListDrawable` | app/src/main/java/com/rod/springbutton/SpringButton.java:237-241 | the pressed drawable is added first, so it is shown when pressed; the catch-all normal drawable is shown otherwise |
| `ItemBackground.ItemBgStateListDrawable` | app/src/main/java/com/rod/springbutton/SpringButton.java:222-226 | the idle state shows a rectangle of the idle colour and the pressed state one of the pressed colour, both with the given radii |
| `ItemBackground.PositionRadii` | app/src/main/java/com/rod/springbutton/SpringButton.java:199-219 | in every state the segment at `index` shows a drawable of that state's colour; each corner is circular, with the widget's radius at the left corners of index 0 and at the right corners of a last index other than 0, and zero elsewhere |
| `ItemBackground.OutlineCornersOnly` | app/src/main/java/com/rod/springbutton/SpringButton.java:199-219 | in a row of two or more segments, a corner is rounded with the widget's radius exactly when it lies on the row's outline |
| `ItemBackground.LoneSegmentKeepsOnlyLeftRadii` | app/src/main/java/com/rod/springbutton/SpringButton.java:200-201 | a single segment has radii (topLeft, 0, 0, bottomLeft), although its right corners are on the outline |
| `ItemBackground.PressChangesOnlyColor` | app/src/main/java/com/rod/springbutton/SpringButton.java:222-226 | a segment's pressed background is its normal background with the pressed colour in place of the idle colour: same radii, nothing else differs |
| `SpringButtonWidget.IndexOf` | app/src/main/java/com/rod/springbutton/SpringButton.java:244-254 | the result is the smallest position holding the view, or -1 exactly when the view is absent |
| `SpringButtonWidget.SpringButton.constructor` | app/src/main/java/com/rod/springbutton/SpringButton.java:39-56 | a new widget has the default text size, colours, divider padding, width and paint, all-zero radii, no labels, weights, children or listener |
| `SpringButtonWidget.SpringButton.AddButton` | app/src/main/java/com/rod/springbutton/SpringButton.java:169-181 | appends one fresh child whose text and tag are label `index`, whose weight is weight `index` and whose background is chosen by the position; throws out-of-bounds without appending when there is no weight at `index` |
| `SpringButtonWidget.SpringButton.UpdateTexts` | app/src/main/java/com/rod/springbutton/SpringButton.java:162-167 | the old children are dropped; the new ones are distinct fresh views, one per label up to the number of weights, each built from its own label, weight and position; the call throws exactly when there are more labels than weights |
| `SpringButtonWidget.SpringButton.ResetWeights` | app/src/main/java/com/rod/springbutton/SpringButton.java:155-160 | the weight array is a fresh array of `len` entries, all 1 |
| `SpringButtonWidget.SpringButton.SetButtons` | app/src/main/java/com/rod/springbutton/SpringButton.java:139-153 | null labels: nothing changes; mismatched weight length: throws an illegal-argument exception and nothing changes; null weights: labels replaced, weights reset to ones, full rebuild that returns; matching weights: labels replaced, weight array left as it was, rebuild |
| `SpringButtonWidget.SpringButton.SetButtonsStoringWeights` | app/src/main/java/com/rod/springbutton/SpringButton.java:139-153 | the corrected setter: the same cases, but matching weights are stored, and every accepted call rebuilds all labels and returns |
| `SpringButtonWidget.SpringButton.SetButtonsUnweighted` | app/src/main/java/com/rod/springbutton/SpringButton.java:135-137 | null labels change nothing; otherwise labels replaced, weights all 1 with the labels' length, full rebuild that returns |
| `SpringButtonWidget.SpringButton.SetBoundsRadio` | app/src/main/java/com/rod/springbutton/SpringButton.java:112-120 | the radii become the given value, or all zero for null; the children are rebuilt with them |
| `SpringButtonWidget.SpringButton.SetButtonColor` | app/src/main/java/com/rod/springbutton/SpringButton.java:122-129 | null changes nothing (colour and children untouched); otherwise the colour is replaced and the children are rebuilt |
| `SpringButtonWidget.SpringButton.SetOnButtonClickListener` | app/src/main/java/com/rod/springbutton/SpringButton.java:131-133 | the listener becomes the given one, null included, and nothing else changes |
| `SpringButtonWidget.SpringButton.GetChildIndex` | app/src/main/java/com/rod/springbutton/SpringButton.java:244-254 | returns the first position whose child is the view (by identity), or `INVALID_INDEX` exactly when it is no child |
| `SpringButtonWidget.SpringButton.OnClick` | app/src/main/java/com/rod/springbutton/SpringButton.java:183-194 | calls the listener, at most once, exactly when the view is a current child and a listener is set, with the view and its first position; since no view is a child twice (the class invariant `Valid`, which the constructor and every method that changes the children keep), that is the one position where the view sits |
| `SpringButtonWidget.SpringButton.Draw` | app/src/main/java/com/rod/springbutton/SpringButton.java:257-266 | for n children draws max(n-1, 0) lines; line i runs from (right edge of child i, padding) to (same x, height - padding) with the divider paint |
| `SpringButtonWidget.WeightsDroppedCounterexample` | app/src/main/java/com/rod/springbutton/SpringButton.java:145-152 | on a new widget, one label with one weight passes the check but the rebuild throws out-of-bounds at index 0 and leaves no child |
| `SpringButtonWidget.StaleTapIsIgnored` | app/src/main/java/com/rod/springbutton/SpringButton.java:185-189 | a view from before a rebuild is no longer a child, so tapping it calls nothing |
| `SpringButtonWidget.TapReportsPosition` | app/src/main/java/com/rod/springbutton/SpringButton.java:185-194 | after labels are set and a listener registered, tapping child i calls the listener once with that child and i |

## Left out

- Attribute parsing (`parseAttrs`, lines 77-103) and the two constructors that take attributes (lines 58-68): these are Android resource lookups. Only the built-in defaults are modelled.
- `init` (lines 70-75): `setWillNotDraw` and `setOrientation` are toolkit calls. The paint that `initDividerPaint` builds is kept as the `dividerPaint` value.
- Text colour, text size, gravity and the layout parameters other than the weight that `addButton` sets on a child (lines 171-172, 178-180): these are toolkit rendering. `removeAllViews`/`addView` become updates of the child sequence.
- The weighted layout pass and `onMeasure` (lines 269-271) belong to `LinearLayout`. `Draw` takes each child's laid-out right edge as a parameter, and `super.draw` is not modelled.
- `ColorStateList` is reduced to the two queries the widget makes, for the empty state set and for `{pressed}`. The `DEFAULT_BUTTON_COLOR` fallback for a state that no entry matches is therefore never needed.
- The listener's own behaviour is code that cannot be seen here. `OnClick` returns the call it makes instead of performing it.
- Radii, weights and text size are Java floats and are modelled as reals. The code only copies and selects them.
- A Java `String[]` may hold null labels; `setText(null)` then shows an empty text and `setTag(null)` stores null. Labels here are strings, which cannot be null, so null labels are not modelled.
- A child's tag is a Java `Object`. Here it is the label string, which is all the code stores in it.
- SpringButtonWidget.SpringButton.Draw: does not model 32-bit wrap-around of `height - mButtonDividerPadding`. It uses unbounded integers, because heights and paddings are small pixel counts.
- MainActivity.java is demo wiring (`setContentView`, `findViewById`, a `Toast`) and is not part of this model.

## Findings

| source | as written | input that shows it | evidently intended | confidence | as-written member | corrected member |
|---|---|---|---|---|---|---|
| app/src/main/java/com/rod/springbutton/SpringButton.java:145-151 | a non-null `weights` array is checked against the labels' length, but it is never stored in `mWeight` | a new widget, `setButtons({"Button1"}, {2f})`: the check passes, `mWeight` is still empty, and `addButton(0)` throws `ArrayIndexOutOfBoundsException` at line 178 | store the checked weights (`mWeight = weights`), so the weights always cover the labels and the rebuild never runs out | high (not executed) | `SpringButtonWidget.WeightsDroppedCounterexample` | `SpringButtonWidget.SpringButton.SetButtonsStoringWeights` |
