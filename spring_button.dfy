/** The SpringButton widget: a horizontal row of text segments. Its state is the
    label array, the weight array, the corner radii, the button colour, an
    optional click listener and the child views it rebuilds from them; the
    setters replace parts of that state and rebuild the children, a tap on a
    child is routed to the listener with the child's current position, and
    drawing adds one divider line between every two neighbouring children. */
module SpringButtonWidget {
  import opened ItemBackground

  const INVALID_INDEX: int := -1

  /** The exceptions the widget can raise. */
  datatype Exception =
    | IllegalArgument(textsLength: int, weightsLength: int)
    | ArrayIndexOutOfBounds(length: int, index: int)

  /** How a call ends: it returns normally, or it throws. */
  datatype Outcome = Returned | Threw(exception: Exception)

  /** The listener the application registers; only its identity matters here. */
  class OnButtonClickListener {
  }

  /** One segment's child view, as `addButton` configures it: its text and tag
      (both the label), its two-state background and its layout weight. */
  class TextView {
    const text: string
    const tag: string
    const background: StateListBg
    const weight: real

    constructor (text: string, background: StateListBg, weight: real)
      ensures this.text == text && this.tag == text
      ensures this.background == background && this.weight == weight
    {
      this.text := text;
      this.tag := text;
      this.background := background;
      this.weight := weight;
    }
  }

  /** A call the widget makes to its listener: `onButtonClick(view, pos)`. */
  datatype ButtonClick = ButtonClick(listener: OnButtonClickListener, view: TextView, pos: int)

  /** The paint divider lines are stroked with. */
  datatype Paint = Paint(antiAlias: bool, strokeWidth: int, color: Color)

  /** One `drawLine(startX, startY, stopX, stopY, paint)` on the canvas. */
  datatype Line = Line(startX: int, startY: int, stopX: int, stopY: int, paint: Paint)

  ghost predicate Distinct(views: seq<TextView>) {
    forall i, j :: 0 <= i < j < |views| ==> views[i] != views[j]
  }

  /** The position of the first occurrence of `view` in `views`, or -1 when it
      does not occur. */
  function IndexOf(views: seq<TextView>, view: TextView): (r: int)
    ensures -1 <= r < |views|
    ensures r == -1 <==> view !in views
    ensures r != -1 ==> views[r] == view && forall j :: 0 <= j < r ==> views[j] != view
  {
    if views == [] then -1
    else if views[0] == view then 0
    else
      var k := IndexOf(views[1..], view);
      if k == -1 then -1 else k + 1
  }

  /** Each view is the one `addButton` builds at its position from these
      labels, weights, radii and colour. */
  ghost predicate SegmentsBuilt(views: seq<TextView>, texts: seq<string>, weights: seq<real>,
                                bounds: BoundsRadio, buttonColor: ColorStateList)
  {
    && |views| <= |texts| && |views| <= |weights|
    && forall i :: 0 <= i < |views| ==>
         && views[i].text == texts[i] && views[i].tag == texts[i]
         && views[i].weight == weights[i]
         && views[i].background == ItemBgDrawableAt(i, |texts|, bounds, buttonColor)
  }

  lemma DistinctAppend(views: seq<TextView>, view: TextView)
    requires Distinct(views) && view !in views
    ensures Distinct(views + [view])
  {
  }

  lemma SegmentsBuiltAppend(views: seq<TextView>, view: TextView, texts: seq<string>, weights: seq<real>,
                            bounds: BoundsRadio, buttonColor: ColorStateList)
    requires SegmentsBuilt(views, texts, weights, bounds, buttonColor)
    requires |views| < |texts| && |views| < |weights|
    requires view.text == texts[|views|] && view.tag == texts[|views|] && view.weight == weights[|views|]
    requires view.background == ItemBgDrawableAt(|views|, |texts|, bounds, buttonColor)
    ensures SegmentsBuilt(views + [view], texts, weights, bounds, buttonColor)
  {
  }

  class SpringButton {
    var textSize: real
    var textColor: ColorStateList
    var buttonDividerPadding: int
    var buttonDividerWidth: int
    var buttonDividerColor: Color
    var buttonColor: ColorStateList
    var buttonClickListener: OnButtonClickListener?
    var buttonTexts: array<string>
    var weight: array<real>
    var boundsRadio: BoundsRadio
    var dividerPaint: Paint
    /** The child views, in display order. */
    var children: seq<TextView>

    /** The class invariant: no view is a child twice. */
    ghost predicate Valid()
      reads this`children
    {
      Distinct(children)
    }

    /** The widget built without style attributes: the built-in defaults, no
        labels, no weights, no children and no listener. */
    constructor ()
      ensures textSize == 12.0 && textColor == ValueOf(0xffffffff)
      ensures buttonDividerPadding == 0 && buttonDividerWidth == 1 && buttonDividerColor == 0xffffffff
      ensures buttonColor == ValueOf(DEFAULT_BUTTON_COLOR) && boundsRadio == DEFAULT_BOUNDS_RADIO
      ensures buttonClickListener == null
      ensures buttonTexts.Length == 0 && weight.Length == 0 && children == []
      ensures dividerPaint == Paint(true, 1, 0xffffffff)
      ensures Valid()
    {
      textSize := 12.0;
      textColor := ValueOf(0xffffffff);
      buttonDividerPadding := 0;
      buttonDividerWidth := 1;
      buttonDividerColor := 0xffffffff;
      buttonColor := ValueOf(DEFAULT_BUTTON_COLOR);
      buttonClickListener := null;
      buttonTexts := new string[0];
      weight := new real[0];
      boundsRadio := DEFAULT_BOUNDS_RADIO;
      children := [];
      dividerPaint := Paint(true, buttonDividerWidth, buttonDividerColor);
    }

    /** The children are the first `n` segments built from the current state. */
    ghost predicate ChildrenBuilt(n: int)
      reads this, buttonTexts, weight
    {
      && 0 <= n <= buttonTexts.Length && n <= weight.Length
      && |children| == n
      && SegmentsBuilt(children, buttonTexts[..], weight[..], boundsRadio, buttonColor)
    }

    /** How a rebuild from the current state ends: it throws once it reaches a
        label that has no weight. */
    function RebuildOutcome(): Outcome
      reads this
    {
      if buttonTexts.Length <= weight.Length then Returned
      else Threw(ArrayIndexOutOfBounds(weight.Length, weight.Length))
    }

    /** The children were just rebuilt from the current state: one fresh view per
        label, as many as there are weights for, and `outcome` says whether the
        rebuild reached the last label. */
    twostate predicate Rebuilt(outcome: Outcome)
      reads this, buttonTexts, weight
    {
      && outcome == RebuildOutcome()
      && ChildrenBuilt(if buttonTexts.Length <= weight.Length then buttonTexts.Length else weight.Length)
      && Distinct(children)
      && forall i :: 0 <= i < |children| ==> fresh(children[i])
    }

    /** `addButton(index)`: builds the view for label `index` and appends it,
        or throws, before appending, when there is no weight at `index`. */
    method AddButton(index: int) returns (outcome: Outcome)
      requires 0 <= index < buttonTexts.Length
      requires Valid()
      modifies this`children
      ensures Valid()
      ensures outcome == if index < weight.Length then Returned else Threw(ArrayIndexOutOfBounds(weight.Length, index))
      ensures outcome.Threw? ==> children == old(children)
      ensures outcome.Returned? ==>
        && |children| == |old(children)| + 1
        && children[..|old(children)|] == old(children)
        && var child := children[|old(children)|];
           && fresh(child)
           && child.text == buttonTexts[index] && child.tag == buttonTexts[index]
           && child.weight == weight[index]
           && child.background == ItemBgDrawableAt(index, buttonTexts.Length, boundsRadio, buttonColor)
      ensures outcome.Returned? && |old(children)| == index &&
              SegmentsBuilt(old(children), buttonTexts[..], weight[..], boundsRadio, buttonColor) ==>
                SegmentsBuilt(children, buttonTexts[..], weight[..], boundsRadio, buttonColor)
    {
      var bg := ItemBgDrawableAt(index, buttonTexts.Length, boundsRadio, buttonColor);
      if index >= weight.Length {
        return Threw(ArrayIndexOutOfBounds(weight.Length, index));
      }
      var child := new TextView(buttonTexts[index], bg, weight[index]);
      if |children| == index && SegmentsBuilt(children, buttonTexts[..], weight[..], boundsRadio, buttonColor) {
        SegmentsBuiltAppend(children, child, buttonTexts[..], weight[..], boundsRadio, buttonColor);
      }
      DistinctAppend(children, child);
      children := children + [child];
      outcome := Returned;
    }

    /** `updateTexts`: drops every child and adds one per label, in order. */
    method UpdateTexts() returns (outcome: Outcome)
      modifies this`children
      ensures Rebuilt(outcome) && Valid()
    {
      children := [];
      var i := 0;
      while i < buttonTexts.Length
        invariant 0 <= i <= buttonTexts.Length && i <= weight.Length
        invariant |children| == i && SegmentsBuilt(children, buttonTexts[..], weight[..], boundsRadio, buttonColor)
        invariant Valid()
        invariant forall k :: 0 <= k < |children| ==> fresh(children[k])
      {
        outcome := AddButton(i);
        if outcome.Threw? {
          return;
        }
        i := i + 1;
      }
      outcome := Returned;
    }

    /** `resetWeights(len)`: a fresh weight array of `len` ones. */
    method ResetWeights(len: nat)
      modifies this`weight
      ensures fresh(weight) && weight.Length == len
      ensures forall i :: 0 <= i < len ==> weight[i] == 1.0
    {
      var ones := new real[len];
      var i := 0;
      while i < len
        invariant 0 <= i <= len
        invariant forall k :: 0 <= k < i ==> ones[k] == 1.0
      {
        ones[i] := 1.0;
        i := i + 1;
      }
      weight := ones;
    }

    /** `setButtons(texts, weights)`. A null label array changes nothing. A weight
        array whose length differs from the labels' throws before anything
        changes. Otherwise the labels are replaced and the children rebuilt; a
        null weight array first resets the weights to ones, while a non-null one
        is only checked, never stored. */
    method SetButtons(texts: array?<string>, weights: array?<real>) returns (outcome: Outcome)
      requires Valid()
      modifies this`buttonTexts, this`weight, this`children
      ensures Valid()
      ensures texts == null ==> outcome == Returned && unchanged(this)
      ensures texts != null && weights != null && weights.Length != texts.Length ==>
        outcome == Threw(IllegalArgument(texts.Length, weights.Length)) && unchanged(this)
      ensures texts != null && weights == null ==>
        && buttonTexts == texts
        && fresh(weight) && weight.Length == texts.Length
        && (forall i :: 0 <= i < weight.Length ==> weight[i] == 1.0)
        && Rebuilt(outcome) && outcome == Returned
      ensures texts != null && weights != null && weights.Length == texts.Length ==>
        && buttonTexts == texts
        && weight == old(weight)
        && Rebuilt(outcome)
    {
      if texts == null {
        return Returned;
      }
      if weights == null {
        ResetWeights(texts.Length);
      } else if weights.Length != texts.Length {
        return Threw(IllegalArgument(texts.Length, weights.Length));
      }
      buttonTexts := texts;
      outcome := UpdateTexts();
    }

    /** `setButtons(texts, weights)` as its length check suggests it was meant
        to be: a matching weight array is stored, so the weights always cover
        the labels and the rebuild never runs out of weights. */
    method SetButtonsStoringWeights(texts: array?<string>, weights: array?<real>) returns (outcome: Outcome)
      requires Valid()
      modifies this`buttonTexts, this`weight, this`children
      ensures Valid()
      ensures texts == null ==> outcome == Returned && unchanged(this)
      ensures texts != null && weights != null && weights.Length != texts.Length ==>
        outcome == Threw(IllegalArgument(texts.Length, weights.Length)) && unchanged(this)
      ensures texts != null && weights == null ==>
        && buttonTexts == texts
        && fresh(weight) && weight.Length == texts.Length
        && (forall i :: 0 <= i < weight.Length ==> weight[i] == 1.0)
      ensures texts != null && weights != null && weights.Length == texts.Length ==>
        buttonTexts == texts && weight == weights
      ensures texts != null && (weights == null || weights.Length == texts.Length) ==>
        outcome == Returned && Rebuilt(outcome) && |children| == texts.Length
    {
      if texts == null {
        return Returned;
      }
      if weights == null {
        ResetWeights(texts.Length);
      } else if weights.Length != texts.Length {
        return Threw(IllegalArgument(texts.Length, weights.Length));
      } else {
        weight := weights;
      }
      buttonTexts := texts;
      outcome := UpdateTexts();
    }

    /** `setButtons(texts)`: the same as passing no weights. */
    method SetButtonsUnweighted(texts: array?<string>) returns (outcome: Outcome)
      requires Valid()
      modifies this`buttonTexts, this`weight, this`children
      ensures Valid()
      ensures texts == null ==> outcome == Returned && unchanged(this)
      ensures texts != null ==>
        && buttonTexts == texts
        && fresh(weight) && weight.Length == texts.Length
        && (forall i :: 0 <= i < weight.Length ==> weight[i] == 1.0)
        && Rebuilt(outcome) && outcome == Returned
    {
      outcome := SetButtons(texts, null);
    }

    /** `setBoundsRadio(radio)`: null restores the all-zero radii; then the
        children are rebuilt with the new radii. */
    method SetBoundsRadio(radio: Option<BoundsRadio>) returns (outcome: Outcome)
      modifies this`boundsRadio, this`children
      ensures Valid()
      ensures boundsRadio == if radio.Some? then radio.value else DEFAULT_BOUNDS_RADIO
      ensures Rebuilt(outcome)
    {
      if radio.None? {
        boundsRadio := DEFAULT_BOUNDS_RADIO;
      } else {
        boundsRadio := radio.value;
      }
      outcome := UpdateTexts();
    }

    /** `setButtonColor(color)`: null changes nothing; otherwise the colour is
        replaced and the children rebuilt with it. */
    method SetButtonColor(color: Option<ColorStateList>) returns (outcome: Outcome)
      requires Valid()
      modifies this`buttonColor, this`children
      ensures Valid()
      ensures color.None? ==> outcome == Returned && unchanged(this)
      ensures color.Some? ==> buttonColor == color.value && Rebuilt(outcome)
    {
      if color.None? {
        return Returned;
      }
      buttonColor := color.value;
      outcome := UpdateTexts();
    }

    /** `setOnButtonClickListener(listener)`: replaces the listener, null included. */
    method SetOnButtonClickListener(listener: OnButtonClickListener?)
      modifies this`buttonClickListener
      ensures buttonClickListener == listener
    {
      buttonClickListener := listener;
    }

    /** `getChildIndex(view)`: the position of `view` among the children by
        identity, or `INVALID_INDEX` when it is not one of them. */
    method GetChildIndex(view: TextView) returns (result: int)
      ensures result == IndexOf(children, view)
      ensures result == INVALID_INDEX <==> view !in children
      ensures result != INVALID_INDEX ==> children[result] == view && forall j :: 0 <= j < result ==> children[j] != view
    {
      result := INVALID_INDEX;
      var i, size := 0, |children|;
      while i < size
        invariant 0 <= i <= size
        invariant forall j :: 0 <= j < i ==> children[j] != view
      {
        if view == children[i] {
          result := i;
          break;
        }
        i := i + 1;
      }
    }

    /** The click handler every child carries: the call it makes to the
        listener, if any. It calls only for a view that is a current child and
        only when a listener is set, with the view and its position, which is
        the one place the view holds since no view is a child twice. */
    method OnClick(view: TextView) returns (call: Option<ButtonClick>)
      requires Valid()
      ensures call.Some? <==> view in children && buttonClickListener != null
      ensures call.Some? ==> call.value == ButtonClick(buttonClickListener, view, IndexOf(children, view))
      ensures call.Some? ==> 0 <= call.value.pos < |children| && children[call.value.pos] == view
      ensures buttonClickListener != null ==>
        forall i :: 0 <= i < |children| && children[i] == view ==> call == Some(ButtonClick(buttonClickListener, view, i))
    {
      var index := GetChildIndex(view);
      if index == INVALID_INDEX {
        return None;
      }
      if buttonClickListener != null {
        call := Some(ButtonClick(buttonClickListener, view, index));
      } else {
        call := None;
      }
    }

    /** The divider pass of `draw`: one vertical line at the right edge of every
        child but the last, inset by the divider padding from top and bottom.
        `right` gives each child's right edge as laid out. */
    method Draw(height: int, right: TextView -> int) returns (lines: seq<Line>)
      ensures |lines| == if |children| == 0 then 0 else |children| - 1
      ensures forall i :: 0 <= i < |lines| ==>
        lines[i] == Line(right(children[i]), buttonDividerPadding, right(children[i]), height - buttonDividerPadding, dividerPaint)
    {
      lines := [];
      var i, childCount := 0, |children|;
      while i < childCount - 1
        invariant 0 <= i <= if childCount == 0 then 0 else childCount - 1
        invariant |lines| == i
        invariant forall k :: 0 <= k < i ==>
          lines[k] == Line(right(children[k]), buttonDividerPadding, right(children[k]), height - buttonDividerPadding, dividerPaint)
      {
        var child := children[i];
        var r := right(child);
        lines := lines + [Line(r, buttonDividerPadding, r, height - buttonDividerPadding, dividerPaint)];
        i := i + 1;
      }
    }
  }

  /** On a new widget, one label with one weight passes the length check, but the
      weight is dropped and the rebuild runs out of weights at the first label. */
  method WeightsDroppedCounterexample() returns (outcome: Outcome, children: seq<TextView>)
    ensures outcome == Threw(ArrayIndexOutOfBounds(0, 0)) && children == []
  {
    var button := new SpringButton();
    var texts := new string[1];
    texts[0] := "Button1";
    var weights := new real[1];
    weights[0] := 2.0;
    outcome := button.SetButtons(texts, weights);
    children := button.children;
  }

  /** A view kept from before a rebuild is no child any more, so tapping it
      calls nothing, even with a listener set. */
  method StaleTapIsIgnored(button: SpringButton, texts: array<string>) returns (call: Option<ButtonClick>)
    requires button.Valid() && |button.children| > 0
    modifies button
    ensures call == None
  {
    var stale := button.children[0];
    var outcome := button.SetButtonsUnweighted(texts);
    call := button.OnClick(stale);
  }

  /** After the labels are set, tapping the child at `i` calls the listener
      once, with that child and `i`. */
  method TapReportsPosition(button: SpringButton, texts: array<string>, listener: OnButtonClickListener, i: int)
    returns (call: Option<ButtonClick>)
    requires 0 <= i < texts.Length
    requires button.Valid()
    modifies button
    ensures |button.children| == texts.Length
    ensures call == Some(ButtonClick(listener, button.children[i], i))
  {
    var outcome := button.SetButtonsUnweighted(texts);
    button.SetOnButtonClickListener(listener);
    call := button.OnClick(button.children[i]);
  }
}
