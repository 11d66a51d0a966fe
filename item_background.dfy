/** Backgrounds of the segments of a SpringButton: the widget's corner radii
    (`BoundsRadio`), the button colour resolved per press state, one rounded
    rectangle per state, the two-state drawable that picks between them, and the
    choice of radii by the position of a segment in the row. Everything here is
    a value built from arguments; nothing is mutated. */
module ItemBackground {

  /** An ARGB colour, as the 32-bit pattern of a Java `int`. */
  type Color = bv32

  const DEFAULT_BUTTON_COLOR: Color := 0x00000000

  datatype Corner = TopLeft | TopRight | BottomRight | BottomLeft {
    predicate IsLeft() { this == TopLeft || this == BottomLeft }
    predicate IsRight() { this == TopRight || this == BottomRight }
  }

  /** The immutable four-corner radius value; its accessors are the getters. */
  datatype BoundsRadio = BoundsRadio(topLeftRadio: real, topRightRadio: real,
                                     bottomRightRadio: real, bottomLeftRadio: real)
  {
    function RadiusAt(c: Corner): real {
      match c
      case TopLeft => topLeftRadio
      case TopRight => topRightRadio
      case BottomRight => bottomRightRadio
      case BottomLeft => bottomLeftRadio
    }
  }

  const DEFAULT_BOUNDS_RADIO: BoundsRadio := BoundsRadio(0.0, 0.0, 0.0, 0.0)

  /** The two state sets the widget asks a colour list about: `{}` and `{pressed}`. */
  datatype PressState = Idle | Pressed

  /** A colour state list seen through the only two queries the widget makes. */
  datatype ColorStateList = ColorStateList(idleColor: Color, pressedColor: Color)
  {
    function ColorForState(s: PressState): Color {
      match s
      case Idle => idleColor
      case Pressed => pressedColor
    }
  }

  /** A colour list holding a single colour for every state. */
  function ValueOf(color: Color): (csl: ColorStateList)
    ensures forall s :: csl.ColorForState(s) == color
  {
    ColorStateList(color, color)
  }

  /** An elliptical corner: its horizontal and vertical radius. */
  datatype RadiusPair = RadiusPair(x: real, y: real)

  /** A filled rounded rectangle: its colour and, per corner, the (x, y) pair
      of the toolkit's eight-number corner-radius array, which lists the
      corners top-left, top-right, bottom-right, bottom-left. */
  datatype GradientBg = GradientBg(color: Color, topLeft: RadiusPair, topRight: RadiusPair,
                                   bottomRight: RadiusPair, bottomLeft: RadiusPair)
  {
    function PairAt(c: Corner): RadiusPair {
      match c
      case TopLeft => topLeft
      case TopRight => topRight
      case BottomRight => bottomRight
      case BottomLeft => bottomLeft
    }

    /** Every corner is a circular arc. */
    predicate IsCircular() {
      topLeft.x == topLeft.y && topRight.x == topRight.y &&
      bottomRight.x == bottomRight.y && bottomLeft.x == bottomLeft.y
    }

    /** The corner radii, read back from the horizontal radii. */
    function CornersOf(): BoundsRadio {
      BoundsRadio(topLeft.x, topRight.x, bottomRight.x, bottomLeft.x)
    }
  }

  /** `getItemBgDrawable`: one rounded rectangle of the given colour whose every
      corner is a circular arc of the requested radius. */
  function ItemBgDrawable(color: Color, radii: BoundsRadio): (g: GradientBg)
    ensures g.color == color && g.IsCircular() && g.CornersOf() == radii
  {
    var tl, tr, br, bl := radii.topLeftRadio, radii.topRightRadio, radii.bottomRightRadio, radii.bottomLeftRadio;
    GradientBg(color, RadiusPair(tl, tl), RadiusPair(tr, tr), RadiusPair(br, br), RadiusPair(bl, bl))
  }

  /** The state set an entry of a state-list drawable is registered for. */
  datatype StateSpec = WhenPressed | AnyState

  predicate Matches(spec: StateSpec, s: PressState) {
    spec == AnyState || s == Pressed
  }

  /** A state-list drawable: its entries in the order they were added. */
  datatype StateListBg = NoStates | WithState(spec: StateSpec, drawable: GradientBg, next: StateListBg)

  datatype Option<T> = None | Some(value: T)

  /** The drawable shown in state `s`: that of the first entry whose spec
      matches, or none when no entry matches. */
  function Shown(list: StateListBg, s: PressState): Option<GradientBg> {
    match list
    case NoStates => None
    case WithState(spec, drawable, next) => if Matches(spec, s) then Some(drawable) else Shown(next, s)
  }

  /** `addState`: a new entry goes after all earlier ones, so it is shown only
      in the states that no earlier entry matches. */
  function AddState(list: StateListBg, spec: StateSpec, drawable: GradientBg): (r: StateListBg)
    ensures forall s ::
              Shown(r, s) ==
                if Shown(list, s).Some? then Shown(list, s)
                else if Matches(spec, s) then Some(drawable)
                else None
  {
    match list
    case NoStates => WithState(spec, drawable, NoStates)
    case WithState(spec', drawable', next) => WithState(spec', drawable', AddState(next, spec, drawable))
  }

  /** `getStateListDrawable`: the pressed drawable is added first, so it is shown
      whenever the state is pressed; the catch-all normal drawable otherwise. */
  function StateListDrawable(normal: GradientBg, pressed: GradientBg): (r: StateListBg)
    ensures Shown(r, Pressed) == Some(pressed)
    ensures Shown(r, Idle) == Some(normal)
  {
    AddState(AddState(NoStates, WhenPressed, pressed), AnyState, normal)
  }

  /** The two-state background of one segment: in each state a rectangle of
      the button colour for that state, with the same radii in both. */
  function ItemBgStateListDrawable(buttonColor: ColorStateList, radii: BoundsRadio): (r: StateListBg)
    ensures Shown(r, Idle) == Some(ItemBgDrawable(buttonColor.idleColor, radii))
    ensures Shown(r, Pressed) == Some(ItemBgDrawable(buttonColor.pressedColor, radii))
  {
    var normal := ItemBgDrawable(buttonColor.ColorForState(Idle), radii);
    var pressed := ItemBgDrawable(buttonColor.ColorForState(Pressed), radii);
    StateListDrawable(normal, pressed)
  }

  function FirstItemBg(bounds: BoundsRadio, buttonColor: ColorStateList): StateListBg {
    ItemBgStateListDrawable(buttonColor, BoundsRadio(bounds.topLeftRadio, 0.0, 0.0, bounds.bottomLeftRadio))
  }

  function NormalItemBg(buttonColor: ColorStateList): StateListBg {
    ItemBgStateListDrawable(buttonColor, DEFAULT_BOUNDS_RADIO)
  }

  function LastItemBg(bounds: BoundsRadio, buttonColor: ColorStateList): StateListBg {
    ItemBgStateListDrawable(buttonColor, BoundsRadio(0.0, bounds.topRightRadio, bounds.bottomRightRadio, 0.0))
  }

  /** `getItemBGDrawable`: the background of the segment at `index` in a row
      of `count` segments, chosen by position. */
  function ItemBgDrawableAt(index: int, count: int, bounds: BoundsRadio, buttonColor: ColorStateList): StateListBg
  {
    if index == 0 then FirstItemBg(bounds, buttonColor)
    else if index == count - 1 then LastItemBg(bounds, buttonColor)
    else NormalItemBg(buttonColor)
  }

  /** Whether the segment at `index` of `count` keeps the widget's radius at
      corner `c`: the left corners of the first segment (also when it is the
      only one) and the right corners of a last segment that is not also first. */
  predicate Rounded(index: int, count: int, c: Corner) {
    (index == 0 && c.IsLeft()) || (index != 0 && index == count - 1 && c.IsRight())
  }

  /** The radius a segment is drawn with at a corner, in either state. */
  function SegmentRadius(index: int, count: int, bounds: BoundsRadio, c: Corner): real {
    if Rounded(index, count, c) then bounds.RadiusAt(c) else 0.0
  }

  /** The segment at `index` of `count`: in each state it shows a drawable of
      that state's colour, and every corner is a circular arc whose radius is
      the widget's where `Rounded` holds and zero elsewhere. */
  lemma PositionRadii(index: int, count: int, bounds: BoundsRadio, buttonColor: ColorStateList, s: PressState, c: Corner)
    ensures var shown := Shown(ItemBgDrawableAt(index, count, bounds, buttonColor), s);
      && shown.Some?
      && shown.value.color == buttonColor.ColorForState(s)
      && shown.value.PairAt(c) == RadiusPair(SegmentRadius(index, count, bounds, c), SegmentRadius(index, count, bounds, c))
  {
  }

  /** Whether corner `c` of segment `index` lies on the outline of a row of `count` segments. */
  predicate OnOutline(index: int, count: int, c: Corner) {
    (index == 0 && c.IsLeft()) || (index == count - 1 && c.IsRight())
  }

  /** In a row of two or more segments, a corner is rounded with the widget's
      radius exactly when it lies on the row's outline, and square otherwise. */
  lemma OutlineCornersOnly(index: int, count: int, bounds: BoundsRadio, buttonColor: ColorStateList, s: PressState, c: Corner)
    requires 0 <= index < count && count >= 2
    ensures Shown(ItemBgDrawableAt(index, count, bounds, buttonColor), s).value.PairAt(c).x ==
      if OnOutline(index, count, c) then bounds.RadiusAt(c) else 0.0
  {
    PositionRadii(index, count, bounds, buttonColor, s, c);
  }

  /** A lone segment is treated as the first one: its right corners stay square
      whatever the widget's right radii are, although they lie on the outline. */
  lemma LoneSegmentKeepsOnlyLeftRadii(bounds: BoundsRadio, buttonColor: ColorStateList, s: PressState)
    ensures Shown(ItemBgDrawableAt(0, 1, bounds, buttonColor), s).Some?
    ensures Shown(ItemBgDrawableAt(0, 1, bounds, buttonColor), s).value.CornersOf() ==
      BoundsRadio(bounds.topLeftRadio, 0.0, 0.0, bounds.bottomLeftRadio)
    ensures OnOutline(0, 1, TopRight) && OnOutline(0, 1, BottomRight)
  {
    PositionRadii(0, 1, bounds, buttonColor, s, TopLeft);
  }

  /** Pressing a segment swaps only the colour of its background: the pressed
      drawable is the normal one with the pressed colour in place of the idle one. */
  lemma PressChangesOnlyColor(index: int, count: int, bounds: BoundsRadio, buttonColor: ColorStateList)
    ensures var r := ItemBgDrawableAt(index, count, bounds, buttonColor);
      && Shown(r, Pressed).Some? && Shown(r, Idle).Some?
      && Shown(r, Idle).value.color == buttonColor.idleColor
      && Shown(r, Pressed).value == Shown(r, Idle).value.(color := buttonColor.pressedColor)
  {
  }
}
