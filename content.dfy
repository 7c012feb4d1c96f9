/** The bundled content views of a HUD (TinyHUDContentView.swift): the keys
    they register under, the factories they register, and the sizing rule the
    icon+text view applies once the HUD is mounted. */
module Content {
  import opened Common

  /** The JSON payload handed to a factory; only its string reading is used. */
  datatype Json = Json(stringValue: Option<string>)

  /** A TinyHUDKey. */
  datatype HudKey = HudKey(rawValue: string)

  const PlainText := HudKey("plainText")
  const Success := HudKey("success")
  const Failure := HudKey("failure")
  const Info := HudKey("info")

  /** The axis of the icon+text stack view. */
  datatype Axis = Vertical | Horizontal

  /** A constructed content view. `CustomView` stands for a view class that
      is registered by the application and is not part of this model. */
  datatype ContentView =
    | TextView(text: Option<string>)
    | ImageTextView(caption: string, imageName: string, axis: Axis)
    | CustomView(id: nat)

  /** A TinyHUDFactory: payload in, content view (or nothing) out. */
  type Factory = Option<Json> -> Option<ContentView>

  /** `context?.stringValue` */
  function StringValue(context: Option<Json>): Option<string> {
    match context
    case None => None
    case Some(json) => json.stringValue
  }

  /** `context?.stringValue ?? ""` */
  function TextOrEmpty(context: Option<Json>): string {
    match StringValue(context)
    case None => ""
    case Some(s) => s
  }

  /** The factory TinyHUDContentView_Text registers under `plainText`. */
  function PlainTextFactory(context: Option<Json>): Option<ContentView> {
    Some(TextView(StringValue(context)))
  }

  /** The factory registered under `success`: a vertical stack with the "check" icon. */
  function SuccessFactory(context: Option<Json>): Option<ContentView> {
    Some(ImageTextView(TextOrEmpty(context), "check", Vertical))
  }

  /** The factory registered under `failure`: a vertical stack with the "wrong" icon. */
  function FailureFactory(context: Option<Json>): Option<ContentView> {
    Some(ImageTextView(TextOrEmpty(context), "wrong", Vertical))
  }

  /** The factory registered under `info`: a horizontal stack with the "information" icon. */
  function InfoFactory(context: Option<Json>): Option<ContentView> {
    Some(ImageTextView(TextOrEmpty(context), "information", Horizontal))
  }

  /** The bundled content view classes that can be passed to `TinyHUD.register(_:)`. */
  datatype ContentKind = TextKind | ImageTextKind

  // ---------------------------------------------------------------------------
  // Sizing of the icon+text view (updateConstraints(hud:))
  // ---------------------------------------------------------------------------

  /** `stackView.spacing` */
  const StackSpacing: real := 5.0

  /** The pixel size of an image's backing CGImage. */
  datatype PixelSize = PixelSize(width: nat, height: nat)

  /** The measurements the sizing rule takes from UIKit: the label's
      `sizeThatFits`, the pixel size of each named image asset, the screen
      scale, and the image view's current bounds width. */
  datatype Measurements = Measurements(
    labelFits: real -> Size,
    imagePixels: string -> Option<PixelSize>,
    screenScale: real,
    imageBoundsWidth: real)
  {
    ghost predicate Valid() {
      screenScale > 0.0 && forall w: real :: labelFits(w).NonNegative()
    }
  }

  /** The icon's natural size in points, recorded by the icon+text view's
      initialiser: the CGImage's pixel size divided by the screen scale, or
      zero when the image has no CGImage. */
  function NaturalImageSize(pixels: Option<PixelSize>, scale: real): (s: Size)
    requires scale > 0.0
    ensures s.NonNegative()
    ensures pixels.None? ==> s == Size(0.0, 0.0)
    ensures pixels.Some? ==>
      s.width * scale == pixels.value.width as real && s.height * scale == pixels.value.height as real
  {
    match pixels
    case None => Size(0.0, 0.0)
    case Some(p) => Size(p.width as real / scale, p.height as real / scale)
  }

  /** The width offered to `label.sizeThatFits`: the host width scaled by the
      HUD's maximum width ratio, less the horizontal insets, and, in a
      horizontal stack, less the stack spacing and the image view's width. */
  function LabelBudget(axis: Axis, hostWidth: real, maxWidthRatio: real,
                       insets: Insets, imageBoundsWidth: real): real
  {
    match axis
    case Vertical => hostWidth * maxWidthRatio - insets.left - insets.right
    case Horizontal =>
      hostWidth * maxWidthRatio - insets.left - insets.right - StackSpacing - imageBoundsWidth
  }

  /** Whether the icon is larger than the measured label along the stack's
      cross dimension (height for a horizontal stack, width for a vertical one). */
  predicate IconOverflows(axis: Axis, natural: Size, measured: Size) {
    match axis
    case Horizontal => natural.height > measured.height
    case Vertical => natural.width > measured.width
  }

  /** The icon size after `updateConstraints(hud:)`: scaled down, keeping its
      aspect ratio, to the label's height (horizontal) or width (vertical)
      when it overflows, and its natural size otherwise. */
  function IconSize(axis: Axis, natural: Size, measured: Size): (r: Size)
    requires natural.NonNegative() && measured.NonNegative()
    ensures r.NonNegative()
    ensures r.width <= natural.width && r.height <= natural.height
    ensures r.width * natural.height == r.height * natural.width
    ensures IconOverflows(axis, natural, measured) && axis == Horizontal ==> r.height == measured.height
    ensures IconOverflows(axis, natural, measured) && axis == Vertical ==> r.width == measured.width
    ensures !IconOverflows(axis, natural, measured) ==> r == natural
  {
    if !IconOverflows(axis, natural, measured) then natural
    else if axis == Horizontal then
      var w := Shrink(measured.height, natural.height, natural.width);
      Size(w, measured.height)
    else
      var h := Shrink(measured.width, natural.width, natural.height);
      Size(measured.width, h)
  }

  /** `other` scaled by `fit / side`, where `0 <= fit < side`: the other side
      of a box of side `side` shrunk to side `fit`. It is non-negative, never
      larger than `other`, and keeps the box's aspect ratio. */
  function Shrink(fit: real, side: real, other: real): (r: real)
    requires 0.0 <= fit < side && other >= 0.0
    ensures 0.0 <= r <= other
    ensures r * side == fit * other
  {
    var q := fit / side;
    assert 0.0 <= q < 1.0;
    assert q * side == fit;
    assert q * other <= 1.0 * other;
    assert q * other * side == q * side * other;
    q * other
  }

  /** The constraints the icon+text view writes when the HUD mounts: the label
      is constrained to exactly the size it measured within its budget, and
      the icon (when its image has a CGImage) to `IconSize`. */
  datatype ContentSizing = ContentSizing(labelSize: Size, iconSize: Option<Size>)

  /** `updateConstraints(hud:)` of a content view. Only the icon+text view
      overrides it; the text view keeps the base class's empty body. */
  function UpdateConstraints(view: ContentView, hostWidth: real, maxWidthRatio: real,
                             insets: Insets, m: Measurements): (r: Option<ContentSizing>)
    requires m.Valid()
    ensures r.Some? <==> view.ImageTextView?
    ensures r.Some? ==>
      r.value.labelSize == m.labelFits(LabelBudget(view.axis, hostWidth, maxWidthRatio, insets, m.imageBoundsWidth))
    ensures r.Some? ==> (r.value.iconSize.Some? <==> m.imagePixels(view.imageName).Some?)
    ensures r.Some? && r.value.iconSize.Some? ==>
      var natural := NaturalImageSize(m.imagePixels(view.imageName), m.screenScale);
      var icon := r.value.iconSize.value;
      && icon.width <= natural.width && icon.height <= natural.height
      && icon.width * natural.height == icon.height * natural.width
    ensures r.Some? && r.value.iconSize.Some? ==>
      r.value.iconSize.value == IconSize(view.axis, NaturalImageSize(m.imagePixels(view.imageName), m.screenScale),
                                         r.value.labelSize)
  {
    match view
    case ImageTextView(_, name, axis) =>
      var measured := m.labelFits(LabelBudget(axis, hostWidth, maxWidthRatio, insets, m.imageBoundsWidth));
      var pixels := m.imagePixels(name);
      var icon := if pixels.Some? then Some(IconSize(axis, NaturalImageSize(pixels, m.screenScale), measured)) else None;
      Some(ContentSizing(measured, icon))
    case _ => None
  }

  /** The horizontal budget is the vertical one less the stack spacing and the
      image view's width; neither depends on anything but the maximum width
      ratio (a fixed width ratio is not an input). */
  lemma HorizontalBudgetIsNarrower(hostWidth: real, maxWidthRatio: real, insets: Insets, imageBoundsWidth: real)
    ensures LabelBudget(Horizontal, hostWidth, maxWidthRatio, insets, imageBoundsWidth)
         == LabelBudget(Vertical, hostWidth, maxWidthRatio, insets, imageBoundsWidth) - StackSpacing - imageBoundsWidth
    ensures imageBoundsWidth >= 0.0 ==>
      LabelBudget(Horizontal, hostWidth, maxWidthRatio, insets, imageBoundsWidth)
      < LabelBudget(Vertical, hostWidth, maxWidthRatio, insets, imageBoundsWidth)
  {
  }
}
