/** Value types shared by the HUD model: an optional value and the
    CoreGraphics/UIKit geometry and colour records the HUD reads. */
module Common {

  datatype Option<+T> = None | Some(value: T)

  /** A CGPoint. */
  datatype Point = Point(x: real, y: real)

  /** A CGSize. */
  datatype Size = Size(width: real, height: real)
  {
    /** Sizes measured by the layout system never have a negative side. */
    predicate NonNegative() {
      width >= 0.0 && height >= 0.0
    }
  }

  /** A UIEdgeInsets. */
  datatype Insets = Insets(top: real, left: real, bottom: real, right: real)

  /** A UIColor, as its RGBA components. */
  datatype Color = Color(red: real, green: real, blue: real, alpha: real)

  /** UIColor.clear */
  const Clear := Color(0.0, 0.0, 0.0, 0.0)

  /** UIColor.black */
  const Black := Color(0.0, 0.0, 0.0, 1.0)

  /** UIColor.black.withAlphaComponent(0.2), the default colour of `mask()`. */
  const DefaultMaskColor := Color(0.0, 0.0, 0.0, 0.2)
}
