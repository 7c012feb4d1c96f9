/** The placement and width policy a HUD applies to its container view when
    it mounts, and the geometry those constraints denote once the layout
    engine solves them against the host view. */
module Layout {
  import opened Common

  /** TinyHUD.Position */
  datatype Position = Top | Mid | Bottom | Custom(center: Point)

  /** Offset of the container's top edge below the host's top for `.top`. */
  const TopOffset: real := 100.0

  /** Offset of the container's bottom edge from the host's bottom for `.bottom`. */
  const BottomOffset: real := -50.0

  /** How the container is anchored to its superview. */
  datatype Anchor =
    | CenterInSuperview                   // center == superview.center
    | CenterXAndTop(topOffset: real)      // centerX == superview.centerX, top == superview.top + offset
    | CenterXAndBottom(bottomOffset: real) // centerX == superview.centerX, bottom == superview.bottom + offset
    | CenterOffset(offset: Point)          // center == superview.center + offset

  /** How the container's width relates to its superview's width. */
  datatype WidthRule =
    | WidthEqual(ratio: real)    // width == superview.width * ratio
    | WidthAtMost(ratio: real)   // width <= superview.width * ratio

  datatype ContainerConstraints = ContainerConstraints(anchor: Anchor, width: WidthRule)

  /** The container constraints made in `main()`. */
  function Placement(position: Position, maxWidthRatio: real, fixedWidthRatio: Option<real>): ContainerConstraints {
    var anchor := match position
      case Mid => CenterInSuperview
      case Top => CenterXAndTop(TopOffset)
      case Bottom => CenterXAndBottom(BottomOffset)
      case Custom(p) => CenterOffset(p);
    var width := match fixedWidthRatio
      case Some(ratio) => WidthEqual(ratio)
      case None => WidthAtMost(maxWidthRatio);
    ContainerConstraints(anchor, width)
  }

  /** The container's centre that satisfies `anchor` in a host of size `host`
      for a container of size `container`. */
  function SolvedCenter(anchor: Anchor, host: Size, container: Size): Point {
    match anchor
    case CenterInSuperview => Point(host.width / 2.0, host.height / 2.0)
    case CenterXAndTop(offset) => Point(host.width / 2.0, offset + container.height / 2.0)
    case CenterXAndBottom(offset) => Point(host.width / 2.0, host.height + offset - container.height / 2.0)
    case CenterOffset(p) => Point(host.width / 2.0 + p.x, host.height / 2.0 + p.y)
  }

  /** The container's width that satisfies `rule` in a host of width
      `hostWidth` when its content would like `preferred`: an upper bound
      lets the content's preferred width stand as long as it fits. */
  function SolvedWidth(rule: WidthRule, hostWidth: real, preferred: real): real {
    match rule
    case WidthEqual(ratio) => ratio * hostWidth
    case WidthAtMost(ratio) => if preferred <= ratio * hostWidth then preferred else ratio * hostWidth
  }

  /** Each position places the container where its name says: `.mid` centres
      it; `.top` centres it horizontally with its top edge 100 below the
      host's; `.bottom` centres it horizontally with its bottom edge 50 above
      the host's; `.custom(p)` puts its centre at the host's centre moved by p. */
  lemma PositionMeaning(position: Position, maxWidthRatio: real, fixedWidthRatio: Option<real>,
                        host: Size, container: Size)
    ensures var c := SolvedCenter(Placement(position, maxWidthRatio, fixedWidthRatio).anchor, host, container);
      && c.x == host.width / 2.0 + (if position.Custom? then position.center.x else 0.0)
      && (position == Mid ==> c.y == host.height / 2.0)
      && (position == Top ==> c.y - container.height / 2.0 == 100.0)
      && (position == Bottom ==> host.height - (c.y + container.height / 2.0) == 50.0)
      && (position.Custom? ==> c.y == host.height / 2.0 + position.center.y)
  {
  }

  /** A fixed width ratio, when set, decides the width outright and the
      maximum ratio is ignored; otherwise the width never exceeds the maximum
      ratio of the host's width and equals the preferred width when that fits. */
  lemma WidthPolicy(position: Position, maxWidthRatio: real, fixedWidthRatio: Option<real>,
                    hostWidth: real, preferred: real)
    ensures var w := SolvedWidth(Placement(position, maxWidthRatio, fixedWidthRatio).width, hostWidth, preferred);
      && (fixedWidthRatio.Some? ==> w == fixedWidthRatio.value * hostWidth)
      && (fixedWidthRatio.None? ==> w <= maxWidthRatio * hostWidth)
      && (fixedWidthRatio.None? && preferred <= maxWidthRatio * hostWidth ==> w == preferred)
  {
  }

  /** Half the width of a 400-point host, for a fixed ratio of 0.5. */
  lemma FixedHalfOf400(position: Position, maxWidthRatio: real, preferred: real)
    ensures SolvedWidth(Placement(position, maxWidthRatio, Some(0.5)).width, 400.0, preferred) == 200.0
  {
  }
}
