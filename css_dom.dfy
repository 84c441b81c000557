/**
 * The style properties of a CSS box that can be read and written by their
 * CSS names.
 */
module CssDom {
  /**
   * The 65 style properties of a box that have a CSS name, listed in the
   * order of the getter's name table.
   */
  datatype Prop =
    | BorderBottomWidth
    | BorderLeftWidth
    | BorderRightWidth
    | BorderTopWidth
    | BorderBottomStyle
    | BorderLeftStyle
    | BorderRightStyle
    | BorderTopStyle
    | BorderBottomColor
    | BorderLeftColor
    | BorderRightColor
    | BorderTopColor
    | BorderSpacing
    | BorderCollapse
    | CornerRadius
    | CornerNwRadius
    | CornerNeRadius
    | CornerSeRadius
    | CornerSwRadius
    | MarginBottom
    | MarginLeft
    | MarginRight
    | MarginTop
    | PaddingBottom
    | PaddingLeft
    | PaddingRight
    | PaddingTop
    | PageBreakInside
    | Left
    | Top
    | Width
    | MaxWidth
    | Height
    | BackgroundColor
    | BackgroundImage
    | BackgroundPosition
    | BackgroundRepeat
    | BackgroundGradient
    | BackgroundGradientAngle
    | Content
    | Color
    | Display
    | Direction
    | EmptyCells
    | Float
    | Position
    | LineHeight
    | VerticalAlign
    | TextIndent
    | TextAlign
    | TextDecoration
    | WhiteSpace
    | WordBreak
    | Visibility
    | WordSpacing
    | FontFamily
    | FontSize
    | FontStyle
    | FontVariant
    | FontWeight
    | ListStyle
    | ListStylePosition
    | ListStyleImage
    | ListStyleType
    | Overflow

  /**
   * A grouping of the properties by CSS family, in the same order as the
   * properties themselves:
   *   Border: border widths, styles and colours, border-spacing and border-collapse
   *   Corner: corner radii
   *   Spacing: margins and paddings
   *   Geometry: page-break-inside, offsets and sizes
   *   Background: background properties
   *   Flow: content, color, display, direction, empty-cells, float and position
   *   Text: line and text properties, white-space, word-break, visibility and word-spacing
   *   Font: font properties
   *   List: list-style properties and overflow
   */
  datatype PropGroup = Border | Corner | Spacing | Geometry | Background | Flow | Text | Font | List

  /** The family that property p belongs to. */
  function GroupOf(p: Prop): PropGroup
  {
    match p
    case BorderBottomWidth => Border
    case BorderLeftWidth => Border
    case BorderRightWidth => Border
    case BorderTopWidth => Border
    case BorderBottomStyle => Border
    case BorderLeftStyle => Border
    case BorderRightStyle => Border
    case BorderTopStyle => Border
    case BorderBottomColor => Border
    case BorderLeftColor => Border
    case BorderRightColor => Border
    case BorderTopColor => Border
    case BorderSpacing => Border
    case BorderCollapse => Border
    case CornerRadius => Corner
    case CornerNwRadius => Corner
    case CornerNeRadius => Corner
    case CornerSeRadius => Corner
    case CornerSwRadius => Corner
    case MarginBottom => Spacing
    case MarginLeft => Spacing
    case MarginRight => Spacing
    case MarginTop => Spacing
    case PaddingBottom => Spacing
    case PaddingLeft => Spacing
    case PaddingRight => Spacing
    case PaddingTop => Spacing
    case PageBreakInside => Geometry
    case Left => Geometry
    case Top => Geometry
    case Width => Geometry
    case MaxWidth => Geometry
    case Height => Geometry
    case BackgroundColor => Background
    case BackgroundImage => Background
    case BackgroundPosition => Background
    case BackgroundRepeat => Background
    case BackgroundGradient => Background
    case BackgroundGradientAngle => Background
    case Content => Flow
    case Color => Flow
    case Display => Flow
    case Direction => Flow
    case EmptyCells => Flow
    case Float => Flow
    case Position => Flow
    case LineHeight => Text
    case VerticalAlign => Text
    case TextIndent => Text
    case TextAlign => Text
    case TextDecoration => Text
    case WhiteSpace => Text
    case WordBreak => Text
    case Visibility => Text
    case WordSpacing => Text
    case FontFamily => Font
    case FontSize => Font
    case FontStyle => Font
    case FontVariant => Font
    case FontWeight => Font
    case ListStyle => List
    case ListStylePosition => List
    case ListStyleImage => List
    case ListStyleType => List
    case Overflow => List
  }

  /**
   * A CSS box, as far as its named style properties go. Each property holds
   * its own string value, which the box's setters store as given.
   */
  class CssBox {
    var props: map<Prop, string>

    /** Every property has a value. */
    ghost predicate Valid()
      reads this
    {
      forall p: Prop :: p in props
    }

    /** A box whose properties hold the values of the given total table. */
    constructor (initial: map<Prop, string>)
      requires forall p: Prop :: p in initial
      ensures Valid()
      ensures props == initial
    {
      props := initial;
    }
  }
}
