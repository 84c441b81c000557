/**
 * Reading and writing the style properties of a CSS box by their CSS names,
 * and the name table that both operations follow.
 */
module CssUtils {
  import opened CssDom

  /** A nullable result: None stands for null. */
  datatype Option<T> = None | Some(value: T)

  /** The CSS name of each property. */
  const BorderBottomWidthName: string := "border-bottom-width"
  const BorderLeftWidthName: string := "border-left-width"
  const BorderRightWidthName: string := "border-right-width"
  const BorderTopWidthName: string := "border-top-width"
  const BorderBottomStyleName: string := "border-bottom-style"
  const BorderLeftStyleName: string := "border-left-style"
  const BorderRightStyleName: string := "border-right-style"
  const BorderTopStyleName: string := "border-top-style"
  const BorderBottomColorName: string := "border-bottom-color"
  const BorderLeftColorName: string := "border-left-color"
  const BorderRightColorName: string := "border-right-color"
  const BorderTopColorName: string := "border-top-color"
  const BorderSpacingName: string := "border-spacing"
  const BorderCollapseName: string := "border-collapse"
  const CornerRadiusName: string := "corner-radius"
  const CornerNwRadiusName: string := "corner-nw-radius"
  const CornerNeRadiusName: string := "corner-ne-radius"
  const CornerSeRadiusName: string := "corner-se-radius"
  const CornerSwRadiusName: string := "corner-sw-radius"
  const MarginBottomName: string := "margin-bottom"
  const MarginLeftName: string := "margin-left"
  const MarginRightName: string := "margin-right"
  const MarginTopName: string := "margin-top"
  const PaddingBottomName: string := "padding-bottom"
  const PaddingLeftName: string := "padding-left"
  const PaddingRightName: string := "padding-right"
  const PaddingTopName: string := "padding-top"
  const PageBreakInsideName: string := "page-break-inside"
  const LeftName: string := "left"
  const TopName: string := "top"
  const WidthName: string := "width"
  const MaxWidthName: string := "max-width"
  const HeightName: string := "height"
  const BackgroundColorName: string := "background-color"
  const BackgroundImageName: string := "background-image"
  const BackgroundPositionName: string := "background-position"
  const BackgroundRepeatName: string := "background-repeat"
  const BackgroundGradientName: string := "background-gradient"
  const BackgroundGradientAngleName: string := "background-gradient-angle"
  const ContentName: string := "content"
  const ColorName: string := "color"
  const DisplayName: string := "display"
  const DirectionName: string := "direction"
  const EmptyCellsName: string := "empty-cells"
  const FloatName: string := "float"
  const PositionName: string := "position"
  const LineHeightName: string := "line-height"
  const VerticalAlignName: string := "vertical-align"
  const TextIndentName: string := "text-indent"
  const TextAlignName: string := "text-align"
  const TextDecorationName: string := "text-decoration"
  const WhiteSpaceName: string := "white-space"
  const WordBreakName: string := "word-break"
  const VisibilityName: string := "visibility"
  const WordSpacingName: string := "word-spacing"
  const FontFamilyName: string := "font-family"
  const FontSizeName: string := "font-size"
  const FontStyleName: string := "font-style"
  const FontVariantName: string := "font-variant"
  const FontWeightName: string := "font-weight"
  const ListStyleName: string := "list-style"
  const ListStylePositionName: string := "list-style-position"
  const ListStyleImageName: string := "list-style-image"
  const ListStyleTypeName: string := "list-style-type"
  const OverflowName: string := "overflow"

  /** The CSS name under which property p is read and written. */
  function NameOf(p: Prop): string
  {
    match p
    case BorderBottomWidth => BorderBottomWidthName
    case BorderLeftWidth => BorderLeftWidthName
    case BorderRightWidth => BorderRightWidthName
    case BorderTopWidth => BorderTopWidthName
    case BorderBottomStyle => BorderBottomStyleName
    case BorderLeftStyle => BorderLeftStyleName
    case BorderRightStyle => BorderRightStyleName
    case BorderTopStyle => BorderTopStyleName
    case BorderBottomColor => BorderBottomColorName
    case BorderLeftColor => BorderLeftColorName
    case BorderRightColor => BorderRightColorName
    case BorderTopColor => BorderTopColorName
    case BorderSpacing => BorderSpacingName
    case BorderCollapse => BorderCollapseName
    case CornerRadius => CornerRadiusName
    case CornerNwRadius => CornerNwRadiusName
    case CornerNeRadius => CornerNeRadiusName
    case CornerSeRadius => CornerSeRadiusName
    case CornerSwRadius => CornerSwRadiusName
    case MarginBottom => MarginBottomName
    case MarginLeft => MarginLeftName
    case MarginRight => MarginRightName
    case MarginTop => MarginTopName
    case PaddingBottom => PaddingBottomName
    case PaddingLeft => PaddingLeftName
    case PaddingRight => PaddingRightName
    case PaddingTop => PaddingTopName
    case PageBreakInside => PageBreakInsideName
    case Left => LeftName
    case Top => TopName
    case Width => WidthName
    case MaxWidth => MaxWidthName
    case Height => HeightName
    case BackgroundColor => BackgroundColorName
    case BackgroundImage => BackgroundImageName
    case BackgroundPosition => BackgroundPositionName
    case BackgroundRepeat => BackgroundRepeatName
    case BackgroundGradient => BackgroundGradientName
    case BackgroundGradientAngle => BackgroundGradientAngleName
    case Content => ContentName
    case Color => ColorName
    case Display => DisplayName
    case Direction => DirectionName
    case EmptyCells => EmptyCellsName
    case Float => FloatName
    case Position => PositionName
    case LineHeight => LineHeightName
    case VerticalAlign => VerticalAlignName
    case TextIndent => TextIndentName
    case TextAlign => TextAlignName
    case TextDecoration => TextDecorationName
    case WhiteSpace => WhiteSpaceName
    case WordBreak => WordBreakName
    case Visibility => VisibilityName
    case WordSpacing => WordSpacingName
    case FontFamily => FontFamilyName
    case FontSize => FontSizeName
    case FontStyle => FontStyleName
    case FontVariant => FontVariantName
    case FontWeight => FontWeightName
    case ListStyle => ListStyleName
    case ListStylePosition => ListStylePositionName
    case ListStyleImage => ListStyleImageName
    case ListStyleType => ListStyleTypeName
    case Overflow => OverflowName
  }

  /*
   * The name table, one CSS family at a time: the property, if any, that a
   * CSS name of that family denotes.
   */

  /** The border widths, styles and colours, border-spacing and border-collapse. */
  function BorderPropOf(name: string): Option<Prop>
  {
    match name
    case "border-bottom-width"       => Some(BorderBottomWidth)
    case "border-left-width"         => Some(BorderLeftWidth)
    case "border-right-width"        => Some(BorderRightWidth)
    case "border-top-width"          => Some(BorderTopWidth)
    case "border-bottom-style"       => Some(BorderBottomStyle)
    case "border-left-style"         => Some(BorderLeftStyle)
    case "border-right-style"        => Some(BorderRightStyle)
    case "border-top-style"          => Some(BorderTopStyle)
    case "border-bottom-color"       => Some(BorderBottomColor)
    case "border-left-color"         => Some(BorderLeftColor)
    case "border-right-color"        => Some(BorderRightColor)
    case "border-top-color"          => Some(BorderTopColor)
    case "border-spacing"            => Some(BorderSpacing)
    case "border-collapse"           => Some(BorderCollapse)
    case _ => None
  }

  /** The corner radii. */
  function CornerPropOf(name: string): Option<Prop>
  {
    match name
    case "corner-radius"             => Some(CornerRadius)
    case "corner-nw-radius"          => Some(CornerNwRadius)
    case "corner-ne-radius"          => Some(CornerNeRadius)
    case "corner-se-radius"          => Some(CornerSeRadius)
    case "corner-sw-radius"          => Some(CornerSwRadius)
    case _ => None
  }

  /** The margins and paddings. */
  function SpacingPropOf(name: string): Option<Prop>
  {
    match name
    case "margin-bottom"             => Some(MarginBottom)
    case "margin-left"               => Some(MarginLeft)
    case "margin-right"              => Some(MarginRight)
    case "margin-top"                => Some(MarginTop)
    case "padding-bottom"            => Some(PaddingBottom)
    case "padding-left"              => Some(PaddingLeft)
    case "padding-right"             => Some(PaddingRight)
    case "padding-top"               => Some(PaddingTop)
    case _ => None
  }

  /** The page-break-inside, offsets and sizes. */
  function GeometryPropOf(name: string): Option<Prop>
  {
    match name
    case "page-break-inside"         => Some(PageBreakInside)
    case "left"                      => Some(Left)
    case "top"                       => Some(Top)
    case "width"                     => Some(Width)
    case "max-width"                 => Some(MaxWidth)
    case "height"                    => Some(Height)
    case _ => None
  }

  /** The background properties. */
  function BackgroundPropOf(name: string): Option<Prop>
  {
    match name
    case "background-color"          => Some(BackgroundColor)
    case "background-image"          => Some(BackgroundImage)
    case "background-position"       => Some(BackgroundPosition)
    case "background-repeat"         => Some(BackgroundRepeat)
    case "background-gradient"       => Some(BackgroundGradient)
    case "background-gradient-angle" => Some(BackgroundGradientAngle)
    case _ => None
  }

  /** The content, color, display, direction, empty-cells, float and position. */
  function FlowPropOf(name: string): Option<Prop>
  {
    match name
    case "content"                   => Some(Content)
    case "color"                     => Some(Color)
    case "display"                   => Some(Display)
    case "direction"                 => Some(Direction)
    case "empty-cells"               => Some(EmptyCells)
    case "float"                     => Some(Float)
    case "position"                  => Some(Position)
    case _ => None
  }

  /** The line and text properties, white-space, word-break, visibility and word-spacing. */
  function TextPropOf(name: string): Option<Prop>
  {
    match name
    case "line-height"               => Some(LineHeight)
    case "vertical-align"            => Some(VerticalAlign)
    case "text-indent"               => Some(TextIndent)
    case "text-align"                => Some(TextAlign)
    case "text-decoration"           => Some(TextDecoration)
    case "white-space"               => Some(WhiteSpace)
    case "word-break"                => Some(WordBreak)
    case "visibility"                => Some(Visibility)
    case "word-spacing"              => Some(WordSpacing)
    case _ => None
  }

  /** The font properties. */
  function FontPropOf(name: string): Option<Prop>
  {
    match name
    case "font-family"               => Some(FontFamily)
    case "font-size"                 => Some(FontSize)
    case "font-style"                => Some(FontStyle)
    case "font-variant"              => Some(FontVariant)
    case "font-weight"               => Some(FontWeight)
    case _ => None
  }

  /** The list-style properties and overflow. */
  function ListPropOf(name: string): Option<Prop>
  {
    match name
    case "list-style"                => Some(ListStyle)
    case "list-style-position"       => Some(ListStylePosition)
    case "list-style-image"          => Some(ListStyleImage)
    case "list-style-type"           => Some(ListStyleType)
    case "overflow"                  => Some(Overflow)
    case _ => None
  }

  /**
   * The property, if any, that a CSS name denotes. Matching is exact string
   * equality: there is no case folding and no trimming.
   */
  function PropOf(name: string): Option<Prop>
  {
    if BorderPropOf(name).Some? then BorderPropOf(name)
    else if CornerPropOf(name).Some? then CornerPropOf(name)
    else if SpacingPropOf(name).Some? then SpacingPropOf(name)
    else if GeometryPropOf(name).Some? then GeometryPropOf(name)
    else if BackgroundPropOf(name).Some? then BackgroundPropOf(name)
    else if FlowPropOf(name).Some? then FlowPropOf(name)
    else if TextPropOf(name).Some? then TextPropOf(name)
    else if FontPropOf(name).Some? then FontPropOf(name)
    else ListPropOf(name)
  }

  /*
   * A recognised name is exactly the name of the property it denotes: first
   * family by family, then for the whole table.
   */

  lemma {:induction false} BorderNameOfPropOf(name: string, p: Prop)
    requires BorderPropOf(name) == Some(p)
    ensures NameOf(p) == name
  {
    match name
    case "border-bottom-width"       =>
    case "border-left-width"         =>
    case "border-right-width"        =>
    case "border-top-width"          =>
    case "border-bottom-style"       =>
    case "border-left-style"         =>
    case "border-right-style"        =>
    case "border-top-style"          =>
    case "border-bottom-color"       =>
    case "border-left-color"         =>
    case "border-right-color"        =>
    case "border-top-color"          =>
    case "border-spacing"            =>
    case "border-collapse"           =>
  }

  lemma {:induction false} CornerNameOfPropOf(name: string, p: Prop)
    requires CornerPropOf(name) == Some(p)
    ensures NameOf(p) == name
  {
    match name
    case "corner-radius"             =>
    case "corner-nw-radius"          =>
    case "corner-ne-radius"          =>
    case "corner-se-radius"          =>
    case "corner-sw-radius"          =>
  }

  lemma {:induction false} SpacingNameOfPropOf(name: string, p: Prop)
    requires SpacingPropOf(name) == Some(p)
    ensures NameOf(p) == name
  {
    match name
    case "margin-bottom"             =>
    case "margin-left"               =>
    case "margin-right"              =>
    case "margin-top"                =>
    case "padding-bottom"            =>
    case "padding-left"              =>
    case "padding-right"             =>
    case "padding-top"               =>
  }

  lemma {:induction false} GeometryNameOfPropOf(name: string, p: Prop)
    requires GeometryPropOf(name) == Some(p)
    ensures NameOf(p) == name
  {
    match name
    case "page-break-inside"         =>
    case "left"                      =>
    case "top"                       =>
    case "width"                     =>
    case "max-width"                 =>
    case "height"                    =>
  }

  lemma {:induction false} BackgroundNameOfPropOf(name: string, p: Prop)
    requires BackgroundPropOf(name) == Some(p)
    ensures NameOf(p) == name
  {
    match name
    case "background-color"          =>
    case "background-image"          =>
    case "background-position"       =>
    case "background-repeat"         =>
    case "background-gradient"       =>
    case "background-gradient-angle" =>
  }

  lemma {:induction false} FlowNameOfPropOf(name: string, p: Prop)
    requires FlowPropOf(name) == Some(p)
    ensures NameOf(p) == name
  {
    match name
    case "content"                   =>
    case "color"                     =>
    case "display"                   =>
    case "direction"                 =>
    case "empty-cells"               =>
    case "float"                     =>
    case "position"                  =>
  }

  lemma {:induction false} TextNameOfPropOf(name: string, p: Prop)
    requires TextPropOf(name) == Some(p)
    ensures NameOf(p) == name
  {
    match name
    case "line-height"               =>
    case "vertical-align"            =>
    case "text-indent"               =>
    case "text-align"                =>
    case "text-decoration"           =>
    case "white-space"               =>
    case "word-break"                =>
    case "visibility"                =>
    case "word-spacing"              =>
  }

  lemma {:induction false} FontNameOfPropOf(name: string, p: Prop)
    requires FontPropOf(name) == Some(p)
    ensures NameOf(p) == name
  {
    match name
    case "font-family"               =>
    case "font-size"                 =>
    case "font-style"                =>
    case "font-variant"              =>
    case "font-weight"               =>
  }

  lemma {:induction false} ListNameOfPropOf(name: string, p: Prop)
    requires ListPropOf(name) == Some(p)
    ensures NameOf(p) == name
  {
    match name
    case "list-style"                =>
    case "list-style-position"       =>
    case "list-style-image"          =>
    case "list-style-type"           =>
    case "overflow"                  =>
  }

  lemma NameOfPropOf(name: string, p: Prop)
    requires PropOf(name) == Some(p)
    ensures NameOf(p) == name
  {
    if BorderPropOf(name).Some? {
      BorderNameOfPropOf(name, p);
    } else if CornerPropOf(name).Some? {
      CornerNameOfPropOf(name, p);
    } else if SpacingPropOf(name).Some? {
      SpacingNameOfPropOf(name, p);
    } else if GeometryPropOf(name).Some? {
      GeometryNameOfPropOf(name, p);
    } else if BackgroundPropOf(name).Some? {
      BackgroundNameOfPropOf(name, p);
    } else if FlowPropOf(name).Some? {
      FlowNameOfPropOf(name, p);
    } else if TextPropOf(name).Some? {
      TextNameOfPropOf(name, p);
    } else if FontPropOf(name).Some? {
      FontNameOfPropOf(name, p);
    } else {
      ListNameOfPropOf(name, p);
    }
  }

  /** The round trip for the border widths, styles and colours, border-spacing and border-collapse. */
  lemma {:induction false} BorderNamesRoundTrip(p: Prop)
    requires GroupOf(p) == Border
    ensures PropOf(NameOf(p)) == Some(p)
  {
    match p
    case BorderBottomWidth =>
    case BorderLeftWidth =>
    case BorderRightWidth =>
    case BorderTopWidth =>
    case BorderBottomStyle =>
    case BorderLeftStyle =>
    case BorderRightStyle =>
    case BorderTopStyle =>
    case BorderBottomColor =>
    case BorderLeftColor =>
    case BorderRightColor =>
    case BorderTopColor =>
    case BorderSpacing =>
    case BorderCollapse =>
  }

  /** The round trip for the corner radii. */
  lemma {:induction false} CornerNamesRoundTrip(p: Prop)
    requires GroupOf(p) == Corner
    ensures PropOf(NameOf(p)) == Some(p)
  {
    match p
    case CornerRadius =>
    case CornerNwRadius =>
    case CornerNeRadius =>
    case CornerSeRadius =>
    case CornerSwRadius =>
  }

  /** The round trip for the margins and paddings. */
  lemma {:induction false} SpacingNamesRoundTrip(p: Prop)
    requires GroupOf(p) == Spacing
    ensures PropOf(NameOf(p)) == Some(p)
  {
    match p
    case MarginBottom =>
    case MarginLeft =>
    case MarginRight =>
    case MarginTop =>
    case PaddingBottom =>
    case PaddingLeft =>
    case PaddingRight =>
    case PaddingTop =>
  }

  /** The round trip for the page-break-inside, offsets and sizes. */
  lemma {:induction false} GeometryNamesRoundTrip(p: Prop)
    requires GroupOf(p) == Geometry
    ensures PropOf(NameOf(p)) == Some(p)
  {
    match p
    case PageBreakInside =>
    case Left =>
    case Top =>
    case Width =>
    case MaxWidth =>
    case Height =>
  }

  /** The round trip for the background properties. */
  lemma {:induction false} BackgroundNamesRoundTrip(p: Prop)
    requires GroupOf(p) == Background
    ensures PropOf(NameOf(p)) == Some(p)
  {
    match p
    case BackgroundColor =>
    case BackgroundImage =>
    case BackgroundPosition =>
    case BackgroundRepeat =>
    case BackgroundGradient =>
    case BackgroundGradientAngle =>
  }

  /** The round trip for the content, color, display, direction, empty-cells, float and position. */
  lemma {:induction false} FlowNamesRoundTrip(p: Prop)
    requires GroupOf(p) == Flow
    ensures PropOf(NameOf(p)) == Some(p)
  {
    match p
    case Content =>
    case Color =>
    case Display =>
    case Direction =>
    case EmptyCells =>
    case Float =>
    case Position =>
  }

  /** The round trip for the line and text properties, white-space, word-break, visibility and word-spacing. */
  lemma {:induction false} TextNamesRoundTrip(p: Prop)
    requires GroupOf(p) == Text
    ensures PropOf(NameOf(p)) == Some(p)
  {
    match p
    case LineHeight =>
    case VerticalAlign =>
    case TextIndent =>
    case TextAlign =>
    case TextDecoration =>
    case WhiteSpace =>
    case WordBreak =>
    case Visibility =>
    case WordSpacing =>
  }

  /** The round trip for the font properties. */
  lemma {:induction false} FontNamesRoundTrip(p: Prop)
    requires GroupOf(p) == Font
    ensures PropOf(NameOf(p)) == Some(p)
  {
    match p
    case FontFamily =>
    case FontSize =>
    case FontStyle =>
    case FontVariant =>
    case FontWeight =>
  }

  /** The round trip for the list-style properties and overflow. */
  lemma {:induction false} ListNamesRoundTrip(p: Prop)
    requires GroupOf(p) == List
    ensures PropOf(NameOf(p)) == Some(p)
  {
    match p
    case ListStyle =>
    case ListStylePosition =>
    case ListStyleImage =>
    case ListStyleType =>
    case Overflow =>
  }

  /** Every property is found again under its own name. */
  lemma PropOfNameOf(p: Prop)
    ensures PropOf(NameOf(p)) == Some(p)
  {
    match GroupOf(p)
    case Border => BorderNamesRoundTrip(p);
    case Corner => CornerNamesRoundTrip(p);
    case Spacing => SpacingNamesRoundTrip(p);
    case Geometry => GeometryNamesRoundTrip(p);
    case Background => BackgroundNamesRoundTrip(p);
    case Flow => FlowNamesRoundTrip(p);
    case Text => TextNamesRoundTrip(p);
    case Font => FontNamesRoundTrip(p);
    case List => ListNamesRoundTrip(p);
  }

  /** Distinct properties have distinct names. */
  lemma NameOfInjective(p: Prop, q: Prop)
    requires NameOf(p) == NameOf(q)
    ensures p == q
  {
    PropOfNameOf(p);
    PropOfNameOf(q);
  }

  /** Two recognised names that denote the same property are the same name. */
  lemma PropOfInjective(n: string, m: string)
    requires PropOf(n).Some? && PropOf(n) == PropOf(m)
    ensures n == m
  {
    NameOfPropOf(n, PropOf(n).value);
    NameOfPropOf(m, PropOf(m).value);
  }

  /** A name is recognised if and only if it is the name of some property. */
  lemma RecognisedIffNamed(name: string)
    ensures PropOf(name).Some? <==> exists p :: NameOf(p) == name
  {
    if PropOf(name).Some? {
      NameOfPropOf(name, PropOf(name).value);
    }
    if p :| NameOf(p) == name {
      PropOfNameOf(p);
    }
  }

  /** Lower-case letters and hyphens only. */
  predicate IsLowerCaseName(s: string)
  {
    forall i | 0 <= i < |s| :: 'a' <= s[i] <= 'z' || s[i] == '-'
  }

  /* Every recognised name is written in lower case. */

  lemma {:induction false} BorderNamesAreLowerCase(name: string)
    requires BorderPropOf(name).Some?
    ensures IsLowerCaseName(name)
  {
    match name
    case "border-bottom-width"       =>
    case "border-left-width"         =>
    case "border-right-width"        =>
    case "border-top-width"          =>
    case "border-bottom-style"       =>
    case "border-left-style"         =>
    case "border-right-style"        =>
    case "border-top-style"          =>
    case "border-bottom-color"       =>
    case "border-left-color"         =>
    case "border-right-color"        =>
    case "border-top-color"          =>
    case "border-spacing"            =>
    case "border-collapse"           =>
  }

  lemma {:induction false} CornerNamesAreLowerCase(name: string)
    requires CornerPropOf(name).Some?
    ensures IsLowerCaseName(name)
  {
    match name
    case "corner-radius"             =>
    case "corner-nw-radius"          =>
    case "corner-ne-radius"          =>
    case "corner-se-radius"          =>
    case "corner-sw-radius"          =>
  }

  lemma {:induction false} SpacingNamesAreLowerCase(name: string)
    requires SpacingPropOf(name).Some?
    ensures IsLowerCaseName(name)
  {
    match name
    case "margin-bottom"             =>
    case "margin-left"               =>
    case "margin-right"              =>
    case "margin-top"                =>
    case "padding-bottom"            =>
    case "padding-left"              =>
    case "padding-right"             =>
    case "padding-top"               =>
  }

  lemma {:induction false} GeometryNamesAreLowerCase(name: string)
    requires GeometryPropOf(name).Some?
    ensures IsLowerCaseName(name)
  {
    match name
    case "page-break-inside"         =>
    case "left"                      =>
    case "top"                       =>
    case "width"                     =>
    case "max-width"                 =>
    case "height"                    =>
  }

  lemma {:induction false} BackgroundNamesAreLowerCase(name: string)
    requires BackgroundPropOf(name).Some?
    ensures IsLowerCaseName(name)
  {
    match name
    case "background-color"          =>
    case "background-image"          =>
    case "background-position"       =>
    case "background-repeat"         =>
    case "background-gradient"       =>
    case "background-gradient-angle" =>
  }

  lemma {:induction false} FlowNamesAreLowerCase(name: string)
    requires FlowPropOf(name).Some?
    ensures IsLowerCaseName(name)
  {
    match name
    case "content"                   =>
    case "color"                     =>
    case "display"                   =>
    case "direction"                 =>
    case "empty-cells"               =>
    case "float"                     =>
    case "position"                  =>
  }

  lemma {:induction false} TextNamesAreLowerCase(name: string)
    requires TextPropOf(name).Some?
    ensures IsLowerCaseName(name)
  {
    match name
    case "line-height"               =>
    case "vertical-align"            =>
    case "text-indent"               =>
    case "text-align"                =>
    case "text-decoration"           =>
    case "white-space"               =>
    case "word-break"                =>
    case "visibility"                =>
    case "word-spacing"              =>
  }

  lemma {:induction false} FontNamesAreLowerCase(name: string)
    requires FontPropOf(name).Some?
    ensures IsLowerCaseName(name)
  {
    match name
    case "font-family"               =>
    case "font-size"                 =>
    case "font-style"                =>
    case "font-variant"              =>
    case "font-weight"               =>
  }

  lemma {:induction false} ListNamesAreLowerCase(name: string)
    requires ListPropOf(name).Some?
    ensures IsLowerCaseName(name)
  {
    match name
    case "list-style"                =>
    case "list-style-position"       =>
    case "list-style-image"          =>
    case "list-style-type"           =>
    case "overflow"                  =>
  }

  lemma RecognisedNamesAreLowerCase(name: string)
    requires PropOf(name).Some?
    ensures IsLowerCaseName(name)
  {
    if BorderPropOf(name).Some? {
      BorderNamesAreLowerCase(name);
    } else if CornerPropOf(name).Some? {
      CornerNamesAreLowerCase(name);
    } else if SpacingPropOf(name).Some? {
      SpacingNamesAreLowerCase(name);
    } else if GeometryPropOf(name).Some? {
      GeometryNamesAreLowerCase(name);
    } else if BackgroundPropOf(name).Some? {
      BackgroundNamesAreLowerCase(name);
    } else if FlowPropOf(name).Some? {
      FlowNamesAreLowerCase(name);
    } else if TextPropOf(name).Some? {
      TextNamesAreLowerCase(name);
    } else if FontPropOf(name).Some? {
      FontNamesAreLowerCase(name);
    } else {
      ListNamesAreLowerCase(name);
    }
  }

  /** A name with an upper-case letter in it, such as "Color", is unknown. */
  lemma UpperCaseNameUnknown(name: string, i: int)
    requires 0 <= i < |name| && 'A' <= name[i] <= 'Z'
    ensures PropOf(name).None?
  {
    if PropOf(name).Some? {
      RecognisedNamesAreLowerCase(name);
      assert false;
    }
  }

  /**
   * Get CSS box property value by the CSS name: the value of the property
   * the name denotes, or None (null) when no property has that name.
   */
  function GetPropertyValue(box: CssBox, propName: string): (r: Option<string>)
    reads box
    requires box.Valid()
    ensures PropOf(propName).None? ==> r.None?
    ensures PropOf(propName).Some? ==> r == Some(box.props[PropOf(propName).value])
  {
    match propName
    case "border-bottom-width"       => Some(box.props[BorderBottomWidth])
    case "border-left-width"         => Some(box.props[BorderLeftWidth])
    case "border-right-width"        => Some(box.props[BorderRightWidth])
    case "border-top-width"          => Some(box.props[BorderTopWidth])
    case "border-bottom-style"       => Some(box.props[BorderBottomStyle])
    case "border-left-style"         => Some(box.props[BorderLeftStyle])
    case "border-right-style"        => Some(box.props[BorderRightStyle])
    case "border-top-style"          => Some(box.props[BorderTopStyle])
    case "border-bottom-color"       => Some(box.props[BorderBottomColor])
    case "border-left-color"         => Some(box.props[BorderLeftColor])
    case "border-right-color"        => Some(box.props[BorderRightColor])
    case "border-top-color"          => Some(box.props[BorderTopColor])
    case "border-spacing"            => Some(box.props[BorderSpacing])
    case "border-collapse"           => Some(box.props[BorderCollapse])
    case "corner-radius"             => Some(box.props[CornerRadius])
    case "corner-nw-radius"          => Some(box.props[CornerNwRadius])
    case "corner-ne-radius"          => Some(box.props[CornerNeRadius])
    case "corner-se-radius"          => Some(box.props[CornerSeRadius])
    case "corner-sw-radius"          => Some(box.props[CornerSwRadius])
    case "margin-bottom"             => Some(box.props[MarginBottom])
    case "margin-left"               => Some(box.props[MarginLeft])
    case "margin-right"              => Some(box.props[MarginRight])
    case "margin-top"                => Some(box.props[MarginTop])
    case "padding-bottom"            => Some(box.props[PaddingBottom])
    case "padding-left"              => Some(box.props[PaddingLeft])
    case "padding-right"             => Some(box.props[PaddingRight])
    case "padding-top"               => Some(box.props[PaddingTop])
    case "page-break-inside"         => Some(box.props[PageBreakInside])
    case "left"                      => Some(box.props[Left])
    case "top"                       => Some(box.props[Top])
    case "width"                     => Some(box.props[Width])
    case "max-width"                 => Some(box.props[MaxWidth])
    case "height"                    => Some(box.props[Height])
    case "background-color"          => Some(box.props[BackgroundColor])
    case "background-image"          => Some(box.props[BackgroundImage])
    case "background-position"       => Some(box.props[BackgroundPosition])
    case "background-repeat"         => Some(box.props[BackgroundRepeat])
    case "background-gradient"       => Some(box.props[BackgroundGradient])
    case "background-gradient-angle" => Some(box.props[BackgroundGradientAngle])
    case "content"                   => Some(box.props[Content])
    case "color"                     => Some(box.props[Color])
    case "display"                   => Some(box.props[Display])
    case "direction"                 => Some(box.props[Direction])
    case "empty-cells"               => Some(box.props[EmptyCells])
    case "float"                     => Some(box.props[Float])
    case "position"                  => Some(box.props[Position])
    case "line-height"               => Some(box.props[LineHeight])
    case "vertical-align"            => Some(box.props[VerticalAlign])
    case "text-indent"               => Some(box.props[TextIndent])
    case "text-align"                => Some(box.props[TextAlign])
    case "text-decoration"           => Some(box.props[TextDecoration])
    case "white-space"               => Some(box.props[WhiteSpace])
    case "word-break"                => Some(box.props[WordBreak])
    case "visibility"                => Some(box.props[Visibility])
    case "word-spacing"              => Some(box.props[WordSpacing])
    case "font-family"               => Some(box.props[FontFamily])
    case "font-size"                 => Some(box.props[FontSize])
    case "font-style"                => Some(box.props[FontStyle])
    case "font-variant"              => Some(box.props[FontVariant])
    case "font-weight"               => Some(box.props[FontWeight])
    case "list-style"                => Some(box.props[ListStyle])
    case "list-style-position"       => Some(box.props[ListStylePosition])
    case "list-style-image"          => Some(box.props[ListStyleImage])
    case "list-style-type"           => Some(box.props[ListStyleType])
    case "overflow"                  => Some(box.props[Overflow])
    case _ => None
  }

  /** Reading a property by its own name yields its stored value. */
  lemma GetByName(box: CssBox, p: Prop)
    requires box.Valid()
    ensures GetPropertyValue(box, NameOf(p)) == Some(box.props[p])
  {
    PropOfNameOf(p);
  }

  /**
   * Writing and reading agree: after a recognised name's property is set
   * (box before, after after), reading that name yields the new value, and
   * reading any other name, recognised or not, yields what it did before.
   */
  lemma GetAfterSet(before: CssBox, after: CssBox, name: string, value: string, other: string)
    requires before.Valid() && after.Valid()
    requires PropOf(name).Some?
    requires after.props == before.props[PropOf(name).value := value]
    ensures GetPropertyValue(after, name) == Some(value)
    ensures other != name ==> GetPropertyValue(after, other) == GetPropertyValue(before, other)
  {
    if other != name && PropOf(other) == PropOf(name) {
      PropOfInjective(name, other);
    }
  }

  /**
   * Set CSS box property value by the CSS name: a recognised name stores the
   * value in the one property it denotes; an unknown name changes nothing.
   */
  method SetPropertyValue(box: CssBox, propName: string, value: string)
    requires box.Valid()
    modifies box
    ensures box.Valid()
    ensures PropOf(propName).None? ==> unchanged(box)
    ensures PropOf(propName).Some? ==> box.props == old(box.props)[PropOf(propName).value := value]
  {
    match propName {
      case "border-bottom-width"       => box.props := box.props[BorderBottomWidth := value];
      case "border-left-width"         => box.props := box.props[BorderLeftWidth := value];
      case "border-right-width"        => box.props := box.props[BorderRightWidth := value];
      case "border-top-width"          => box.props := box.props[BorderTopWidth := value];
      case "border-bottom-style"       => box.props := box.props[BorderBottomStyle := value];
      case "border-left-style"         => box.props := box.props[BorderLeftStyle := value];
      case "border-right-style"        => box.props := box.props[BorderRightStyle := value];
      case "border-top-style"          => box.props := box.props[BorderTopStyle := value];
      case "border-bottom-color"       => box.props := box.props[BorderBottomColor := value];
      case "border-left-color"         => box.props := box.props[BorderLeftColor := value];
      case "border-right-color"        => box.props := box.props[BorderRightColor := value];
      case "border-top-color"          => box.props := box.props[BorderTopColor := value];
      case "border-spacing"            => box.props := box.props[BorderSpacing := value];
      case "border-collapse"           => box.props := box.props[BorderCollapse := value];
      case "corner-radius"             => box.props := box.props[CornerRadius := value];
      case "corner-nw-radius"          => box.props := box.props[CornerNwRadius := value];
      case "corner-ne-radius"          => box.props := box.props[CornerNeRadius := value];
      case "corner-se-radius"          => box.props := box.props[CornerSeRadius := value];
      case "corner-sw-radius"          => box.props := box.props[CornerSwRadius := value];
      case "margin-bottom"             => box.props := box.props[MarginBottom := value];
      case "margin-left"               => box.props := box.props[MarginLeft := value];
      case "margin-right"              => box.props := box.props[MarginRight := value];
      case "margin-top"                => box.props := box.props[MarginTop := value];
      case "padding-bottom"            => box.props := box.props[PaddingBottom := value];
      case "padding-left"              => box.props := box.props[PaddingLeft := value];
      case "padding-right"             => box.props := box.props[PaddingRight := value];
      case "padding-top"               => box.props := box.props[PaddingTop := value];
      case "page-break-inside"         => box.props := box.props[PageBreakInside := value];
      case "left"                      => box.props := box.props[Left := value];
      case "top"                       => box.props := box.props[Top := value];
      case "width"                     => box.props := box.props[Width := value];
      case "max-width"                 => box.props := box.props[MaxWidth := value];
      case "height"                    => box.props := box.props[Height := value];
      case "background-color"          => box.props := box.props[BackgroundColor := value];
      case "background-image"          => box.props := box.props[BackgroundImage := value];
      case "background-position"       => box.props := box.props[BackgroundPosition := value];
      case "background-repeat"         => box.props := box.props[BackgroundRepeat := value];
      case "background-gradient"       => box.props := box.props[BackgroundGradient := value];
      case "background-gradient-angle" => box.props := box.props[BackgroundGradientAngle := value];
      case "color"                     => box.props := box.props[Color := value];
      case "content"                   => box.props := box.props[Content := value];
      case "display"                   => box.props := box.props[Display := value];
      case "direction"                 => box.props := box.props[Direction := value];
      case "empty-cells"               => box.props := box.props[EmptyCells := value];
      case "float"                     => box.props := box.props[Float := value];
      case "position"                  => box.props := box.props[Position := value];
      case "line-height"               => box.props := box.props[LineHeight := value];
      case "vertical-align"            => box.props := box.props[VerticalAlign := value];
      case "text-indent"               => box.props := box.props[TextIndent := value];
      case "text-align"                => box.props := box.props[TextAlign := value];
      case "text-decoration"           => box.props := box.props[TextDecoration := value];
      case "white-space"               => box.props := box.props[WhiteSpace := value];
      case "word-break"                => box.props := box.props[WordBreak := value];
      case "visibility"                => box.props := box.props[Visibility := value];
      case "word-spacing"              => box.props := box.props[WordSpacing := value];
      case "font-family"               => box.props := box.props[FontFamily := value];
      case "font-size"                 => box.props := box.props[FontSize := value];
      case "font-style"                => box.props := box.props[FontStyle := value];
      case "font-variant"              => box.props := box.props[FontVariant := value];
      case "font-weight"               => box.props := box.props[FontWeight := value];
      case "list-style"                => box.props := box.props[ListStyle := value];
      case "list-style-position"       => box.props := box.props[ListStylePosition := value];
      case "list-style-image"          => box.props := box.props[ListStyleImage := value];
      case "list-style-type"           => box.props := box.props[ListStyleType := value];
      case "overflow"                  => box.props := box.props[Overflow := value];
      case _ =>
    }
  }
}
