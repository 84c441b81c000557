# HTML Renderer: CSS property dispatch and PDF graphics path

This project models two self-contained pieces of the HTML Renderer library in
Dafny and proves properties about them.

1. **CSS property dispatch** (`CssUtils`). The library reads and writes the
   65 named style properties of a CSS box by their CSS names:
   `GetPropertyValue` is a switch expression that returns the property's
   string, or null for an unknown name; `SetPropertyValue` is a switch
   statement that assigns the one property the name denotes and does nothing
   for an unknown name. The model has:
   - `CssDom.Prop`: the 65 properties, in the order of the getter's table.
   - `CssDom.CssBox`: a box whose `props` map holds each property's value.
   - A name table. `NameOf` gives each property its CSS name, and `PropOf`
     gives the property a name denotes, if any.
   - `GetPropertyValue` and `SetPropertyValue`, transcribed from the two
     switches.

   `PropOf` is written one CSS family at a time, such as the border
   properties or the font properties (`CssDom.GroupOf`), which keeps each
   proof small. The two switches are proved against `PropOf`. `PropOf` and
   `NameOf` are proved mutually inverse. Together these prove:
   - the getter and the setter recognise the same 65 names and reach the
     same property for each, although the two switches list "content" and
     "color" in different orders;
   - distinct names reach distinct properties;
   - matching is exact: a name with an upper-case letter is unknown;
   - a set followed by a get returns the value just set and leaves every
     other name's value alone.

2. **PdfSharp graphics path adapter** (`PdfSharpAdapters`). The adapter
   remembers a last point and appends straight lines and quarter-circle
   arcs to a PdfSharp path. `GraphicsPathAdapter` is a class with:
   - the path, as a sequence of `Segment`s;
   - the last point;
   - the methods `Start`, `LineTo` and `ArcTo`.

   `GetStartAngle` is the corner-to-angle table. `ArcOf` is the arc that
   `ArcTo` adds. A reference geometry defines where an arc starts and ends,
   from its bounding square and its angles. Against it, `ArcJoinsEdges`
   proves that for every corner the arc starts at the last point and ends at
   the target, whenever those two are where a clockwise box outline leaves
   one edge and joins the next.

Coordinates are reals. Angles are integer degrees, measured clockwise from
the positive x axis, with y growing downwards.

## Model

| member | source | states |
|---|---|---|
| CssUtils.GetPropertyValue | Source/HtmlRenderer/Core/Utils/CssUtils.cs:67-137 | a name outside the table yields None (null); a name in the table yields exactly the stored value of the property the name denotes |
| CssUtils.SetPropertyValue | Source/HtmlRenderer/Core/Utils/CssUtils.cs:147-347 | a name outside the table leaves the box unchanged (no default case); a name in the table sets exactly the property it denotes to the value and every other property keeps its value |
| CssUtils.NameOfPropOf | Source/HtmlRenderer/Core/Utils/CssUtils.cs:71-135 | a recognised name is exactly the CSS name of the property it denotes |
| CssUtils.PropOfNameOf | Source/HtmlRenderer/Core/Utils/CssUtils.cs:71-135 | every one of the 65 properties is reached through its own name |
| CssUtils.NameOfInjective | Source/HtmlRenderer/Core/Utils/CssUtils.cs:71-135 | distinct properties have distinct names |
| CssUtils.PropOfInjective | Source/HtmlRenderer/Core/Utils/CssUtils.cs:71-135 | two recognised names that reach the same property are the same name, so the name-to-property table is injective |
| CssUtils.RecognisedIffNamed | Source/HtmlRenderer/Core/Utils/CssUtils.cs:71-135 | a name is recognised if and only if it is the name of some property |
| CssUtils.RecognisedNamesAreLowerCase | Source/HtmlRenderer/Core/Utils/CssUtils.cs:71-135 | every recognised name consists of lower-case letters and hyphens |
| CssUtils.UpperCaseNameUnknown | Source/HtmlRenderer/Core/Utils/CssUtils.cs:69-136 | matching is exact, so any name containing an upper-case letter (such as "Color") is unknown |
| CssUtils.GetByName | Source/HtmlRenderer/Core/Utils/CssUtils.cs:67-137 | reading a property by its own name yields the property's stored value |
| CssUtils.GetAfterSet | Source/HtmlRenderer/Core/Utils/CssUtils.cs:147-347 | after a recognised name's property is set, reading that name yields the new value and reading any other name yields its old result, so the setter writes the very property the getter reads (including "color" and "content", listed in opposite orders) |
| PdfSharpAdapters.GetStartAngle | Source/HtmlRenderer.PdfSharp/Adapters/GraphicsPathAdapter.cs:67-78 | the start angle is a multiple of 90 in [0, 270], and the 90-degree arc from it lies on the left half exactly for left corners and on the upper half exactly for top corners (so TopLeft 180, TopRight 270, BottomLeft 90, BottomRight 0) |
| PdfSharpAdapters.StartAnglesDistinct | Source/HtmlRenderer.PdfSharp/Adapters/GraphicsPathAdapter.cs:71-74 | the four corners have pairwise distinct start angles |
| PdfSharpAdapters.ArcOf | Source/HtmlRenderer.PdfSharp/Adapters/GraphicsPathAdapter.cs:55-57 | the arc added is square with side 2·size, sweeps 90 degrees and starts at the corner's start angle |
| PdfSharpAdapters.ArcOfSymmetric | Source/HtmlRenderer.PdfSharp/Adapters/GraphicsPathAdapter.cs:55-56 | the arc's bounding square does not depend on which of its two end points is the last point |
| PdfSharpAdapters.ArcJoinsEdges | Source/HtmlRenderer.PdfSharp/Adapters/GraphicsPathAdapter.cs:53-59 | for every corner and radius, the arc starts at the last point and ends at the target when these are the corner's clockwise edge end points |
| PdfSharpAdapters.GraphicsPathAdapter.constructor | Source/HtmlRenderer.PdfSharp/Adapters/GraphicsPathAdapter.cs:27-32 | a new adapter has an empty path and its last point at the origin |
| PdfSharpAdapters.GraphicsPathAdapter.Start | Source/HtmlRenderer.PdfSharp/Adapters/GraphicsPathAdapter.cs:42-45 | the last point becomes (x, y) and no segment is added |
| PdfSharpAdapters.GraphicsPathAdapter.LineTo | Source/HtmlRenderer.PdfSharp/Adapters/GraphicsPathAdapter.cs:47-51 | exactly one line, from the previous last point to (x, y), is appended after the unchanged earlier segments, and the last point becomes (x, y) |
| PdfSharpAdapters.GraphicsPathAdapter.ArcTo | Source/HtmlRenderer.PdfSharp/Adapters/GraphicsPathAdapter.cs:53-59 | exactly one arc, ArcOf of the previous last point, is appended after the unchanged earlier segments, and the last point becomes (x, y) whatever the corner |

## Left out

- CssBox: the box class is not part of this model. Its 65 properties are
  kept as one map from property to string, not as 65 fields. Each property
  is stored independently, so the difference is only in representation.
  A dispatch over 65 separate fields made every proof about the two
  switches too costly to check.
- CssBox setters are treated as plain stores. Any parsing or cache
  invalidation they perform is not modelled, so nothing is claimed beyond
  the dispatch itself.
- Null strings are not modelled: names and values are always strings. In
  the source a null name matches no case and behaves as an unknown name,
  and a null value is stored as given.
- `CssUtils.WhiteSpace` is not modelled. It depends on font metrics from
  the graphics backend, on a length parser that is not part of this model,
  and on floating-point sums.
- `CssUtils.DefaultSelectionBackcolor` is not modelled. It is a constant
  colour built by a colour factory that is not part of this model.
- Floating point is not modelled: coordinates are reals. The `(float)`
  narrowing casts in `LineTo` and `ArcTo` are left out.
- PdfSharp's `XGraphicsPath` is reduced to the sequence of segments added
  to it, and the `GraphicsPath` getter to the `path` field. How PdfSharp
  joins or renders the segments is not modelled.
- GetStartAngle: the `ArgumentOutOfRangeException` branch cannot be
  reached. The corner is a datatype with exactly the four named values, and
  the enum's underlying integer values are not part of this model.
- `Dispose` is left out: it is an empty no-op.
- The brush adapter is left out: it only stores and returns an opaque
  object.
- Box layout, cascade resolution and painting are not part of this model.
