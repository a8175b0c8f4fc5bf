/** Layout conversion from the editor's pixel coordinates to responsive
    Dart expressions, and the fixed lookup tables for icons, font weights,
    text alignment and image fit.

    A converted coordinate is kept as the symbolic expression it prints:
    the literal `0.0`, the bare screen dimension, or the screen dimension
    times a ratio.  Ratios are exact reals; their `%.6f` printing is not
    modelled. */
module Converters {
  import opened Wrappers
  import opened PyText
  import opened ProjectModel

  datatype Axis = Width | Height

  /** The multiplier of a scaled coordinate.  `Percent(t)` stands for
      `float(t) / 100` and `TextOver(t, screen)` for `float(t) / screen`;
      the float parsing of text is not modelled. */
  datatype Ratio = Exact(r: real) | Percent(digits: string) | TextOver(text: string, screen: real)

  datatype Coord =
    | Zero                          // "0.0"
    | Full(axis: Axis)              // "MediaQuery.of(context).size.<axis>"
    | Scaled(axis: Axis, ratio: Ratio) // "MediaQuery.of(context).size.<axis> * <ratio>"

  /** The dict with exactly the keys `left`, `top`, `width`, `height`. */
  datatype Layout = Layout(left: Coord, top: Coord, width: Coord, height: Coord)

  /** `hex_to_dart_color`: drops one leading `#`, upper-cases the rest and
      wraps it in `Color(0xFF...)`; no length or digit check is made. */
  function HexToDartColor(hex: string): string {
    var rest := if StartsWith(hex, "#") then hex[1..] else hex;
    "Color(0xFF" + Upper(rest) + ")"
  }

  /** A position coordinate: `None` gives `0.0`; otherwise the offset as a
      fraction of the screen, or 0 when the screen size is not positive. */
  function Offset(v: Option<real>, axis: Axis, screen: real): Coord {
    match v
    case None => Zero
    case Some(x) => Scaled(axis, Exact(if screen > 0.0 then x / screen else 0.0))
  }

  /** A size: text ending in `%` is a percentage (`"100%"` the whole
      screen); anything else is pixels over the screen size, with `fallback`
      when the screen size is not positive. */
  function Extent(d: Dimension, axis: Axis, screen: real, fallback: real): Coord {
    if d.Text? && EndsWith(d.s, "%") then
      if d.s == "100%" then Full(axis) else Scaled(axis, Percent(ReplaceAll(d.s, "%", "")))
    else if screen > 0.0 then
      match d
      case Num(px) => Scaled(axis, Exact(px / screen))
      case Text(t) => Scaled(axis, TextOver(t, screen))
    else Scaled(axis, Exact(fallback))
  }

  /** `convert_position_to_flutter` */
  function ConvertPosition(position: Position, size: Size, screenWidth: real, screenHeight: real): Layout {
    Layout(Offset(position.x, Width, screenWidth),
           Offset(position.y, Height, screenHeight),
           Extent(size.width, Width, screenWidth, 0.2),
           Extent(size.height, Height, screenHeight, 0.1))
  }

  /** `convert_table_position_to_flutter`: tables start at the left edge and
      span the whole width. */
  function ConvertTablePosition(position: Position, size: Size, screenWidth: real, screenHeight: real): Layout {
    Layout(Zero,
           Offset(position.y, Height, screenHeight),
           Full(Width),
           Extent(size.height, Height, screenHeight, 0.3))
  }

  /** `get_icon_mapping` */
  function IconMapping(): map<string, string> {
    map[
      "star" := "Icons.star",
      "home" := "Icons.home",
      "search" := "Icons.search",
      "user" := "Icons.person",
      "settings" := "Icons.settings",
      "heart" := "Icons.favorite",
      "plus" := "Icons.add",
      "minus" := "Icons.remove",
      "check" := "Icons.check",
      "close" := "Icons.close",
      "menu" := "Icons.menu",
      "edit" := "Icons.edit",
      "delete" := "Icons.delete",
      "camera" := "Icons.camera_alt",
      "phone" := "Icons.phone",
      "mail" := "Icons.email",
      "lock" := "Icons.lock",
      "calendar" := "Icons.calendar_today",
      "location" := "Icons.location_on"
    ]
  }

  /** `get_font_weight_mapping` */
  function FontWeightMapping(): map<string, string> {
    map[
      "normal" := "FontWeight.normal",
      "bold" := "FontWeight.bold",
      "300" := "FontWeight.w300",
      "500" := "FontWeight.w500",
      "600" := "FontWeight.w600",
      "700" := "FontWeight.w700"
    ]
  }

  /** `get_text_align_mapping` */
  function TextAlignMapping(): map<string, string> {
    map[
      "left" := "TextAlign.left",
      "center" := "TextAlign.center",
      "right" := "TextAlign.right",
      "justify" := "TextAlign.justify"
    ]
  }

  /** `get_box_fit_mapping` */
  function BoxFitMapping(): map<string, string> {
    map[
      "cover" := "BoxFit.cover",
      "contain" := "BoxFit.contain",
      "fill" := "BoxFit.fill",
      "fitWidth" := "BoxFit.fitWidth",
      "fitHeight" := "BoxFit.fitHeight"
    ]
  }

  // ---------------------------------------------------------------------

  /** The colour is `Color(0xFF` + the digits + `)`, where the digits are the
      input without one leading `#`, upper-cased and otherwise unchanged. */
  lemma HexColorShape(hex: string)
    ensures var r := HexToDartColor(hex);
      var n := if StartsWith(hex, "#") then |hex| - 1 else |hex|;
      && |r| == n + 11
      && r[..10] == "Color(0xFF" && r[|r| - 1] == ')'
      && r[10..|r| - 1] == Upper(hex[|hex| - n..])
      && (forall i :: 10 <= i < |r| - 1 ==> !IsLowerAscii(r[i]))
  {
    var r := HexToDartColor(hex);
    var rest := if StartsWith(hex, "#") then hex[1..] else hex;
    assert r == "Color(0xFF" + Upper(rest) + ")";
    assert r[10..|r| - 1] == Upper(rest);
  }

  /** One leading `#` makes no difference. */
  lemma HexColorIgnoresOneHash(s: string)
    requires !StartsWith(s, "#")
    ensures HexToDartColor("#" + s) == HexToDartColor(s)
  {
    var t := "#" + s;
    assert StartsWith(t, "#");
    assert t[1..] == s;
  }

  /** Only one `#` is removed: a second one reaches the output. */
  lemma HexColorKeepsSecondHash(s: string)
    ensures HexToDartColor("##" + s) == "Color(0xFF#" + Upper(s) + ")"
  {
    var t := "##" + s;
    assert StartsWith(t, "#");
    assert t[1..] == "#" + s;
    UpperConcat("#", s);
    assert Upper("#") == "#";
  }

  /** A missing x or y gives the literal `0.0`; a present one never does,
      even when it is zero or the screen size is not positive.  Each offset
      depends on its own coordinate only. */
  lemma OffsetsAreIndependent(position: Position, size: Size, screenWidth: real, screenHeight: real,
                              other: Position)
    ensures var l := ConvertPosition(position, size, screenWidth, screenHeight);
      && (l.left == Zero <==> position.x.None?)
      && (l.top == Zero <==> position.y.None?)
    ensures other.x == position.x ==>
      ConvertPosition(other, size, screenWidth, screenHeight).left == ConvertPosition(position, size, screenWidth, screenHeight).left
    ensures other.y == position.y ==>
      ConvertPosition(other, size, screenWidth, screenHeight).top == ConvertPosition(position, size, screenWidth, screenHeight).top
  {
  }

  /** A present offset is recovered by multiplying its ratio back by a
      positive screen size. */
  lemma OffsetRoundTrip(x: real, axis: Axis, screen: real)
    requires screen > 0.0
    ensures Offset(Some(x), axis, screen).Scaled?
    ensures Offset(Some(x), axis, screen).ratio.Exact?
    ensures Offset(Some(x), axis, screen).ratio.r * screen == x
  {
  }

  /** Pixel sizes are recovered the same way. */
  lemma ExtentRoundTrip(px: real, axis: Axis, screen: real, fallback: real)
    requires screen > 0.0
    ensures Extent(Num(px), axis, screen, fallback).Scaled?
    ensures Extent(Num(px), axis, screen, fallback).ratio.Exact?
    ensures Extent(Num(px), axis, screen, fallback).ratio.r * screen == px
  {
  }

  /** A screen size that is not positive is never a divisor: offsets fall
      back to 0, pixel widths to 0.2 and pixel heights to 0.1. */
  lemma NonPositiveScreenFallbacks(position: Position, w: real, h: real, screenWidth: real, screenHeight: real)
    requires screenWidth <= 0.0 && screenHeight <= 0.0
    ensures var l := ConvertPosition(position, Size(Num(w), Num(h)), screenWidth, screenHeight);
      && (position.x.Some? ==> l.left == Scaled(Width, Exact(0.0)))
      && (position.y.Some? ==> l.top == Scaled(Height, Exact(0.0)))
      && l.width == Scaled(Width, Exact(0.2))
      && l.height == Scaled(Height, Exact(0.1))
  {
  }

  /** Only the text `"100%"` yields the bare full-screen expression. */
  lemma FullOnlyForHundredPercent(d: Dimension, axis: Axis, screen: real, fallback: real)
    ensures Extent(d, axis, screen, fallback).Full? <==> d == Text("100%")
    ensures Extent(d, axis, screen, fallback).Full? ==> Extent(d, axis, screen, fallback).axis == axis
  {
    if d == Text("100%") {
      assert EndsWith("100%", "%");
    }
  }

  /** Sizes that passed model validation are numbers, so the percentage
      branches never fire on them and no coordinate is the bare screen
      dimension. */
  lemma ValidatedSizesAreScaled(position: Position, w: real, h: real, screenWidth: real, screenHeight: real)
    ensures var l := ConvertPosition(position, Size(Num(w), Num(h)), screenWidth, screenHeight);
      l.width.Scaled? && l.height.Scaled? && l.width.ratio.Exact? && l.height.ratio.Exact?
  {
  }

  /** The table converter ignores x and the width: it always starts at the
      left edge and spans the screen; its top agrees with the generic
      converter and its pixel-height fallback is 0.3. */
  lemma TableIsFullWidth(position: Position, size: Size, screenWidth: real, screenHeight: real)
    ensures var t := ConvertTablePosition(position, size, screenWidth, screenHeight);
      && t.left == Zero && t.width == Full(Width)
      && t.top == ConvertPosition(position, size, screenWidth, screenHeight).top
      && (size.height.Num? && screenHeight <= 0.0 ==> t.height == Scaled(Height, Exact(0.3)))
      && (size.height.Num? && screenHeight > 0.0 ==> t.height == ConvertPosition(position, size, screenWidth, screenHeight).height)
  {
  }

  /** Every icon name is keyed in lower case, and the two names that differ
      from their Material icon map to `Icons.person` and `Icons.favorite`. */
  lemma IconMappingShape()
    ensures forall k :: k in IconMapping() ==> Lower(k) == k
    ensures IconMapping()["user"] == "Icons.person" && IconMapping()["heart"] == "Icons.favorite"
  {
  }
}
