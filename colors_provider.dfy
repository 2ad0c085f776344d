// The fixed colour palette offered for complications, the label shown for a
// colour, and the per-slot defaults.  Android colour resources are passed in
// as values; string resources are represented by their resource keys.
module ComplicationColorsProvider {
  import opened ComplicationColors

  /** `Color.parseColor("#RRGGBB")`: opaque alpha, read as a signed 32-bit int. */
  function ParseRgb(rgb: int): (c: int)
    requires 0 <= rgb < 0x100_0000
  {
    rgb - 0x100_0000
  }

  const DefaultLabel: string := "color_default"

  /** Colour resources of the four slot defaults. */
  datatype DefaultColorResources = DefaultColorResources(left: int, middle: int, right: int, bottom: int)

  /** `getDefaultComplicationColors`: each slot gets its resource colour, the default label, and isDefault. */
  function DefaultComplicationColors(res: DefaultColorResources): (r: ComplicationColors)
    ensures r.leftColor.color == res.left && r.middleColor.color == res.middle
    ensures r.rightColor.color == res.right && r.bottomColor.color == res.bottom
    ensures forall s <- Slots(r) :: s.isDefault && s.colorLabel == DefaultLabel
  {
    ComplicationColors(
      ComplicationColor(res.left, DefaultLabel, true),
      ComplicationColor(res.middle, DefaultLabel, true),
      ComplicationColor(res.right, DefaultLabel, true),
      ComplicationColor(res.bottom, DefaultLabel, true))
  }

  /** `getLabelForColor`: a `when` over the twenty palette colours, falling back to the default label. */
  function LabelForColor(color: int): (r: string)
    ensures r != DefaultLabel ==> InPalette(color)
  {
    var p := AllComplicationColors();
    // Each branch below matches one palette entry.
    assert InPalette(p[0].color) && InPalette(p[1].color) && InPalette(p[2].color) && InPalette(p[3].color)
        && InPalette(p[4].color) && InPalette(p[5].color) && InPalette(p[6].color) && InPalette(p[7].color)
        && InPalette(p[8].color) && InPalette(p[9].color) && InPalette(p[10].color) && InPalette(p[11].color)
        && InPalette(p[12].color) && InPalette(p[13].color) && InPalette(p[14].color) && InPalette(p[15].color)
        && InPalette(p[16].color) && InPalette(p[17].color) && InPalette(p[18].color) && InPalette(p[19].color);
    if color == ParseRgb(0xFFFFFF) then "color_white"
    else if color == ParseRgb(0xFFEB3B) then "color_yellow"
    else if color == ParseRgb(0xFFC107) then "color_amber"
    else if color == ParseRgb(0xFF9800) then "color_orange"
    else if color == ParseRgb(0xFF5722) then "color_deep_orange"
    else if color == ParseRgb(0xF44336) then "color_red"
    else if color == ParseRgb(0xE91E63) then "color_pink"
    else if color == ParseRgb(0x9C27B0) then "color_purple"
    else if color == ParseRgb(0x673AB7) then "color_deep_purple"
    else if color == ParseRgb(0x3F51B5) then "color_indigo"
    else if color == ParseRgb(0x2196F3) then "color_blue"
    else if color == ParseRgb(0x03A9F4) then "color_light_blue"
    else if color == ParseRgb(0x00BCD4) then "color_cyan"
    else if color == ParseRgb(0x009688) then "color_teal"
    else if color == ParseRgb(0x4CAF50) then "color_green"
    else if color == ParseRgb(0x8BC34A) then "color_lime_green"
    else if color == ParseRgb(0xCDDC39) then "color_lime"
    else if color == ParseRgb(0x607D8B) then "color_blue_grey"
    else if color == ParseRgb(0x9E9E9E) then "color_grey"
    else if color == ParseRgb(0x795548) then "color_brown"
    else DefaultLabel
  }

  /** `getAllComplicationColors`: the palette, in the order the colour picker lists it. */
  function AllComplicationColors(): (p: seq<ComplicationColor>)
    ensures |p| == 20
  {
    [ ComplicationColor(ParseRgb(0xFFFFFF), "color_white", false),
      ComplicationColor(ParseRgb(0xFFEB3B), "color_yellow", false),
      ComplicationColor(ParseRgb(0xFFC107), "color_amber", false),
      ComplicationColor(ParseRgb(0xFF9800), "color_orange", false),
      ComplicationColor(ParseRgb(0xFF5722), "color_deep_orange", false),
      ComplicationColor(ParseRgb(0xF44336), "color_red", false),
      ComplicationColor(ParseRgb(0xE91E63), "color_pink", false),
      ComplicationColor(ParseRgb(0x9C27B0), "color_purple", false),
      ComplicationColor(ParseRgb(0x673AB7), "color_deep_purple", false),
      ComplicationColor(ParseRgb(0x3F51B5), "color_indigo", false),
      ComplicationColor(ParseRgb(0x2196F3), "color_blue", false),
      ComplicationColor(ParseRgb(0x03A9F4), "color_light_blue", false),
      ComplicationColor(ParseRgb(0x00BCD4), "color_cyan", false),
      ComplicationColor(ParseRgb(0x009688), "color_teal", false),
      ComplicationColor(ParseRgb(0x4CAF50), "color_green", false),
      ComplicationColor(ParseRgb(0x8BC34A), "color_lime_green", false),
      ComplicationColor(ParseRgb(0xCDDC39), "color_lime", false),
      ComplicationColor(ParseRgb(0x607D8B), "color_blue_grey", false),
      ComplicationColor(ParseRgb(0x9E9E9E), "color_grey", false),
      ComplicationColor(ParseRgb(0x795548), "color_brown", false) ]
  }

  predicate InPalette(color: int) {
    exists i :: 0 <= i < |AllComplicationColors()| && AllComplicationColors()[i].color == color
  }

  /** No palette entry is a default, and none carries the default label. */
  lemma PaletteEntryNotDefault(i: nat)
    requires i < |AllComplicationColors()|
    ensures !AllComplicationColors()[i].isDefault
    ensures AllComplicationColors()[i].colorLabel != DefaultLabel
  {
  }

  /** The label lookup and the palette agree: every palette entry is labelled as the palette says. */
  lemma LabelOfPaletteEntry(i: nat)
    requires i < |AllComplicationColors()|
    ensures LabelForColor(AllComplicationColors()[i].color) == AllComplicationColors()[i].colorLabel
  {
  }

  /** A colour gets the default label exactly when it is not in the palette. */
  lemma DefaultLabelIffNotInPalette(color: int)
    ensures LabelForColor(color) == DefaultLabel <==> !InPalette(color)
  {
    var p := AllComplicationColors();
    if InPalette(color) {
      var i :| 0 <= i < |p| && p[i].color == color;
      LabelOfPaletteEntry(i);
      PaletteEntryNotDefault(i);
    } else {
      // Every palette colour was ruled out, so the lookup falls through to its last branch.
      assert p[0].color != color;
      assert p[1].color != color;
      assert p[2].color != color;
      assert p[3].color != color;
      assert p[4].color != color;
      assert p[5].color != color;
      assert p[6].color != color;
      assert p[7].color != color;
      assert p[8].color != color;
      assert p[9].color != color;
      assert p[10].color != color;
      assert p[11].color != color;
      assert p[12].color != color;
      assert p[13].color != color;
      assert p[14].color != color;
      assert p[15].color != color;
      assert p[16].color != color;
      assert p[17].color != color;
      assert p[18].color != color;
      assert p[19].color != color;
    }
  }

  /** No two palette entries share a colour, so each label branch of the lookup is reachable. */
  lemma PaletteColorsDistinct(i: nat, j: nat)
    requires i < j < |AllComplicationColors()|
    ensures AllComplicationColors()[i].color != AllComplicationColors()[j].color
  {
  }
}
