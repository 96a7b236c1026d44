/** Building a theme from user input: `createEmotionTheme` (lines 338-389),
    `createTheme` (lines 391-410) and `toThemeInput` (lines 412-421) of
    frontend/src/theme/utils.ts. */
module ThemeCreate {
  import opened Wrappers
  import opened ThemeTypes
  import opened ThemeFonts
  import opened ThemeColors

  /** What the utilities take from outside this file: the `fonts` table, the
      built-in light and dark themes, and the styling library's theme builder
      `createBaseUiTheme`, which is not part of this model. */
  datatype Builtins = Builtins(
    fonts: FontTable,
    lightTheme: ThemeConfig,
    darkTheme: ThemeConfig,
    createBaseUiTheme: (Theme, Palette) -> Palette)

  /** A theme config whose generic palette has every colour the pipeline reads. */
  predicate ConfigOk(t: ThemeConfig)
  {
    PaletteComplete(t.emotion.genericColors)
  }

  predicate BuiltinsOk(b: Builtins)
  {
    ConfigOk(b.lightTheme) && ConfigOk(b.darkTheme) && "bgColor" in b.lightTheme.emotion.colors
  }

  /** `Object.entries` of the input without its font: one entry per present
      colour field. */
  function ColorEntries(input: ThemeInput): seq<(string, string)>
  {
    FieldEntry("primaryColor", input.primaryColor)
    + FieldEntry("backgroundColor", input.backgroundColor)
    + FieldEntry("secondaryBackgroundColor", input.secondaryBackgroundColor)
    + FieldEntry("textColor", input.textColor)
  }

  function FieldEntry(key: string, value: Option<string>): seq<(string, string)>
  {
    if value.Some? then [(key, value.value)] else []
  }

  /** What the validation makes of one optional input field. */
  function ParsedField(isColor: string -> bool, field: Option<string>): Option<string>
  {
    if field.None? then None else ParseColor(isColor, field.value)
  }

  /** The colour a generic palette entry ends up with: the parsed input when it
      is a non-empty string, the base theme's value otherwise. */
  function MergedColor(isColor: string -> bool, field: Option<string>, fallback: string): string
  {
    var parsed := ParsedField(isColor, field);
    if Truthy(parsed) then parsed.value else fallback
  }

  /** A present field contributes its validated value under its own name. */
  function Single(key: string, value: Option<string>): Palette
  {
    if value.Some? then map[key := value.value] else map[]
  }

  lemma FieldEntryParsed(isColor: string -> bool, key: string, field: Option<string>)
    ensures ParsedColors(isColor, FieldEntry(key, field)) == Single(key, ParsedField(isColor, field))
  {
    if field.Some? {
      assert FieldEntry(key, field)[..0] == [];
    }
  }

  /** The accumulated parse of an input holds, under each field's name, exactly
      the validated value of that field. */
  lemma {:induction false} ParsedInputColors(isColor: string -> bool, input: ThemeInput)
    ensures var parsed := ParsedColors(isColor, ColorEntries(input));
      && Lookup(parsed, "primaryColor") == ParsedField(isColor, input.primaryColor)
      && Lookup(parsed, "backgroundColor") == ParsedField(isColor, input.backgroundColor)
      && Lookup(parsed, "secondaryBackgroundColor") == ParsedField(isColor, input.secondaryBackgroundColor)
      && Lookup(parsed, "textColor") == ParsedField(isColor, input.textColor)
  {
    var e1 := FieldEntry("primaryColor", input.primaryColor);
    var e2 := FieldEntry("backgroundColor", input.backgroundColor);
    var e3 := FieldEntry("secondaryBackgroundColor", input.secondaryBackgroundColor);
    var e4 := FieldEntry("textColor", input.textColor);
    assert ColorEntries(input) == e1 + e2 + e3 + e4;
    ParsedColorsAppend(isColor, e1 + e2 + e3, e4);
    ParsedColorsAppend(isColor, e1 + e2, e3);
    ParsedColorsAppend(isColor, e1, e2);
    FieldEntryParsed(isColor, "primaryColor", input.primaryColor);
    FieldEntryParsed(isColor, "backgroundColor", input.backgroundColor);
    FieldEntryParsed(isColor, "secondaryBackgroundColor", input.secondaryBackgroundColor);
    FieldEntryParsed(isColor, "textColor", input.textColor);
    LookupSingles(ParsedField(isColor, input.primaryColor), ParsedField(isColor, input.backgroundColor),
                  ParsedField(isColor, input.secondaryBackgroundColor), ParsedField(isColor, input.textColor));
  }

  lemma LookupSingles(o1: Option<string>, o2: Option<string>, o3: Option<string>, o4: Option<string>)
    ensures var m := Single("primaryColor", o1) + Single("backgroundColor", o2)
                   + Single("secondaryBackgroundColor", o3) + Single("textColor", o4);
      && Lookup(m, "primaryColor") == o1 && Lookup(m, "backgroundColor") == o2
      && Lookup(m, "secondaryBackgroundColor") == o3 && Lookup(m, "textColor") == o4
  {
  }

  /** `...(value && { target: value })`: only a non-empty value overrides. */
  function Override(g: Palette, target: string, value: Option<string>): Palette
  {
    if Truthy(value) then g[target := value.value] else g
  }

  /** `newGenericColors`: the base palette with at most the four user-facing
      colours replaced. */
  function MergeGenericColors(base: Palette, primary: Option<string>, bodyText: Option<string>,
                              secondaryBg: Option<string>, bgColor: Option<string>): (g: Palette)
    ensures base.Keys <= g.Keys <= base.Keys + PRIMARY_KEYS
    ensures forall k | k in base && k !in PRIMARY_KEYS :: g[k] == base[k]
    ensures Lookup(g, "primary") == if Truthy(primary) then primary else Lookup(base, "primary")
    ensures Lookup(g, "bodyText") == if Truthy(bodyText) then bodyText else Lookup(base, "bodyText")
    ensures Lookup(g, "secondaryBg") == if Truthy(secondaryBg) then secondaryBg else Lookup(base, "secondaryBg")
    ensures Lookup(g, "bgColor") == if Truthy(bgColor) then bgColor else Lookup(base, "bgColor")
  {
    Override(Override(Override(Override(base, "primary", primary), "bodyText", bodyText),
                      "secondaryBg", secondaryBg), "bgColor", bgColor)
  }

  /** The generic fonts after the input's font: body and heading font both
      become the parsed font when it is a non-empty string; nothing else moves. */
  function MergeFonts(genericFonts: Palette, parsedFont: Option<string>): (f: Palette)
    ensures !Truthy(parsedFont) ==> f == genericFonts
    ensures Truthy(parsedFont) ==>
      && f.Keys == genericFonts.Keys + {"bodyFont", "headingFont"}
      && f["bodyFont"] == parsedFont.value && f["headingFont"] == parsedFont.value
      && forall k | k in genericFonts && k != "bodyFont" && k != "headingFont" :: f[k] == genericFonts[k]
  {
    if Truthy(parsedFont) then
      genericFonts["bodyFont" := parsedFont.value]["headingFont" := parsedFont.value]
    else genericFonts
  }

  /** `newGenericColors` of `createEmotionTheme`: the base palette with the
      validated input colours merged over it. No name is added or lost. */
  function NewGenericColors(isColor: string -> bool, input: ThemeInput, base: Palette): (g: Palette)
    requires PaletteComplete(base)
    ensures g.Keys == base.Keys
    ensures forall k | k in base && k !in PRIMARY_KEYS :: g[k] == base[k]
    ensures g["primary"] == MergedColor(isColor, input.primaryColor, base["primary"])
    ensures g["bgColor"] == MergedColor(isColor, input.backgroundColor, base["bgColor"])
    ensures g["secondaryBg"] == MergedColor(isColor, input.secondaryBackgroundColor, base["secondaryBg"])
    ensures g["bodyText"] == MergedColor(isColor, input.textColor, base["bodyText"])
  {
    ParsedInputColors(isColor, input);
    var parsed := ParsedColors(isColor, ColorEntries(input));
    MergeGenericColors(base,
      Lookup(parsed, "primaryColor"), Lookup(parsed, "textColor"),
      Lookup(parsed, "secondaryBackgroundColor"), Lookup(parsed, "backgroundColor"))
  }

  /** `createEmotionTheme`: validate the input colours, merge them over the base
      theme's generic palette, derive the full palette from the result, and
      apply the font. Every other part of the base theme is kept. */
  function CreateEmotionTheme(lib: ColorLib, fonts: FontTable, input: ThemeInput, base: ThemeConfig): (t: Theme)
    requires ConfigOk(base)
    ensures t.genericColors.Keys == base.emotion.genericColors.Keys
    ensures PaletteComplete(t.genericColors)
    ensures forall k | k in base.emotion.genericColors && k !in PRIMARY_KEYS ::
      t.genericColors[k] == base.emotion.genericColors[k]
    ensures t.(colors := base.emotion.colors, genericColors := base.emotion.genericColors,
               genericFonts := base.emotion.genericFonts) == base.emotion
    ensures t.genericFonts == MergeFonts(base.emotion.genericFonts, FontEnumToString(fonts, input.font))
  {
    var g := NewGenericColors(lib.isColor, input, base.emotion.genericColors);
    base.emotion.(
      colors := CreateEmotionColors(lib, g),
      genericColors := g,
      genericFonts := MergeFonts(base.emotion.genericFonts, FontEnumToString(fonts, input.font)))
  }

  /** Each of the four user-facing colours is the validated input when that is
      a non-empty colour and the base theme's colour otherwise (an absent or
      rejected field changes nothing), and the full palette is derived from the
      merged generic palette. */
  lemma {:induction false} EmotionThemeColors(lib: ColorLib, fonts: FontTable, input: ThemeInput, base: ThemeConfig)
    requires ConfigOk(base)
    ensures var t := CreateEmotionTheme(lib, fonts, input, base);
            var b := base.emotion.genericColors;
      && t.genericColors["primary"] == MergedColor(lib.isColor, input.primaryColor, b["primary"])
      && t.genericColors["bgColor"] == MergedColor(lib.isColor, input.backgroundColor, b["bgColor"])
      && t.genericColors["secondaryBg"] == MergedColor(lib.isColor, input.secondaryBackgroundColor, b["secondaryBg"])
      && t.genericColors["bodyText"] == MergedColor(lib.isColor, input.textColor, b["bodyText"])
      && t.colors == CreateEmotionColors(lib, t.genericColors)
  {
  }

  /** The font: an absent, null or out-of-range ordinal leaves the generic
      fonts alone; a valid one sets body and heading font to its string. */
  lemma EmotionThemeFonts(lib: ColorLib, fonts: FontTable, input: ThemeInput, base: ThemeConfig)
    requires ConfigOk(base)
    ensures var t := CreateEmotionTheme(lib, fonts, input, base);
            var parsedFont := FontEnumToString(fonts, input.font);
      && (input.font.None? || !(0 <= input.font.value <= 2) ==> t.genericFonts == base.emotion.genericFonts)
      && (Truthy(parsedFont) ==>
            && t.genericFonts["bodyFont"] == parsedFont.value
            && t.genericFonts["headingFont"] == parsedFont.value
            && forall k | k in base.emotion.genericFonts && k != "bodyFont" && k != "headingFont" ::
                 t.genericFonts[k] == base.emotion.genericFonts[k])
  {
  }

  /** The light test behind the derived colours is taken from the merged
      background, not from the base theme: an overriding background colour
      decides whether links are brightened and mixes darkened or lightened. */
  lemma {:induction false} EmotionThemeDerivesFromMergedBackground(lib: ColorLib, fonts: FontTable, input: ThemeInput, base: ThemeConfig)
    requires ConfigOk(base)
    ensures var t := CreateEmotionTheme(lib, fonts, input, base);
            var b := base.emotion.genericColors;
            var bg := MergedColor(lib.isColor, input.backgroundColor, b["bgColor"]);
            var secondary := MergedColor(lib.isColor, input.secondaryBackgroundColor, b["secondaryBg"]);
            var bgMix := lib.mix(bg, secondary, 0.5);
      && t.colors["bgMix"] == bgMix
      && t.colors["codeHighlightColor"] == bgMix
      && t.colors["linkText"] == (if lib.isLight(bg) then b["blue"] else lib.lighten(b["blue"], 0.2))
      && t.colors["darkenedBgMix15"] == (if lib.isLight(bg) then lib.darken(bgMix, 0.075) else lib.lighten(bgMix, 0.15))
      && t.colors["darkenedBgMix60"] == (if lib.isLight(bg) then lib.darken(bgMix, 0.3) else lib.lighten(bgMix, 0.6))
  {
    var t := CreateEmotionTheme(lib, fonts, input, base);
    EmotionThemeColors(lib, fonts, input, base);
    BlueIsKept();
    EmotionColorsDerived(lib, t.genericColors);
  }

  lemma BlueIsKept()
    ensures "blue" !in PRIMARY_KEYS
  {
  }

  /** The colour picker of the theme creator: picking the colour "pink" makes
      it the theme's primary colour. */
  lemma PickedPrimaryColorExample(lib: ColorLib, fonts: FontTable, base: ThemeConfig)
    requires ConfigOk(base) && lib.isColor("pink")
    ensures CreateEmotionTheme(lib, fonts, ThemeInput(Some("pink"), None, None, None, None), base)
              .colors["primary"] == "pink"
  {
    var input := ThemeInput(Some("pink"), None, None, None, None);
    EmotionThemeColors(lib, fonts, input, base);
    EmotionColorsKeepPrimaries(lib, CreateEmotionTheme(lib, fonts, input, base).genericColors);
  }

  /** The font selector of the theme creator: ordinal 2 sets the body font to
      the table's monospace string. */
  lemma PickedMonospaceExample(lib: ColorLib, fonts: FontTable, base: ThemeConfig)
    requires ConfigOk(base) && Truthy(LookupFont(fonts, "monospace"))
    ensures var t := CreateEmotionTheme(lib, fonts, ThemeInput(None, None, None, None, Some(2)), base);
      "bodyFont" in t.genericFonts && t.genericFonts["bodyFont"] == LookupFont(fonts, "monospace").value
  {
  }

  /** The background whose lightness picks the starting theme: the first
      non-empty of the raw input background, the base theme's background and
      the light theme's background. */
  function LuminanceBackground(b: Builtins, input: ThemeInput, base: Option<ThemeConfig>): string
    requires "bgColor" in b.lightTheme.emotion.colors
  {
    if Truthy(input.backgroundColor) then input.backgroundColor.value
    else if base.Some? && Truthy(Lookup(base.value.emotion.colors, "bgColor")) then base.value.emotion.colors["bgColor"]
    else b.lightTheme.emotion.colors["bgColor"]
  }

  /** `startingTheme` of `createTheme`. */
  function StartingTheme(lib: ColorLib, b: Builtins, input: ThemeInput, base: Option<ThemeConfig>): (start: ThemeConfig)
    requires BuiltinsOk(b)
    requires base.Some? ==> ConfigOk(base.value)
    ensures ConfigOk(start)
    ensures base.Some? ==> start == base.value
  {
    if base.Some? then base.value
    else if lib.isLight(LuminanceBackground(b, input, base)) then b.lightTheme
    else b.darkTheme
  }

  /** Without a base theme the start is the light theme exactly when the
      background in force is light: the input's (as typed, before validation)
      when it is non-empty, the light theme's own otherwise. */
  lemma StartingThemeChoice(lib: ColorLib, b: Builtins, input: ThemeInput)
    requires BuiltinsOk(b)
    ensures var start := StartingTheme(lib, b, input, None);
            var lightBg := b.lightTheme.emotion.colors["bgColor"];
      && (Truthy(input.backgroundColor) && lib.isLight(input.backgroundColor.value) ==> start == b.lightTheme)
      && (Truthy(input.backgroundColor) && !lib.isLight(input.backgroundColor.value) ==> start == b.darkTheme)
      && (!Truthy(input.backgroundColor) && lib.isLight(lightBg) ==> start == b.lightTheme)
      && (!Truthy(input.backgroundColor) && !lib.isLight(lightBg) ==> start == b.darkTheme)
  {
  }

  /** `createTheme`: the starting theme renamed, with the emotion theme built
      from the input over it and the styling library's theme built from that. */
  function CreateTheme(lib: ColorLib, b: Builtins, themeName: string, input: ThemeInput, base: Option<ThemeConfig>): (config: ThemeConfig)
    requires BuiltinsOk(b)
    requires base.Some? ==> ConfigOk(base.value)
    ensures config.name == themeName
    ensures ConfigOk(config)
    ensures config.primitives == StartingTheme(lib, b, input, base).primitives
    ensures config.emotion == CreateEmotionTheme(lib, b.fonts, input, StartingTheme(lib, b, input, base))
    ensures config.basewebTheme == b.createBaseUiTheme(config.emotion, config.primitives)
  {
    var start := StartingTheme(lib, b, input, base);
    var emotion := CreateEmotionTheme(lib, b.fonts, input, start);
    start.(name := themeName, emotion := emotion,
           basewebTheme := b.createBaseUiTheme(emotion, start.primitives))
  }

  /** `toThemeInput`: the four user-facing colours of the full palette and the
      enum of the body font (the default when there is no body font). */
  function ToThemeInput(fonts: FontTable, theme: Theme): (input: ThemeInput)
    ensures input.font.Some? && FromOrdinal(input.font.value).Some?
    ensures "bodyFont" !in theme.genericFonts ==> input.font == Some(DEFAULT_FONT.Ordinal())
  {
    var bodyFont := if "bodyFont" in theme.genericFonts then FontToEnum(fonts, theme.genericFonts["bodyFont"]) else DEFAULT_FONT;
    ThemeInput(
      Lookup(theme.colors, "primary"),
      Lookup(theme.colors, "bgColor"),
      Lookup(theme.colors, "secondaryBg"),
      Lookup(theme.colors, "bodyText"),
      Some(bodyFont.Ordinal()))
  }

  /** A colour field the validation keeps as typed. */
  predicate KeptAsTyped(isColor: string -> bool, field: Option<string>)
  {
    field.Some? && field.value != "" && isColor(field.value)
  }

  /** Round trip: reading the input back from a created theme gives the four
      merged colours, so a colour supplied in valid form comes back verbatim. */
  lemma {:induction false} ThemeInputRoundTrip(lib: ColorLib, b: Builtins, themeName: string, input: ThemeInput, base: Option<ThemeConfig>)
    requires BuiltinsOk(b)
    requires base.Some? ==> ConfigOk(base.value)
    ensures var start := StartingTheme(lib, b, input, base).emotion.genericColors;
            var back := ToThemeInput(b.fonts, CreateTheme(lib, b, themeName, input, base).emotion);
      && back.primaryColor == Some(MergedColor(lib.isColor, input.primaryColor, start["primary"]))
      && back.backgroundColor == Some(MergedColor(lib.isColor, input.backgroundColor, start["bgColor"]))
      && back.secondaryBackgroundColor == Some(MergedColor(lib.isColor, input.secondaryBackgroundColor, start["secondaryBg"]))
      && back.textColor == Some(MergedColor(lib.isColor, input.textColor, start["bodyText"]))
      && (KeptAsTyped(lib.isColor, input.primaryColor) ==> back.primaryColor == input.primaryColor)
      && (KeptAsTyped(lib.isColor, input.backgroundColor) ==> back.backgroundColor == input.backgroundColor)
      && (KeptAsTyped(lib.isColor, input.secondaryBackgroundColor) ==> back.secondaryBackgroundColor == input.secondaryBackgroundColor)
      && (KeptAsTyped(lib.isColor, input.textColor) ==> back.textColor == input.textColor)
  {
    var start := StartingTheme(lib, b, input, base);
    var t := CreateEmotionTheme(lib, b.fonts, input, start);
    EmotionThemeColors(lib, b.fonts, input, start);
    EmotionColorsKeepPrimaries(lib, t.genericColors);
  }

  /** Round trip of the font: with a well-formed font table, a font ordinal
      that resolves to a font string comes back from the created theme. */
  lemma FontInputRoundTrip(lib: ColorLib, b: Builtins, themeName: string, input: ThemeInput, base: Option<ThemeConfig>)
    requires BuiltinsOk(b)
    requires base.Some? ==> ConfigOk(base.value)
    requires WellFormed(b.fonts) && Truthy(FontEnumToString(b.fonts, input.font))
    ensures ToThemeInput(b.fonts, CreateTheme(lib, b, themeName, input, base).emotion).font == input.font
  {
    var start := StartingTheme(lib, b, input, base);
    EmotionThemeFonts(lib, b.fonts, input, start);
    var f := FromOrdinal(input.font.value).value;
    FontRoundTrip(b.fonts, f);
  }
}
