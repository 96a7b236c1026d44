/** Colour validation and the derived palettes of frontend/src/theme/utils.ts:
    the accumulator loop of `createEmotionTheme` (lines 347-357),
    `computeDerivedColors` (lines 256-292) and `createEmotionColors`
    (lines 294-330). */
module ThemeColors {
  import opened Wrappers
  import opened ThemeTypes

  /** One supplied colour: kept as written if it is a colour, else kept with a
      leading `#` if that is a colour, else dropped. */
  function ParseColor(isColor: string -> bool, color: string): (r: Option<string>)
    ensures isColor(color) ==> r == Some(color)
    ensures !isColor(color) && isColor("#" + color) ==> r == Some("#" + color)
    ensures r.None? <==> !isColor(color) && !isColor("#" + color)
    ensures r.Some? ==> isColor(r.value)
  {
    if isColor(color) then Some(color)
    else if isColor("#" + color) then Some("#" + color)
    else None
  }

  /** The accumulator after the `reduce` over `entries`: each entry in order
      either writes its parsed colour under its key or leaves the map alone. */
  function ParsedColors(isColor: string -> bool, entries: seq<(string, string)>): (colors: Palette)
    ensures forall k | k in colors :: exists i | 0 <= i < |entries| :: entries[i].0 == k
    ensures forall k | k in colors :: isColor(colors[k])
  {
    if entries == [] then map[]
    else
      var prefix := entries[..|entries| - 1];
      var acc := ParsedColors(isColor, prefix);
      assert forall k | k in acc :: exists i | 0 <= i < |prefix| :: prefix[i].0 == k;
      var (key, color) := entries[|entries| - 1];
      match ParseColor(isColor, color)
      case Some(c) => acc[key := c]
      case None => acc
  }

  /** `Object.entries(customColors).reduce(...)` of `createEmotionTheme`: fills
      the accumulator dictionary in place, one entry at a time. */
  method ParseColors(isColor: string -> bool, entries: seq<(string, string)>) returns (colors: Palette)
    ensures colors == ParsedColors(isColor, entries)
  {
    colors := map[];
    var i := 0;
    while i < |entries|
      invariant 0 <= i <= |entries|
      invariant colors == ParsedColors(isColor, entries[..i])
    {
      var (key, color) := entries[i];
      if isColor(color) {
        colors := colors[key := color];
      } else if isColor("#" + color) {
        colors := colors[key := "#" + color];
      }
      assert entries[..i + 1][..i] == entries[..i];
      i := i + 1;
    }
    assert entries[..i] == entries;
  }

  /** Parsing a concatenation is parsing each part, the later part winning:
      the reduce is a left-to-right overwrite. */
  lemma {:induction false} ParsedColorsAppend(isColor: string -> bool, a: seq<(string, string)>, b: seq<(string, string)>)
    ensures ParsedColors(isColor, a + b) == ParsedColors(isColor, a) + ParsedColors(isColor, b)
  {
    if b == [] {
      assert a + b == a;
    } else {
      var b' := b[..|b| - 1];
      assert (a + b)[..|a + b| - 1] == a + b';
      assert (a + b)[|a + b| - 1] == b[|b| - 1];
      ParsedColorsAppend(isColor, a, b');
    }
  }

  /** The palette names `computeDerivedColors` reads. */
  const DERIVED_INPUTS: set<string> := {"bodyText", "secondaryBg", "bgColor", "blue"}

  /** The names `computeDerivedColors` writes. */
  const DERIVED_KEYS: set<string> :=
    {"linkText", "fadedText10", "fadedText40", "fadedText60",
     "bgMix", "darkenedBgMix15", "darkenedBgMix60", "lightenedBg05"}

  /** The names `createEmotionColors` adds on top of the generic and derived ones. */
  const ALIAS_KEYS: set<string> :=
    {"alertErrorBorderColor", "alertErrorBackgroundColor", "alertErrorTextColor",
     "alertInfoBorderColor", "alertInfoBackgroundColor", "alertInfoTextColor",
     "alertSuccessBorderColor", "alertSuccessBackgroundColor", "alertSuccessTextColor",
     "alertWarningBorderColor", "alertWarningBackgroundColor", "alertWarningTextColor",
     "codeTextColor", "codeHighlightColor",
     "docStringModuleText", "docStringContainerBackground", "headingColor"}

  /** The generic colours a theme input can set. */
  const PRIMARY_KEYS: set<string> := {"primary", "bodyText", "secondaryBg", "bgColor"}

  /** Every generic palette of a theme names these colours (the `genericColors`
      type of the source); `createEmotionColors` reads each of them. */
  predicate PaletteComplete(g: Palette)
  {
    && "primary" in g && "bodyText" in g && "secondaryBg" in g && "bgColor" in g && "blue" in g
    && "danger" in g && "dangerBg" in g && "info" in g && "infoBg" in g
    && "success" in g && "successBg" in g && "warning" in g && "warningBg" in g && "green80" in g
  }

  /** `getLuminance(bgColor) > 0.5` of the palette at hand. */
  predicate HasLightBg(lib: ColorLib, g: Palette)
    requires "bgColor" in g
  {
    lib.isLight(g["bgColor"])
  }

  /** `computeDerivedColors`. */
  function ComputeDerivedColors(lib: ColorLib, g: Palette): (d: Palette)
    requires DERIVED_INPUTS <= g.Keys
    ensures d.Keys == DERIVED_KEYS
  {
    var bgColor := g["bgColor"];
    var hasLightBg := lib.isLight(bgColor);
    var bgMix := lib.mix(bgColor, g["secondaryBg"], 0.5);
    map[
      "linkText" := if hasLightBg then g["blue"] else lib.lighten(g["blue"], 0.2),
      "fadedText10" := lib.transparentize(g["bodyText"], 0.9),
      "fadedText40" := lib.transparentize(g["bodyText"], 0.6),
      "fadedText60" := lib.transparentize(g["bodyText"], 0.4),
      "bgMix" := bgMix,
      "darkenedBgMix15" := if hasLightBg then lib.darken(bgMix, 0.075) else lib.lighten(bgMix, 0.15),
      "darkenedBgMix60" := if hasLightBg then lib.darken(bgMix, 0.3) else lib.lighten(bgMix, 0.6),
      "lightenedBg05" := lib.lighten(bgColor, 0.025)
    ]
  }

  /** The derived colours depend on the four colours they read and on nothing
      else: the light test is taken afresh from the `bgColor` passed in. */
  lemma DerivedColorsDependOnInputsOnly(lib: ColorLib, g1: Palette, g2: Palette)
    requires DERIVED_INPUTS <= g1.Keys && DERIVED_INPUTS <= g2.Keys
    requires forall k | k in DERIVED_INPUTS :: g1[k] == g2[k]
    ensures ComputeDerivedColors(lib, g1) == ComputeDerivedColors(lib, g2)
  {
    assert g1["bgColor"] == g2["bgColor"] && g1["secondaryBg"] == g2["secondaryBg"];
    assert g1["blue"] == g2["blue"] && g1["bodyText"] == g2["bodyText"];
  }

  /** How the background's lightness steers the derived colours. */
  lemma DerivedColorsFollowBackground(lib: ColorLib, g: Palette)
    requires DERIVED_INPUTS <= g.Keys
    ensures var d := ComputeDerivedColors(lib, g);
      && d["bgMix"] == lib.mix(g["bgColor"], g["secondaryBg"], 0.5)
      && (HasLightBg(lib, g) ==>
            && d["linkText"] == g["blue"]
            && d["darkenedBgMix15"] == lib.darken(d["bgMix"], 0.075)
            && d["darkenedBgMix60"] == lib.darken(d["bgMix"], 0.3))
      && (!HasLightBg(lib, g) ==>
            && d["linkText"] == lib.lighten(g["blue"], 0.2)
            && d["darkenedBgMix15"] == lib.lighten(d["bgMix"], 0.15)
            && d["darkenedBgMix60"] == lib.lighten(d["bgMix"], 0.6))
  {
  }

  /** The faded body texts and the lightened background do not depend on the
      light test: the body text made 90%, 60% and 40% transparent, and the
      background lightened by 0.025. */
  lemma DerivedFadesAndLightening(lib: ColorLib, g: Palette)
    requires DERIVED_INPUTS <= g.Keys
    ensures var d := ComputeDerivedColors(lib, g);
      && d["fadedText10"] == lib.transparentize(g["bodyText"], 0.9)
      && d["fadedText40"] == lib.transparentize(g["bodyText"], 0.6)
      && d["fadedText60"] == lib.transparentize(g["bodyText"], 0.4)
      && d["lightenedBg05"] == lib.lighten(g["bgColor"], 0.025)
  {
  }

  /** The pure aliases `createEmotionColors` adds, plus the two computed entries. */
  function AliasColors(lib: ColorLib, g: Palette, bgMix: string): (a: Palette)
    requires PaletteComplete(g)
    ensures a.Keys == ALIAS_KEYS
  {
    map[
      "alertErrorBorderColor" := g["dangerBg"],
      "alertErrorBackgroundColor" := g["dangerBg"],
      "alertErrorTextColor" := g["danger"],
      "alertInfoBorderColor" := g["infoBg"],
      "alertInfoBackgroundColor" := g["infoBg"],
      "alertInfoTextColor" := g["info"],
      "alertSuccessBorderColor" := g["successBg"],
      "alertSuccessBackgroundColor" := g["successBg"],
      "alertSuccessTextColor" := g["success"],
      "alertWarningBorderColor" := g["warningBg"],
      "alertWarningBackgroundColor" := g["warningBg"],
      "alertWarningTextColor" := g["warning"],
      "codeTextColor" := g["green80"],
      "codeHighlightColor" := bgMix,
      "docStringModuleText" := g["bodyText"],
      "docStringContainerBackground" := lib.transparentize(g["secondaryBg"], 0.6),
      "headingColor" := g["bodyText"]
    ]
  }

  /** `createEmotionColors`: the generic palette, overlaid by the derived
      colours, overlaid by the aliases. Every generic colour survives unless a
      derived or alias colour of the same name replaces it. */
  function CreateEmotionColors(lib: ColorLib, g: Palette): (c: Palette)
    requires PaletteComplete(g)
    ensures c.Keys == g.Keys + DERIVED_KEYS + ALIAS_KEYS
    ensures forall k | k in g && k !in DERIVED_KEYS && k !in ALIAS_KEYS :: c[k] == g[k]
    ensures forall k | k in DERIVED_KEYS :: c[k] == ComputeDerivedColors(lib, g)[k]
    ensures forall k | k in ALIAS_KEYS ::
      c[k] == AliasColors(lib, g, ComputeDerivedColors(lib, g)["bgMix"])[k]
  {
    var derived := ComputeDerivedColors(lib, g);
    var aliases := AliasColors(lib, g, derived["bgMix"]);
    Overlay(g, derived, aliases);
    DerivedAndAliasKeysDisjoint();
    g + derived + aliases
  }

  /** Object spread `{...g, ...d, ...a}`: later sources win. */
  lemma Overlay(g: Palette, d: Palette, a: Palette)
    ensures (g + d + a).Keys == g.Keys + d.Keys + a.Keys
    ensures forall k | k in a :: (g + d + a)[k] == a[k]
    ensures forall k | k in d && k !in a :: (g + d + a)[k] == d[k]
    ensures forall k | k in g && k !in d && k !in a :: (g + d + a)[k] == g[k]
  {
  }

  lemma DerivedAndAliasKeysDisjoint()
    ensures DERIVED_KEYS !! ALIAS_KEYS
  {
  }

  /** The aliasing rules: each alert kind's border and background are its
      `<kind>Bg` colour and its text is `<kind>`; code highlight is `bgMix`;
      headings and doc-string module text are the body text. */
  lemma EmotionColorAliases(lib: ColorLib, g: Palette)
    requires PaletteComplete(g)
    ensures var c := CreateEmotionColors(lib, g);
      && c["alertErrorBorderColor"] == c["alertErrorBackgroundColor"] == g["dangerBg"]
      && c["alertErrorTextColor"] == g["danger"]
      && c["alertInfoBorderColor"] == c["alertInfoBackgroundColor"] == g["infoBg"]
      && c["alertInfoTextColor"] == g["info"]
      && c["alertSuccessBorderColor"] == c["alertSuccessBackgroundColor"] == g["successBg"]
      && c["alertSuccessTextColor"] == g["success"]
      && c["alertWarningBorderColor"] == c["alertWarningBackgroundColor"] == g["warningBg"]
      && c["alertWarningTextColor"] == g["warning"]
      && c["codeHighlightColor"] == c["bgMix"]
      && c["headingColor"] == c["docStringModuleText"] == g["bodyText"]
      && c["codeTextColor"] == g["green80"]
      && c["docStringContainerBackground"] == lib.transparentize(g["secondaryBg"], 0.6)
  {
    var bgMix := ComputeDerivedColors(lib, g)["bgMix"];
    AliasValues(lib, g, bgMix);
  }

  lemma AliasValues(lib: ColorLib, g: Palette, bgMix: string)
    requires PaletteComplete(g)
    ensures var a := AliasColors(lib, g, bgMix);
      && a["alertErrorBorderColor"] == a["alertErrorBackgroundColor"] == g["dangerBg"]
      && a["alertErrorTextColor"] == g["danger"]
      && a["alertInfoBorderColor"] == a["alertInfoBackgroundColor"] == g["infoBg"]
      && a["alertInfoTextColor"] == g["info"]
      && a["alertSuccessBorderColor"] == a["alertSuccessBackgroundColor"] == g["successBg"]
      && a["alertSuccessTextColor"] == g["success"]
      && a["alertWarningBorderColor"] == a["alertWarningBackgroundColor"] == g["warningBg"]
      && a["alertWarningTextColor"] == g["warning"]
      && a["codeHighlightColor"] == bgMix
      && a["headingColor"] == a["docStringModuleText"] == g["bodyText"]
      && a["codeTextColor"] == g["green80"]
      && a["docStringContainerBackground"] == lib.transparentize(g["secondaryBg"], 0.6)
  {
  }

  /** The derived entries of the full palette, in terms of the generic one: the
      light test is the test of the palette's own background. */
  lemma EmotionColorsDerived(lib: ColorLib, g: Palette)
    requires PaletteComplete(g)
    ensures var c := CreateEmotionColors(lib, g);
            var bgMix := lib.mix(g["bgColor"], g["secondaryBg"], 0.5);
            var light := lib.isLight(g["bgColor"]);
      && c["bgMix"] == bgMix
      && c["codeHighlightColor"] == bgMix
      && c["linkText"] == (if light then g["blue"] else lib.lighten(g["blue"], 0.2))
      && c["darkenedBgMix15"] == (if light then lib.darken(bgMix, 0.075) else lib.lighten(bgMix, 0.15))
      && c["darkenedBgMix60"] == (if light then lib.darken(bgMix, 0.3) else lib.lighten(bgMix, 0.6))
  {
    DerivedColorsFollowBackground(lib, g);
    DerivedKeysFacts();
    EmotionColorAliases(lib, g);
  }

  lemma DerivedKeysFacts()
    ensures "bgMix" in DERIVED_KEYS && "linkText" in DERIVED_KEYS
    ensures "darkenedBgMix15" in DERIVED_KEYS && "darkenedBgMix60" in DERIVED_KEYS
  {
  }

  /** The four user-facing colours pass through `createEmotionColors` unchanged. */
  lemma EmotionColorsKeepPrimaries(lib: ColorLib, g: Palette)
    requires PaletteComplete(g)
    ensures var c := CreateEmotionColors(lib, g);
      && c["primary"] == g["primary"] && c["bgColor"] == g["bgColor"]
      && c["secondaryBg"] == g["secondaryBg"] && c["bodyText"] == g["bodyText"]
  {
    PrimaryKeysAreGeneric();
  }

  /** The four user-facing colours are generic colours that no derived or alias
      colour overwrites. */
  lemma PrimaryKeysAreGeneric()
    ensures forall k | k in PRIMARY_KEYS :: k !in DERIVED_KEYS && k !in ALIAS_KEYS
  {
  }
}
