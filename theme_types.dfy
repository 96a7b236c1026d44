/** The values the theme utilities work on. Every palette of the source is a
    JavaScript object from names to CSS strings; here it is a `map`. */
module ThemeTypes {
  import opened Wrappers

  /** A palette, font or size table: property name to CSS value. */
  type Palette = map<string, string>

  /** The emotion theme (`Theme` of the source). `colors` is the full derived
      palette, `genericColors` the user-facing palette it is derived from. */
  datatype Theme = Theme(
    colors: Palette,
    genericColors: Palette,
    genericFonts: Palette,
    fontSizes: Palette,
    lineHeights: Palette,
    radii: Palette,
    spacing: Palette,
    inSidebar: bool)

  /** A named, persistable theme (`ThemeConfig`). The third-party styling
      library's theme object and primitives are kept as opaque palettes. */
  datatype ThemeConfig = ThemeConfig(
    name: string,
    emotion: Theme,
    basewebTheme: Palette,
    primitives: Palette)

  /** The partial user input (`Partial<CustomThemeConfig>`). `None` stands for
      a field that is absent, `undefined` or `null`; `font` is an enum ordinal. */
  datatype ThemeInput = ThemeInput(
    primaryColor: Option<string>,
    backgroundColor: Option<string>,
    secondaryBackgroundColor: Option<string>,
    textColor: Option<string>,
    font: Option<int>)

  /** The colour capabilities the utilities call into and that are not part of
      this model: the browser's CSS colour parser behind `isColor`, the test
      `getLuminance(c) > 0.5`, and the color2k operations. They are left
      uninterpreted: every property proved below holds for every choice. */
  datatype ColorLib = ColorLib(
    isColor: string -> bool,
    isLight: string -> bool,
    lighten: (string, real) -> string,
    darken: (string, real) -> string,
    mix: (string, string, real) -> string,
    transparentize: (string, real) -> string)

  /** `m[k]` in JavaScript: the value, or `undefined` when the key is absent. */
  function Lookup(m: Palette, k: string): Option<string>
  {
    if k in m then Some(m[k]) else None
  }

  /** JavaScript truthiness of an optional string: present and not empty. */
  predicate Truthy(o: Option<string>)
  {
    o.Some? && o.value != ""
  }
}
