# Theme derivation and theme cache, modelled in Dafny

This project models the theme utilities of a data-app framework's browser front end
(`frontend/src/theme/utils.ts`). The model covers four parts:

- **Colour input pipeline.** A partial theme input holds up to four colour strings and a
  font ordinal. Each colour is validated (kept as typed, or with a `#` prepended, or
  dropped). The valid ones are merged over a base theme's generic palette, the derived
  and alias colours are computed from the merged palette, and the font is applied.
  `createTheme` picks the base theme (given, or light or dark by the background's
  lightness), and `toThemeInput` reads an input back from a theme.
- **Font mapping** between the `FontFamily` enum (sans serif 0, serif 1, monospace 2)
  and the `fonts` table of font-family strings, in both directions.
- **Spacing shorthand translation** (`computeSpacingStyle`): split on `\s+`, look each
  token up in the theme's spacing table, join with single spaces.
- **Theme cache**: one entry of the browser's key-value store, behind an availability
  probe, and the default-theme policy built on it.

Modules: `Wrappers` (Option), `ThemeTypes` (palettes, `Theme`, `ThemeConfig`,
`ThemeInput`, the colour capabilities), `ThemeFonts`, `ThemeColors` (validation, the
accumulator loop, derived and emotion colours), `ThemeCreate` (`createEmotionTheme`,
`createTheme`, `toThemeInput`), `Spacing` and `ThemeCache` (a `LocalStorage` class whose
methods change the store in place).

What comes from outside the file is a parameter, and every property holds for every choice:

- `ColorLib` stands for the browser CSS parser behind `isColor`, the test
  `getLuminance(c) > 0.5`, and the color2k operations `lighten`, `darken`, `mix` and
  `transparentize`.
- `Builtins` holds the `fonts` table, the built-in light and dark themes, and
  `createBaseUiTheme`.
- The automatic theme is a parameter of `GetDefaultTheme`.

Three behaviours of the code worth knowing:

- The theme's colours read back by `toThemeInput` are the validated ones. A bare hex
  value comes back with its `#`, and an empty or rejected value comes back as the base
  theme's colour. It is not the value the user supplied.
- Without a base theme, the lightness test in `createTheme` is applied to the raw input
  background (before validation). It is not applied to the resolved background colour
  (utils.ts:396-401).
- A parsed colour or font string overrides the base only when it is non-empty. This is
  JavaScript truthiness (`primary && { primary }`).

## Model

| member | source | states |
|---|---|---|
| ThemeFonts.FromOrdinal | frontend/src/theme/utils.ts:61-63 | an ordinal names an enum member exactly when it is 0, 1 or 2, and then that member's ordinal |
| ThemeFonts.FromKey | frontend/src/theme/utils.ts:49-53 | a table key resolves to a member only for the member's own camel-case key; any other key resolves to none |
| ThemeFonts.LookupFont | frontend/src/theme/utils.ts:64-68 | `fonts[key]` is the value of an entry under that key, and undefined only when no entry has the key |
| ThemeFonts.FindKey | frontend/src/theme/utils.ts:44-46 | the search returns the key of the FIRST entry holding the font, and nothing only when no entry holds it |
| ThemeFonts.FontToEnum | frontend/src/theme/utils.ts:43-56 | `fontToEnum`: a string that is not a value of the table maps to SANS_SERIF; otherwise the result is the member named by the key of the FIRST entry holding the string, or SANS_SERIF when that key names no member |
| ThemeFonts.FontEnumToString | frontend/src/theme/utils.ts:58-69 | `fontEnumToString`: a null, undefined or out-of-range ordinal gives undefined; ordinals 0, 1, 2 give the table's sansSerif, serif, monospace strings |
| ThemeFonts.LookupFontAt | frontend/src/theme/utils.ts:64-68 | with distinct keys, looking up an entry's key gives that entry's value |
| ThemeFonts.FindKeyAt | frontend/src/theme/utils.ts:44-46 | with distinct values, searching for an entry's value gives that entry's key |
| ThemeFonts.FontRoundTrip | frontend/src/theme/utils.ts:43-69 | in a well-formed table, `fontToEnum(fontEnumToString(e)) = e` for every enum member |
| ThemeColors.ParseColor | frontend/src/theme/utils.ts:349-353 | a colour is kept verbatim if it is a colour, else as `"#"+value` if that is one, else dropped; whatever is kept is a colour |
| ThemeColors.ParsedColors | frontend/src/theme/utils.ts:347-357 | the accumulator only holds keys of supplied entries, and only values that are colours |
| ThemeColors.ParseColors | frontend/src/theme/utils.ts:347-357 | the in-place accumulator loop of `createEmotionTheme` computes exactly the fold `ParsedColors` |
| ThemeColors.ParsedColorsAppend | frontend/src/theme/utils.ts:347-357 | parsing a concatenation overlays the second part's result on the first's; later entries win |
| ThemeColors.ComputeDerivedColors | frontend/src/theme/utils.ts:256-292 | produces exactly the eight derived names |
| ThemeColors.DerivedColorsDependOnInputsOnly | frontend/src/theme/utils.ts:259-279 | the derived colours depend only on bodyText, secondaryBg, bgColor and blue; nothing is memoised |
| ThemeColors.DerivedColorsFollowBackground | frontend/src/theme/utils.ts:259-279 | bgMix is the 50/50 mix of background and secondary background; on a light background linkText is blue and the mixes are darkened, otherwise linkText is blue lightened by 0.2 and the mixes are lightened |
| ThemeColors.DerivedFadesAndLightening | frontend/src/theme/utils.ts:269-279 | fadedText10, fadedText40 and fadedText60 are the body text made 90%, 60% and 40% transparent; lightenedBg05 is the background lightened by 0.025; none depends on the light test |
| ThemeColors.AliasColors | frontend/src/theme/utils.ts:302-328 | produces exactly the seventeen alert, code and doc-string names |
| ThemeColors.CreateEmotionColors | frontend/src/theme/utils.ts:294-330 | the full palette has the generic, derived and alias names; every generic colour survives unless a derived or alias colour of that name replaces it |
| ThemeColors.EmotionColorAliases | frontend/src/theme/utils.ts:302-328 | for danger, info, success and warning, alert border and background are `<kind>Bg` and text is `<kind>`; code highlight is bgMix; heading and doc-string module text are bodyText; code text is green80; the doc-string container background is the secondary background made 60% transparent |
| ThemeColors.EmotionColorsDerived | frontend/src/theme/utils.ts:294-330 | the full palette's bgMix, codeHighlightColor, linkText and darkened mixes follow the light test of the palette's own background |
| ThemeColors.EmotionColorsKeepPrimaries | frontend/src/theme/utils.ts:298-300 | primary, bgColor, secondaryBg and bodyText pass through to the full palette unchanged |
| ThemeCreate.ParsedInputColors | frontend/src/theme/utils.ts:343-357 | after the accumulator loop, each colour field's name holds exactly that field's validated value, or nothing |
| ThemeCreate.MergeGenericColors | frontend/src/theme/utils.ts:369-375 | only primary, bodyText, secondaryBg and bgColor can change; each takes its override when that is non-empty and keeps the base value otherwise |
| ThemeCreate.NewGenericColors | frontend/src/theme/utils.ts:347-375 | the merged palette has the base's names; each of the four colours is the validated input or the base colour; all other names keep the base value |
| ThemeCreate.MergeFonts | frontend/src/theme/utils.ts:381-387 | an empty or absent font leaves the fonts as they are; otherwise bodyFont and headingFont both become it and nothing else changes |
| ThemeCreate.CreateEmotionTheme | frontend/src/theme/utils.ts:338-389 | the result keeps the base theme's names and every field other than colors, genericColors and genericFonts; only the four user-facing generic colours can change |
| ThemeCreate.EmotionThemeColors | frontend/src/theme/utils.ts:362-379 | each user-facing colour is the validated non-empty input, else the base colour (absent and dropped fields change nothing); the full palette is derived from the merged one |
| ThemeCreate.EmotionThemeFonts | frontend/src/theme/utils.ts:345-387 | a null, undefined or non-member font leaves genericFonts unchanged; a resolved font sets bodyFont and headingFont and nothing else |
| ThemeCreate.EmotionThemeDerivesFromMergedBackground | frontend/src/theme/utils.ts:369-379 | the light test behind linkText and the darkened mixes is taken from the merged background, not the base theme's |
| ThemeCreate.PickedPrimaryColorExample | frontend/src/components/core/StreamlitDialog/ThemeCreatorDialog.test.tsx:81-99 | choosing the colour "pink" makes it the theme's primary colour |
| ThemeCreate.PickedMonospaceExample | frontend/src/components/core/StreamlitDialog/ThemeCreatorDialog.test.tsx:115-124 | font ordinal 2 makes the body font the table's monospace string |
| ThemeCreate.StartingTheme | frontend/src/theme/utils.ts:396-401 | a given base theme is the starting theme |
| ThemeCreate.StartingThemeChoice | frontend/src/theme/utils.ts:396-401 | without a base, the light theme is chosen exactly when the first non-empty of the input background and the light theme's background is light |
| ThemeCreate.CreateTheme | frontend/src/theme/utils.ts:391-410 | the config is named `themeName`, keeps the starting theme's primitives, is complete, and carries the emotion theme built over the starting theme; its styling-library theme is rebuilt from that new emotion theme and the starting primitives |
| ThemeCreate.ToThemeInput | frontend/src/theme/utils.ts:412-421 | `toThemeInput` always yields the ordinal of an enum member, and the default (sans serif) when the theme has no body font; what it yields for a created theme is stated by the two round-trip lemmas below |
| ThemeCreate.ThemeInputRoundTrip | frontend/src/theme/utils.ts:412-421 | `toThemeInput` of a created theme returns exactly the four merged colours; a colour supplied in valid form comes back verbatim |
| ThemeCreate.FontInputRoundTrip | frontend/src/theme/utils.ts:412-421 | with a well-formed font table, a font ordinal that resolves to a font string comes back from the created theme |
| Spacing.Split | frontend/src/theme/utils.ts:487-494 | splitting on `\s+` gives at least one piece; no piece has whitespace, and only the first and last can be empty |
| Spacing.SplitRebuilds | frontend/src/theme/utils.ts:487-494 | the pieces are the text of the input: putting the non-empty whitespace runs back between them rebuilds the input exactly, so leading, trailing, repeated and non-ASCII whitespace all split as `\s+` does |
| Spacing.SplitJoin | frontend/src/theme/utils.ts:494-507 | splitting undoes a single-space join of non-empty, whitespace-free pieces |
| Spacing.SpacingStyleEntries | frontend/src/theme/utils.ts:488-508 | the contract of `computeSpacingStyle` (`ComputeSpacingStyle`): "" maps to ""; otherwise one entry per token, joined by single spaces: "0" and unknown tokens give spacing.none, known keys give their value |
| Spacing.SpacingStyleTokenwise | frontend/src/theme/utils.ts:493-507 | of `ComputeSpacingStyle`: with single-length table values, splitting the result gives back exactly one translated entry per input token, in order |
| ThemeCache.ActiveTheme | frontend/src/theme/utils.ts:451-452 | a theme is read from the store exactly when one is stored under the cache key |
| ThemeCache.AfterProbe | frontend/src/theme/utils.ts:432-444 | a successful probe deletes the probe key (including any earlier value under it) and nothing else |
| ThemeCache.AfterSet | frontend/src/theme/utils.ts:455-464 | after a set, the cache key holds the theme; keys other than the probe and cache keys are untouched |
| ThemeCache.AfterRemove | frontend/src/theme/utils.ts:466-472 | after a remove, no theme is cached; keys other than the probe and cache keys are untouched |
| ThemeCache.PreferCached | frontend/src/theme/utils.ts:474-485 | the cached theme is used when present and not named automatic; otherwise the auto theme is; an automatic-named result is always the freshly built one |
| ThemeCache.LocalStorage.LocalStorageAvailable | frontend/src/theme/utils.ts:432-444 | reports availability; when unavailable, the store is unchanged |
| ThemeCache.LocalStorage.GetCachedTheme | frontend/src/theme/utils.ts:446-453 | null when unavailable, else the stored theme or null |
| ThemeCache.LocalStorage.SetCachedTheme | frontend/src/theme/utils.ts:455-464 | stores the theme under the cache key, replacing any earlier one; a no-op when unavailable |
| ThemeCache.LocalStorage.RemoveCachedTheme | frontend/src/theme/utils.ts:466-472 | deletes the cache key; a no-op when unavailable |
| ThemeCache.LocalStorage.GetDefaultTheme | frontend/src/theme/utils.ts:474-485 | the cached theme unless there is none or it is the automatic one, in which case it is the auto theme |
| ThemeCache.SaveThenLoad | frontend/src/theme/utils.ts:446-464 | set followed by get returns the saved theme when the store is available, and null when it is not |
| ThemeCache.RemoveThenLoad | frontend/src/theme/utils.ts:446-472 | remove followed by get returns null |

## Left out

- `createBaseThemePrimitives`, `createThemeOverrides` and `createBaseUiTheme` (utils.ts:78-254) are not modelled. They are fixed tables that map the palette into a third-party library's theme shape. `createBaseUiTheme` is a parameter of `Builtins`, and so the `inSidebar` choice between secondaryBg and bgColor (utils.ts:186-195, 220) is not modelled either.
- `isColor` (utils.ts:332-336) uses the browser's CSS parser. It is the uninterpreted `ColorLib.isColor`.
- getLuminance, lighten, darken, mix and transparentize are color2k floating-point colour maths. They are uninterpreted fields of `ColorLib`.
- ThemeColors.ComputeDerivedColors / ThemeCreate.CreateEmotionTheme: a colour that `isColor` accepts but color2k cannot parse (a CSS-wide keyword such as `inherit` or `currentcolor`, say) passes validation and then reaches `getLuminance`, `mix`, `lighten` or `transparentize` (utils.ts:261-279, 323). There `createEmotionTheme` throws. The model does not capture this, because the colour operations are total there.
- ThemeCreate.StartingThemeChoice: the lightness test is total in the model. color2k's `getLuminance` throws on a string it cannot parse, such as a bare hex background given to `createTheme` without a base theme. That failure is not modelled.
- `getSystemTheme` and `createAutoTheme` (utils.ts:423-428) read `window.matchMedia`. The automatic theme they build is the `autoTheme` parameter of `GetDefaultTheme`.
- `logError` in `computeSpacingStyle` is a logging side channel and is dropped.
- `JSON.stringify` and `JSON.parse` are the identity: a stored theme is an `Entry.Serialized` value. What `JSON.parse` makes of foreign text under the cache key is not modelled. `LocalStorage.Valid` states that only `setCachedTheme` writes that key.
- ThemeCache.LocalStorage.SetCachedTheme: the write at utils.ts:460-463 is outside the probe's `try`/`catch`. On a store that accepts the small probe value but has no room for the serialised theme (a full store), the source throws `QuotaExceededError` and the earlier theme stays cached. The model does not capture this, because availability is one flag for every access. So `ThemeCache.SaveThenLoad` assumes the write succeeds on an available store.
- ThemeCache.LocalStorage.LocalStorageAvailable: availability is fixed for each store object, so a store that becomes unavailable between two calls is not modelled. The probe's `try`/`catch` becomes a test of that flag.
- The literal value of `LocalStore.ACTIVE_THEME` comes from src/lib/storageUtils, which is not part of this model. The model needs only that it differs from the probe key.
- The `fonts` table (src/theme/primitives/typography), `lightTheme`, `darkTheme` and `baseTheme` (src/theme) are not part of this model. The first three are parameters. `createEmotionTheme`'s default base `baseTheme` is not modelled: callers always pass the base.
- The camelcase/decamelize conversion is the explicit three-entry table `FontFamily.Key` / `FromKey`. A `fonts` key outside that table resolves to no enum member.
- Palettes are assumed to have the generic colour names their TypeScript type promises (`PaletteComplete`). The source never handles a palette without them.
- `frontend/src/lib/FileUploadClient.ts` (HTTP upload plumbing) and `lib/tests/streamlit/server_test.py` (tests of a server whose source is not shown) are outside this model.
- Spacing.ComputeSpacingStyle requires the table to have a `none` entry. The `ThemeSpacing` type of the source guarantees it.
- Spacing.SpacingStyleEntries: a token is known when it is a key of the spacing table. JavaScript's `in` also accepts names inherited from `Object.prototype`, such as `toString`. Those inherited names are not modelled.
