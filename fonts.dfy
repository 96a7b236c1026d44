/** The two directions between the `CustomThemeConfig.FontFamily` enum and the
    `fonts` table of font-family strings (frontend/src/theme/utils.ts:43-69).
    The source goes through camelcase/decamelize of the enum's member names;
    here that is the explicit three-entry table `FontFamily.Key`. */
module ThemeFonts {
  import opened Wrappers

  /** `CustomThemeConfig.FontFamily`, with ordinals SANS_SERIF = 0, SERIF = 1,
      MONOSPACE = 2. */
  datatype FontFamily = SansSerif | Serif | Monospace
  {
    function Ordinal(): int
    {
      match this
      case SansSerif => 0
      case Serif => 1
      case Monospace => 2
    }

    /** The key of the `fonts` table that belongs to this member: the camel-case
        form of its enum name (SANS_SERIF -> sansSerif). */
    function Key(): string
    {
      match this
      case SansSerif => "sansSerif"
      case Serif => "serif"
      case Monospace => "monospace"
    }
  }

  /** The font every unresolvable font falls back to. */
  const DEFAULT_FONT: FontFamily := SansSerif

  /** `font in CustomThemeConfig.FontFamily` for a number, and the member it names. */
  function FromOrdinal(n: int): (r: Option<FontFamily>)
    ensures r.Some? <==> 0 <= n <= 2
    ensures r.Some? ==> r.value.Ordinal() == n
  {
    if n == 0 then Some(SansSerif)
    else if n == 1 then Some(Serif)
    else if n == 2 then Some(Monospace)
    else None
  }

  /** `decamelize(key).toUpperCase()` looked up in the enum: the inverse of `Key`. */
  function FromKey(key: string): (r: Option<FontFamily>)
    ensures r.Some? ==> r.value.Key() == key
    ensures r.None? ==> key != SansSerif.Key() && key != Serif.Key() && key != Monospace.Key()
  {
    if key == "sansSerif" then Some(SansSerif)
    else if key == "serif" then Some(Serif)
    else if key == "monospace" then Some(Monospace)
    else None
  }

  /** The `fonts` table, as its entries in `Object.keys` order. */
  type FontTable = seq<(string, string)>

  /** A table as the source relies on it: an object (distinct keys), the three
      enum keys present, and no font-family string listed under two keys. */
  ghost predicate WellFormed(fonts: FontTable)
  {
    && DistinctKeys(fonts)
    && DistinctValues(fonts)
    && HasKey(fonts, SansSerif.Key())
    && HasKey(fonts, Serif.Key())
    && HasKey(fonts, Monospace.Key())
  }

  ghost predicate DistinctKeys(fonts: FontTable)
  {
    forall i, j | 0 <= i < j < |fonts| :: fonts[i].0 != fonts[j].0
  }

  ghost predicate DistinctValues(fonts: FontTable)
  {
    forall i, j | 0 <= i < j < |fonts| :: fonts[i].1 != fonts[j].1
  }

  ghost predicate HasKey(fonts: FontTable, key: string)
  {
    exists i | 0 <= i < |fonts| :: fonts[i].0 == key
  }

  /** `fonts[key]`: the value of the first entry under `key`, or `undefined`. */
  function LookupFont(fonts: FontTable, key: string): (r: Option<string>)
    ensures r.Some? ==> exists i | 0 <= i < |fonts| :: fonts[i] == (key, r.value)
    ensures r.None? ==> forall i | 0 <= i < |fonts| :: fonts[i].0 != key
  {
    if fonts == [] then None
    else if fonts[0].0 == key then Some(fonts[0].1)
    else LookupFont(fonts[1..], key)
  }

  /** `Object.keys(fonts).find(k => fonts[k] === font)`: the first key whose
      value is `font`. */
  function FindKey(fonts: FontTable, font: string): (r: Option<string>)
    ensures r.Some? ==> exists i | 0 <= i < |fonts| ::
      fonts[i] == (r.value, font) && forall j | 0 <= j < i :: fonts[j].1 != font
    ensures r.None? ==> forall i | 0 <= i < |fonts| :: fonts[i].1 != font
  {
    if fonts == [] then None
    else if fonts[0].1 == font then Some(fonts[0].0)
    else
      var r := FindKey(fonts[1..], font);
      assert r.Some? ==> exists i | 0 <= i < |fonts[1..]| ::
        (fonts[1..][i] == (r.value, font) && forall j | 0 <= j < i :: fonts[1..][j].1 != font);
      r
  }

  /** `fontToEnum`: the enum member whose table entry holds `font`; the default
      (sans serif) when no entry does or its key names no member. */
  function FontToEnum(fonts: FontTable, font: string): (r: FontFamily)
    ensures (forall i | 0 <= i < |fonts| :: fonts[i].1 != font) ==> r == DEFAULT_FONT
    ensures forall i | 0 <= i < |fonts| && fonts[i].1 == font && (forall j | 0 <= j < i :: fonts[j].1 != font) ::
      r == (match FromKey(fonts[i].0) case Some(f) => f case None => DEFAULT_FONT)
  {
    match FindKey(fonts, font)
    case None => DEFAULT_FONT
    case Some(key) =>
      match FromKey(key)
      case Some(f) => f
      case None => DEFAULT_FONT
  }

  /** `fontEnumToString`: the table's string for an ordinal that names an enum
      member; `undefined` for a missing or out-of-range ordinal. */
  function FontEnumToString(fonts: FontTable, font: Option<int>): (r: Option<string>)
    ensures font.None? ==> r.None?
    ensures font.Some? && !(0 <= font.value <= 2) ==> r.None?
    ensures font == Some(0) ==> r == LookupFont(fonts, "sansSerif")
    ensures font == Some(1) ==> r == LookupFont(fonts, "serif")
    ensures font == Some(2) ==> r == LookupFont(fonts, "monospace")
  {
    if font.None? then None
    else
      match FromOrdinal(font.value)
      case None => None
      case Some(f) => LookupFont(fonts, f.Key())
  }

  /** With distinct keys, looking up an entry's key gives that entry's value. */
  lemma {:induction false} LookupFontAt(fonts: FontTable, i: int)
    requires DistinctKeys(fonts)
    requires 0 <= i < |fonts|
    ensures LookupFont(fonts, fonts[i].0) == Some(fonts[i].1)
  {
    if i > 0 {
      assert fonts[0].0 != fonts[i].0;
      assert fonts[1..][i - 1] == fonts[i];
      LookupFontAt(fonts[1..], i - 1);
    }
  }

  /** With distinct values, searching for an entry's value finds that entry's key. */
  lemma {:induction false} FindKeyAt(fonts: FontTable, i: int)
    requires DistinctValues(fonts)
    requires 0 <= i < |fonts|
    ensures FindKey(fonts, fonts[i].1) == Some(fonts[i].0)
  {
    if i > 0 {
      assert fonts[0].1 != fonts[i].1;
      assert fonts[1..][i - 1] == fonts[i];
      FindKeyAt(fonts[1..], i - 1);
    }
  }

  /** In a well-formed table every member has a string, and reading that string
      back gives the member: `fontToEnum(fontEnumToString(e)) = e`. */
  lemma {:induction false} FontRoundTrip(fonts: FontTable, f: FontFamily)
    requires WellFormed(fonts)
    ensures FontEnumToString(fonts, Some(f.Ordinal())).Some?
    ensures FontToEnum(fonts, FontEnumToString(fonts, Some(f.Ordinal())).value) == f
  {
    assert FromOrdinal(f.Ordinal()) == Some(f);
    assert HasKey(fonts, f.Key());
    var i :| 0 <= i < |fonts| && fonts[i].0 == f.Key();
    LookupFontAt(fonts, i);
    FindKeyAt(fonts, i);
    assert FromKey(f.Key()) == Some(f);
  }
}
