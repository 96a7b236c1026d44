/** The theme cache of frontend/src/theme/utils.ts (lines 432-485): one entry
    of the browser's key-value store, guarded by an availability probe. The
    store is modelled as a map from keys to entries and a flag that says
    whether accessing it throws (private browsing, blocked storage). JSON
    serialisation is the identity: a stored theme is kept as a value. */
module ThemeCache {
  import opened Wrappers
  import opened ThemeTypes

  /** The name of the theme that follows the operating system's setting. */
  const AUTO_THEME_NAME: string := "Use system setting"

  /** The throwaway key of the availability probe. */
  const TEST_KEY: string := "testData"

  /** The key of the cached theme (`LocalStore.ACTIVE_THEME`, defined in
      src/lib/storageUtils, which is not part of this model): all that matters
      here is that it differs from the probe key. */
  const ACTIVE_THEME: string := "stActiveTheme"

  /** A stored value: text, or a serialised theme config. */
  datatype Entry = Text(text: string) | Serialized(config: ThemeConfig)

  type Items = map<string, Entry>

  /** The theme stored under the cache key, if any. */
  function ActiveTheme(items: Items): (cached: Option<ThemeConfig>)
    ensures cached.Some? <==> ACTIVE_THEME in items && items[ACTIVE_THEME].Serialized?
    ensures cached.Some? ==> items[ACTIVE_THEME] == Serialized(cached.value)
  {
    if ACTIVE_THEME in items && items[ACTIVE_THEME].Serialized? then Some(items[ACTIVE_THEME].config)
    else None
  }

  /** What a successful probe leaves behind: the probe key is gone, whatever
      was stored under it before. */
  function AfterProbe(items: Items): (after: Items)
    ensures TEST_KEY !in after
    ensures forall k | k != TEST_KEY :: (k in after <==> k in items) && (k in items ==> after[k] == items[k])
  {
    items - {TEST_KEY}
  }

  /** The store after `setCachedTheme` on an available store. */
  function AfterSet(items: Items, config: ThemeConfig): (after: Items)
    ensures ActiveTheme(after) == Some(config)
    ensures forall k | k != TEST_KEY && k != ACTIVE_THEME :: (k in after <==> k in items) && (k in items ==> after[k] == items[k])
  {
    AfterProbe(items)[ACTIVE_THEME := Serialized(config)]
  }

  /** The store after `removeCachedTheme` on an available store. */
  function AfterRemove(items: Items): (after: Items)
    ensures ActiveTheme(after) == None
    ensures forall k | k != TEST_KEY && k != ACTIVE_THEME :: (k in after <==> k in items) && (k in items ==> after[k] == items[k])
  {
    AfterProbe(items) - {ACTIVE_THEME}
  }

  /** The choice of `getDefaultTheme`: the cached theme unless there is none or
      it is the automatic theme, which is recomputed instead. A theme named
      automatic is therefore never taken from the cache. */
  function PreferCached(cached: Option<ThemeConfig>, autoTheme: ThemeConfig): (theme: ThemeConfig)
    ensures cached.Some? && cached.value.name != AUTO_THEME_NAME ==> theme == cached.value
    ensures cached.None? || cached.value.name == AUTO_THEME_NAME ==> theme == autoTheme
    ensures theme.name == AUTO_THEME_NAME ==> theme == autoTheme
  {
    if cached.Some? && cached.value.name != AUTO_THEME_NAME then cached.value else autoTheme
  }

  /** `window.localStorage` as the cache functions see it. */
  class LocalStorage {
    /** Whether the store can be used; when it cannot, every access throws. */
    const available: bool
    var items: Items

    /** The cache key holds only what `setCachedTheme` writes there. */
    ghost predicate Valid()
      reads this
    {
      ACTIVE_THEME in items ==> items[ACTIVE_THEME].Serialized?
    }

    constructor (available: bool, items: Items)
      requires ACTIVE_THEME in items ==> items[ACTIVE_THEME].Serialized?
      ensures Valid()
      ensures this.available == available && this.items == items
    {
      this.available := available;
      this.items := items;
    }

    /** `localStorageAvailable`: write, read and delete the probe key; report
        whether that worked. */
    method LocalStorageAvailable() returns (ok: bool)
      requires Valid()
      modifies this
      ensures Valid()
      ensures ok == available
      ensures items == if available then AfterProbe(old(items)) else old(items)
    {
      if !available {
        return false;
      }
      items := items[TEST_KEY := Text(TEST_KEY)];
      var readBack := items[TEST_KEY];
      items := items - {TEST_KEY};
      return true;
    }

    /** `getCachedTheme`: nothing when the store is unavailable, else the
        stored theme or nothing. */
    method GetCachedTheme() returns (cached: Option<ThemeConfig>)
      requires Valid()
      modifies this
      ensures Valid()
      ensures items == if available then AfterProbe(old(items)) else old(items)
      ensures cached == if available then ActiveTheme(old(items)) else None
    {
      var ok := LocalStorageAvailable();
      if !ok {
        return None;
      }
      if ACTIVE_THEME in items {
        var stored := items[ACTIVE_THEME];
        cached := Some(stored.config);
      } else {
        cached := None;
      }
    }

    /** `setCachedTheme`: store the theme under the cache key, replacing any
        earlier one; nothing when the store is unavailable. */
    method SetCachedTheme(config: ThemeConfig)
      requires Valid()
      modifies this
      ensures Valid()
      ensures items == if available then AfterSet(old(items), config) else old(items)
    {
      var ok := LocalStorageAvailable();
      if !ok {
        return;
      }
      items := items[ACTIVE_THEME := Serialized(config)];
    }

    /** `removeCachedTheme`: delete the cache key; nothing when the store is
        unavailable. */
    method RemoveCachedTheme()
      requires Valid()
      modifies this
      ensures Valid()
      ensures items == if available then AfterRemove(old(items)) else old(items)
    {
      var ok := LocalStorageAvailable();
      if !ok {
        return;
      }
      items := items - {ACTIVE_THEME};
    }

    /** `getDefaultTheme`. `autoTheme` is what `createAutoTheme` builds from the
        operating system's light or dark preference at the time of the call. */
    method GetDefaultTheme(autoTheme: ThemeConfig) returns (theme: ThemeConfig)
      requires Valid()
      modifies this
      ensures Valid()
      ensures items == if available then AfterProbe(old(items)) else old(items)
      ensures theme == PreferCached(if available then ActiveTheme(old(items)) else None, autoTheme)
    {
      var cached := GetCachedTheme();
      theme := PreferCached(cached, autoTheme);
    }
  }

  /** Saving then loading gives back the saved theme on an available store,
      and nothing on an unavailable one, whatever was saved. */
  method SaveThenLoad(store: LocalStorage, config: ThemeConfig) returns (loaded: Option<ThemeConfig>)
    requires store.Valid()
    modifies store
    ensures store.Valid()
    ensures loaded == if store.available then Some(config) else None
  {
    store.SetCachedTheme(config);
    loaded := store.GetCachedTheme();
  }

  /** Loading after a removal gives nothing. */
  method RemoveThenLoad(store: LocalStorage) returns (loaded: Option<ThemeConfig>)
    requires store.Valid()
    modifies store
    ensures store.Valid()
    ensures loaded == None
  {
    store.RemoveCachedTheme();
    loaded := store.GetCachedTheme();
  }
}
