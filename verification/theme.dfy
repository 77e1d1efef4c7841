/**
 * The `useDarkMode` hook: a dark/light flag initialised from the persisted
 * choice or the operating system's colour-scheme preference, and an effect
 * that keeps the persisted key and the root element's `dark` class in step
 * with the flag.
 *
 * The browser's local storage is a field `storage` (key to value) and the
 * root element's class list a field `rootClasses`; the colour-scheme media
 * query and the presence of a window are parameters.
 */
module Theme {
  import opened Wrappers

  const ThemeKey := "theme"
  const DarkValue := "dark"
  const LightValue := "light"
  const DarkClass := "dark"

  /** `localStorage.getItem("theme")`, with absence as `None`. */
  function StoredTheme(storage: map<string, string>): (r: Option<string>)
    ensures r.Some? <==> ThemeKey in storage
    ensures r.Some? ==> r.value == storage[ThemeKey]
  {
    if ThemeKey in storage then Some(storage[ThemeKey]) else None
  }

  /** The value the effect persists for a flag. */
  function PersistedValue(enabled: bool): (v: string)
    ensures v == DarkValue <==> enabled
    ensures v == LightValue <==> !enabled
  {
    if enabled then DarkValue else LightValue
  }

  /**
   * The initial flag: dark without a window; otherwise dark when the stored
   * theme is "dark", or when no theme is stored and the system prefers dark.
   */
  function InitialEnabled(hasWindow: bool, storage: map<string, string>, prefersDark: bool): (r: bool)
    ensures !hasWindow ==> r
    ensures hasWindow && StoredTheme(storage) == Some(DarkValue) ==> r
    ensures hasWindow && StoredTheme(storage) == None ==> r == prefersDark
    ensures hasWindow && StoredTheme(storage).Some? && StoredTheme(storage).value != DarkValue ==> !r
  {
    !hasWindow
    || (ThemeKey in storage && storage[ThemeKey] == DarkValue)
    || (ThemeKey !in storage && prefersDark)
  }

  /** The class list after `classList.add("dark")` or `classList.remove("dark")`. */
  function ClassesFor(enabled: bool, classes: set<string>): (r: set<string>)
    ensures DarkClass in r <==> enabled
    ensures r - {DarkClass} == classes - {DarkClass}
  {
    if enabled then classes + {DarkClass} else classes - {DarkClass}
  }

  /**
   * Persistence round trip: whatever the system preference, a fresh start
   * with a window reads back the flag the effect persisted.
   */
  lemma PersistRoundTrip(enabled: bool, storage: map<string, string>, prefersDark: bool)
    ensures InitialEnabled(true, storage[ThemeKey := PersistedValue(enabled)], prefersDark) == enabled
  {
    assert StoredTheme(storage[ThemeKey := PersistedValue(enabled)]) == Some(PersistedValue(enabled));
  }

  /** One mounted instance of the hook in a browser window. */
  class ThemePreference {
    var enabled: bool
    var storage: map<string, string>
    var rootClasses: set<string>

    /** The flag, the persisted key and the root class agree. */
    ghost predicate InSync(): (r: bool)
      reads this
      ensures r ==> forall prefersDark :: InitialEnabled(true, storage, prefersDark) == enabled
    {
      StoredTheme(storage) == Some(PersistedValue(enabled)) && (DarkClass in rootClasses <==> enabled)
    }

    /** Mounting: the state initialiser, then the effect's first run. */
    constructor Mount(storage0: map<string, string>, prefersDark: bool, rootClasses0: set<string>)
      ensures enabled == InitialEnabled(true, storage0, prefersDark)
      ensures storage == storage0[ThemeKey := PersistedValue(enabled)]
      ensures rootClasses == ClassesFor(enabled, rootClasses0)
      ensures InSync()
    {
      enabled := InitialEnabled(true, storage0, prefersDark);
      storage := storage0;
      rootClasses := rootClasses0;
      new;
      ApplyEffect();
    }

    /** The effect: mark the root and persist the flag; other keys and classes are untouched. */
    method ApplyEffect()
      modifies this
      ensures enabled == old(enabled)
      ensures storage == old(storage)[ThemeKey := PersistedValue(enabled)]
      ensures rootClasses == ClassesFor(enabled, old(rootClasses))
      ensures InSync()
    {
      if enabled {
        rootClasses := rootClasses + {DarkClass};
        storage := storage[ThemeKey := DarkValue];
      } else {
        rootClasses := rootClasses - {DarkClass};
        storage := storage[ThemeKey := LightValue];
      }
    }

    /**
     * `setEnabled(e)`: the effect runs again only when the flag changes;
     * setting the current value leaves everything as it was.
     */
    method SetEnabled(e: bool)
      modifies this
      ensures enabled == e
      ensures e == old(enabled) ==> storage == old(storage) && rootClasses == old(rootClasses)
      ensures e != old(enabled) ==> storage == old(storage)[ThemeKey := PersistedValue(e)]
      ensures e != old(enabled) ==> rootClasses == ClassesFor(e, old(rootClasses))
      ensures old(InSync()) || e != old(enabled) ==> InSync()
    {
      if e != enabled {
        enabled := e;
        ApplyEffect();
      }
    }
  }

  /**
   * Toggling and then reloading: a page mounted afresh from the storage left
   * behind by `SetEnabled(e)` starts with `e`, whatever the system prefers.
   */
  method ToggleThenReload(t: ThemePreference, e: bool, prefersDark: bool) returns (reloaded: ThemePreference)
    requires t.InSync()
    modifies t
    ensures t.enabled == e && t.InSync()
    ensures reloaded.enabled == e && reloaded.InSync()
  {
    t.SetEnabled(e);
    PersistRoundTrip(e, t.storage, prefersDark);
    reloaded := new ThemePreference.Mount(t.storage, prefersDark, t.rootClasses);
  }
}
