/** The persisted colour theme: read once from local storage, written back
    together with the document's `data-theme` attribute after every change,
    and chosen from a three-entry menu. The stored value is taken as it is,
    never checked against the menu. */
module Theme {
  import opened Wrappers

  const StorageKey := "investdash-theme"
  const DefaultTheme := "fidelity-green"

  datatype ThemeOption = ThemeOption(value: string, caption: string)

  const Themes: seq<ThemeOption> := [
    ThemeOption("fidelity-green", "Fidelity Green"),
    ThemeOption("institutional-blue", "Institutional Blue"),
    ThemeOption("modern-light", "Modern Light")
  ]

  /** The menu has three entries with distinct values, the default first. */
  lemma ThemesDistinct()
    ensures |Themes| == 3 && Themes[0].value == DefaultTheme
    ensures forall i, j :: 0 <= i < j < |Themes| ==> Themes[i].value != Themes[j].value
  {
  }

  /** The stored value if it is non-empty, else the default. */
  function InitialTheme(storage: map<string, string>): (t: string)
    ensures StorageKey in storage && storage[StorageKey] != "" ==> t == storage[StorageKey]
    ensures StorageKey !in storage || storage[StorageKey] == "" ==> t == DefaultTheme
  {
    if StorageKey in storage && storage[StorageKey] != "" then storage[StorageKey] else DefaultTheme
  }

  /** The switcher's label: `themes.find(...)?.label`. */
  function CurrentLabel(theme: string): (r: Option<string>)
    ensures r.Some? <==> exists i :: 0 <= i < |Themes| && Themes[i].value == theme
    ensures r.Some? ==> exists i :: 0 <= i < |Themes| && Themes[i].value == theme && Themes[i].caption == r.value
  {
    if theme == Themes[0].value then Some(Themes[0].caption)
    else if theme == Themes[1].value then Some(Themes[1].caption)
    else if theme == Themes[2].value then Some(Themes[2].caption)
    else None
  }

  /** A stored value outside the menu becomes the theme all the same, and
      the switcher then has no label to show. */
  lemma UncheckedStoredTheme(storage: map<string, string>)
    requires StorageKey in storage && storage[StorageKey] != ""
    requires forall i :: 0 <= i < |Themes| ==> Themes[i].value != storage[StorageKey]
    ensures InitialTheme(storage) == storage[StorageKey]
    ensures CurrentLabel(InitialTheme(storage)).None?
  {
  }

  const OutsideProvider := "useTheme must be used within ThemeProvider"

  /** The context hook: the theme inside the provider, an error outside.
      It has the shape of `Auth.UseAuth` because the source writes the two
      hooks separately, each with its own context and message. */
  function UseTheme(context: Option<string>): (r: Result<string, string>)
    ensures r.Err? <==> context.None?
    ensures r.Err? ==> r.error == OutsideProvider
    ensures r.Ok? ==> r.value == context.value
  {
    if context.Some? then Ok(context.value) else Err(OutsideProvider)
  }

  /** The provider's state: the theme, local storage and the attribute on
      the document root. */
  class ThemeStore {
    var theme: string
    var storage: map<string, string>
    var dataTheme: Option<string>

    /** Storage and the attribute both hold the current theme. */
    predicate Synced()
      reads this
    {
      StorageKey in storage && storage[StorageKey] == theme && dataTheme == Some(theme)
    }

    /** Start from what storage holds, then run the effect once. */
    constructor(stored: map<string, string>)
      ensures theme == InitialTheme(stored)
      ensures storage == stored[StorageKey := theme] && Synced()
    {
      theme := InitialTheme(stored);
      storage := stored;
      dataTheme := None;
      new;
      ApplyTheme();
    }

    /** The effect: set the attribute, then persist. */
    method ApplyTheme()
      modifies this
      ensures theme == old(theme) && dataTheme == Some(theme)
      ensures storage == old(storage)[StorageKey := theme] && Synced()
    {
      dataTheme := Some(theme);
      storage := storage[StorageKey := theme];
    }

    /** Choose a theme; the effect follows the change. Other storage keys
        are untouched. */
    method SetTheme(t: string)
      modifies this
      ensures theme == t && Synced()
      ensures storage == old(storage)[StorageKey := t]
      ensures forall k :: k in old(storage) && k != StorageKey ==> k in storage && storage[k] == old(storage)[k]
    {
      theme := t;
      ApplyTheme();
    }
  }

  /** The switcher's menu. */
  class ThemeSwitcher {
    var isOpen: bool

    constructor()
      ensures !isOpen
    {
      isOpen := false;
    }

    method Toggle()
      modifies this
      ensures isOpen == !old(isOpen)
    {
      isOpen := !isOpen;
    }

    /** A click on the backdrop closes the menu. */
    method Dismiss()
      modifies this
      ensures !isOpen
    {
      isOpen := false;
    }

    /** Choosing the i-th entry sets its theme, which the switcher then
        labels, and closes the menu. */
    method Choose(store: ThemeStore, i: nat)
      requires i < |Themes|
      modifies this, store
      ensures store.theme == Themes[i].value && store.Synced() && !isOpen
      ensures store.storage == old(store.storage)[StorageKey := Themes[i].value]
      ensures CurrentLabel(store.theme) == Some(Themes[i].caption)
    {
      store.SetTheme(Themes[i].value);
      isOpen := false;
    }
  }
}
