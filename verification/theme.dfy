/**
 * The colour theme: resolved once from the stored preference and the
 * system setting, flipped or set by the user, and applied by an effect that
 * sets the document root's class and brand colours and stores the choice.
 * Local storage, the root's class list and its style properties are fields.
 */
module Theme {
  import opened Wrappers

  datatype ThemeName = Light | Dark

  function NameOf(t: ThemeName): string {
    match t
    case Light => "light"
    case Dark => "dark"
  }

  const StorageKey := "pacon-theme"

  /** The initial theme: a stored `light` or `dark` wins, then the system's dark preference, then light. */
  function InitialTheme(stored: Option<string>, prefersDark: bool): (t: ThemeName)
    ensures stored == Some("light") ==> t == Light
    ensures stored == Some("dark") ==> t == Dark
    ensures stored !in {Some("light"), Some("dark")} ==> t == (if prefersDark then Dark else Light)
  {
    if stored == Some("light") then Light
    else if stored == Some("dark") then Dark
    else if prefersDark then Dark
    else Light
  }

  /** `toggleTheme`'s updater. */
  function Toggled(t: ThemeName): (r: ThemeName)
    ensures r != t
  {
    if t == Light then Dark else Light
  }

  /** Toggling twice gives the theme back. */
  lemma ToggleTwice(t: ThemeName)
    ensures Toggled(Toggled(t)) == t
  {
  }

  /** What the effect stores is read back as the same theme, whatever the system prefers. */
  lemma StoredThemeRestored(t: ThemeName, prefersDark: bool)
    ensures InitialTheme(Some(NameOf(t)), prefersDark) == t
  {
  }

  /** The brand colours of a theme. */
  datatype Palette = Palette(background: string, primary: string)

  function PaletteOf(t: ThemeName): Palette {
    if t == Dark then Palette("#2a2a29", "#b13d38") else Palette("#faf8f5", "#a63631")
  }

  class ThemeState {
    var theme: ThemeName
    var storage: map<string, string>
    var rootClasses: set<string>
    var styles: map<string, string>

    /** The lazy initial state reads storage and the media query and nothing else. */
    constructor (storage: map<string, string>, rootClasses: set<string>, styles: map<string, string>, prefersDark: bool)
      ensures theme == InitialTheme(if StorageKey in storage then Some(storage[StorageKey]) else None, prefersDark)
      ensures this.storage == storage && this.rootClasses == rootClasses && this.styles == styles
    {
      var stored := if StorageKey in storage then Some(storage[StorageKey]) else None;
      theme := InitialTheme(stored, prefersDark);
      this.storage := storage;
      this.rootClasses := rootClasses;
      this.styles := styles;
    }

    method ToggleTheme()
      modifies this
      ensures theme == Toggled(old(theme))
      ensures storage == old(storage) && rootClasses == old(rootClasses) && styles == old(styles)
    {
      theme := if theme == Light then Dark else Light;
    }

    method SetThemeMode(newTheme: ThemeName)
      modifies this
      ensures theme == newTheme
      ensures storage == old(storage) && rootClasses == old(rootClasses) && styles == old(styles)
    {
      theme := newTheme;
    }

    /** The root carries exactly one theme class, the theme's, and storage and colours follow the theme. */
    ghost predicate Applied()
      reads this
    {
      NameOf(theme) in rootClasses && (NameOf(Toggled(theme)) !in rootClasses)
      && StorageKey in storage && storage[StorageKey] == NameOf(theme)
      && "--background" in styles && styles["--background"] == PaletteOf(theme).background
      && "--primary" in styles && styles["--primary"] == PaletteOf(theme).primary
    }

    /** The effect that runs after every change of theme. */
    method ApplyTheme()
      modifies this
      ensures Applied()
      ensures theme == old(theme)
      ensures rootClasses == old(rootClasses) - {"light", "dark"} + {NameOf(theme)}
      ensures storage == old(storage)[StorageKey := NameOf(theme)]
      ensures styles == old(styles)["--background" := PaletteOf(theme).background]["--primary" := PaletteOf(theme).primary]
    {
      rootClasses := rootClasses - {"light", "dark"};
      rootClasses := rootClasses + {NameOf(theme)};
      storage := storage[StorageKey := NameOf(theme)];
      if theme == Dark {
        styles := styles["--background" := "#2a2a29"];
        styles := styles["--primary" := "#b13d38"];
      } else {
        styles := styles["--background" := "#faf8f5"];
        styles := styles["--primary" := "#a63631"];
      }
    }
  }
}
