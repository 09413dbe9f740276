/**
 * The light/dark theme toggle: the theme chosen when the button mounts
 * (saved choice, else the operating system's preference), the toggle,
 * the "dark" class on the document root and the saved choice in local
 * storage.
 */
module Theme {
  import opened Wrappers

  datatype Theme = Light | Dark

  datatype Icon = Sun | Moon

  /** The local storage key holding the saved theme. */
  const StorageKey := "local-game-theme"

  /** The document root class that switches the dark palette on. */
  const DarkClass := "dark"

  /** The string saved for a theme. */
  function ThemeName(t: Theme): string {
    if t == Dark then "dark" else "light"
  }

  /**
   * How a saved string acts. The saved value is used without validation;
   * anything other than "dark" is treated by every later step exactly as
   * "light" is (the class is removed, the icon is the moon, the next theme
   * is dark), so it reads as `Light`.
   */
  function ParseStored(s: string): (t: Theme)
    ensures t == Dark <==> s == "dark"
  {
    if s == "dark" then Dark else Light
  }

  /** Reading back what was saved gives the theme that was saved. */
  lemma ParseThemeName(t: Theme)
    ensures ParseStored(ThemeName(t)) == t
  {
  }

  /** The saved theme, if one is stored. */
  function StoredTheme(storage: map<string, string>): (r: Option<Theme>)
    ensures r.Some? <==> StorageKey in storage
    ensures r.Some? ==> r.value == ParseStored(storage[StorageKey])
  {
    if StorageKey in storage then Some(ParseStored(storage[StorageKey])) else None
  }

  /** The theme on mount: the saved one if any, else dark exactly when the system prefers dark. */
  function InitialTheme(stored: Option<Theme>, prefersDark: bool): (t: Theme)
    ensures stored.Some? ==> t == stored.value
    ensures stored.None? ==> (t == Dark <==> prefersDark)
  {
    stored.GetOr(if prefersDark then Dark else Light)
  }

  /** The theme a click switches to. */
  function NextTheme(t: Theme): (r: Theme)
    ensures r != t
  {
    if t == Dark then Light else Dark
  }

  /** Toggling twice returns to the original theme. */
  lemma NextThemeInvolution(t: Theme)
    ensures NextTheme(NextTheme(t)) == t
  {
  }

  /** The button's icon: the sun before mounting; afterwards the sun on dark and the moon on light. */
  function IconFor(mounted: bool, t: Theme): (i: Icon)
    ensures mounted ==> (i == Sun <==> t == Dark)
    ensures !mounted ==> i == Sun
  {
    if !mounted then Sun else if t == Dark then Sun else Moon
  }

  /** The root's classes once theme `t` is applied. */
  function WithTheme(classes: set<string>, t: Theme): (r: set<string>)
    ensures DarkClass in r <==> t == Dark
    ensures r - {DarkClass} == classes - {DarkClass}
  {
    if t == Dark then classes + {DarkClass} else classes - {DarkClass}
  }

  /** Applying a theme twice is applying it once. */
  lemma WithThemeIdempotent(classes: set<string>, t: Theme)
    ensures WithTheme(WithTheme(classes, t), t) == WithTheme(classes, t)
  {
  }

  /**
   * The toggle button together with the browser state it touches: its own
   * `theme` and `mounted` state, the root's class list and local storage.
   */
  class ThemeToggle {
    var theme: Theme
    var mounted: bool
    var classes: set<string>
    var storage: map<string, string>

    /**
     * Once mounted, the component's theme, the root's "dark" class and the
     * saved choice (when there is one) all agree.
     */
    ghost predicate Synced()
      reads this
    {
      mounted ==>
        (DarkClass in classes <==> theme == Dark) &&
        (StorageKey in storage ==> ParseStored(storage[StorageKey]) == theme)
    }

    /** First render, before the effect runs: light, not mounted; the page's classes and storage as they are. */
    constructor (pageClasses: set<string>, pageStorage: map<string, string>)
      ensures theme == Light && !mounted
      ensures classes == pageClasses && storage == pageStorage
      ensures Synced()
    {
      theme := Light;
      mounted := false;
      classes := pageClasses;
      storage := pageStorage;
    }

    /** `applyTheme`: add or remove the "dark" class, leaving every other class alone. */
    method ApplyTheme(t: Theme)
      modifies this`classes
      ensures classes == WithTheme(old(classes), t)
    {
      if t == Dark {
        classes := classes + {DarkClass};
      } else {
        classes := classes - {DarkClass};
      }
    }

    /** The mount effect: pick the initial theme, apply it, mark the button mounted. Storage is only read. */
    method Mount(prefersDark: bool)
      modifies this`theme, this`classes, this`mounted
      ensures theme == InitialTheme(StoredTheme(storage), prefersDark)
      ensures classes == WithTheme(old(classes), theme)
      ensures mounted
      ensures Synced()
    {
      var initial := InitialTheme(StoredTheme(storage), prefersDark);
      theme := initial;
      ApplyTheme(initial);
      mounted := true;
    }

    /**
     * A click (the button only handles clicks once mounted): switch the
     * theme, save it, apply it. Other storage keys and other classes are
     * untouched.
     */
    method Click()
      requires mounted
      modifies this`theme, this`storage, this`classes
      ensures theme == NextTheme(old(theme))
      ensures storage == old(storage)[StorageKey := ThemeName(theme)]
      ensures classes == WithTheme(old(classes), theme)
      ensures Synced()
    {
      var next := NextTheme(theme);
      theme := next;
      storage := storage[StorageKey := ThemeName(next)];
      ApplyTheme(next);
      ParseThemeName(next);
    }
  }
}
