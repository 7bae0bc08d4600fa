/** The theme context: whether the dark theme is on, mirrored in the
    document root's `dark` class and in the stored `theme` preference. */
module Theme {
  import opened Js

  /** What the provider touches: its two state fields, the class list of the
      document root, and the browser's key/value storage. */
  datatype ThemeState = ThemeState(
    isDark: bool,
    isLoaded: bool,
    classes: set<string>,
    storage: map<string, string>)

  /** The stored value for a theme, "dark" or "light", which is also the
      context value's `theme` string. */
  function ThemeName(isDark: bool): (name: string)
    ensures name in {"dark", "light"}
    ensures name == "dark" <==> isDark
  {
    if isDark then "dark" else "light"
  }

  /** The class list with `dark` present exactly when `isDark`; every other
      class is kept. */
  function WithDarkClass(classes: set<string>, isDark: bool): (r: set<string>)
    ensures "dark" in r <==> isDark
    ensures r - {"dark"} == classes - {"dark"}
  {
    if isDark then classes + {"dark"} else classes - {"dark"}
  }

  /** The initial theme for the stored preference: a stored "dark" gives dark,
      any other non-empty value gives light, and nothing stored (or an empty
      string, which is falsy) gives dark. */
  function InitialDark(saved: Option<string>): (dark: bool)
    ensures dark <==> saved.None? || saved.value == "" || saved.value == "dark"
  {
    if Truthy(saved) then saved.value == "dark" else true
  }

  function Saved(storage: map<string, string>): Option<string> {
    if "theme" in storage then Some(storage["theme"]) else None
  }

  /** The mount effect: resolve the theme, apply the class, mark loaded. The
      preference is only read. */
  function Init(s: ThemeState): (t: ThemeState)
    ensures t.isDark == InitialDark(Saved(s.storage)) && t.isLoaded
    ensures "dark" in t.classes <==> t.isDark
    ensures t.storage == s.storage
  {
    var dark := InitialDark(Saved(s.storage));
    ThemeState(dark, true, WithDarkClass(s.classes, dark), s.storage)
  }

  /** Applies `isDark` to the state, the class list and the storage, as both
      `toggleTheme` and `setTheme` do after computing the new value. */
  function Apply(s: ThemeState, isDark: bool): (t: ThemeState)
    ensures t.isDark == isDark && t.isLoaded == s.isLoaded
    ensures "dark" in t.classes <==> isDark
    ensures t.classes - {"dark"} == s.classes - {"dark"}
    ensures "theme" in t.storage && t.storage["theme"] == ThemeName(isDark)
    ensures forall k :: k in s.storage && k != "theme" ==> k in t.storage && t.storage[k] == s.storage[k]
  {
    ThemeState(isDark, s.isLoaded, WithDarkClass(s.classes, isDark), s.storage["theme" := ThemeName(isDark)])
  }

  /** `toggleTheme()`. */
  function Toggle(s: ThemeState): (t: ThemeState)
    ensures t.isDark == !s.isDark
  {
    Apply(s, !s.isDark)
  }

  /** `setTheme(theme)`: "dark" turns dark on, any other argument turns it off. */
  function SetTheme(s: ThemeState, theme: string): (t: ThemeState)
    ensures t.isDark <==> theme == "dark"
  {
    Apply(s, theme == "dark")
  }

  /** The class list agrees with the state. */
  predicate Consistent(s: ThemeState) {
    "dark" in s.classes <==> s.isDark
  }

  /** Toggling twice restores the theme and a consistent class list, and the
      stored preference is then the one for the original theme. */
  lemma ToggleTwice(s: ThemeState)
    requires Consistent(s)
    ensures Toggle(Toggle(s)).isDark == s.isDark
    ensures Toggle(Toggle(s)).classes == s.classes
    ensures Toggle(Toggle(s)).storage == s.storage["theme" := ThemeName(s.isDark)]
  {
    var t := Toggle(Toggle(s));
    assert t.classes == WithDarkClass(WithDarkClass(s.classes, !s.isDark), s.isDark);
    if s.isDark {
      assert t.classes == (s.classes - {"dark"}) + {"dark"};
    }
  }

  /** Setting the same theme again changes nothing. */
  lemma SetThemeIdempotent(s: ThemeState, theme: string)
    ensures SetTheme(SetTheme(s, theme), theme) == SetTheme(s, theme)
  {
    var dark := theme == "dark";
    var t := SetTheme(s, theme);
    if dark {
      assert WithDarkClass(t.classes, dark) == t.classes;
    } else {
      assert WithDarkClass(t.classes, dark) == t.classes;
    }
    assert t.storage["theme" := ThemeName(dark)] == t.storage;
  }

  /** Every operation leaves the class list consistent with the state. */
  lemma OperationsStayConsistent(s: ThemeState, theme: string)
    ensures Consistent(Init(s)) && Consistent(Toggle(s)) && Consistent(SetTheme(s, theme))
  {
  }

  /** The provider component, from its first render (light, not loaded) on. */
  class ThemeProvider {
    var isDark: bool
    var isLoaded: bool
    /** `document.documentElement.classList`. */
    var classes: set<string>
    /** `localStorage`. */
    var storage: map<string, string>

    function State(): ThemeState
      reads this
    {
      ThemeState(isDark, isLoaded, classes, storage)
    }

    constructor (classes: set<string>, storage: map<string, string>)
      ensures State() == ThemeState(false, false, classes, storage)
    {
      isDark, isLoaded := false, false;
      this.classes, this.storage := classes, storage;
    }

    method Mount()
      modifies this
      ensures State() == Init(old(State()))
    {
      var savedTheme := if "theme" in storage then Some(storage["theme"]) else None;
      var themeToSet := false;
      if savedTheme.Some? && savedTheme.value != "" {
        themeToSet := savedTheme.value == "dark";
      } else {
        themeToSet := true;
      }
      isDark := themeToSet;
      if themeToSet {
        classes := classes + {"dark"};
      } else {
        classes := classes - {"dark"};
      }
      isLoaded := true;
    }

    method ToggleTheme()
      modifies this
      ensures State() == Toggle(old(State()))
    {
      var newIsDark := !isDark;
      isDark := newIsDark;
      if newIsDark {
        classes := classes + {"dark"};
        storage := storage["theme" := "dark"];
      } else {
        classes := classes - {"dark"};
        storage := storage["theme" := "light"];
      }
    }

    method SetThemeTo(theme: string)
      modifies this
      ensures State() == SetTheme(old(State()), theme)
    {
      var newIsDark := theme == "dark";
      isDark := newIsDark;
      if newIsDark {
        classes := classes + {"dark"};
        storage := storage["theme" := "dark"];
      } else {
        classes := classes - {"dark"};
        storage := storage["theme" := "light"];
      }
    }
  }

  /** `useTheme()`: the provider, or the error thrown outside one. */
  function UseTheme(context: Option<ThemeProvider>): (r: Outcome<ThemeProvider>)
    ensures r.Ok? <==> context.Some?
    ensures r.Ok? ==> r.value == context.value
    ensures r.Err? ==> r.code == "useTheme must be used within a ThemeProvider"
  {
    if context.Some? then Ok(context.value) else Err("useTheme must be used within a ThemeProvider")
  }
}
