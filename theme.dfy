/** The dark-mode toggle (script.js:84-101): one click flips `dark-mode` on
    the body, forces `light-mode` to the opposite, gives the three editors
    one theme and swaps the moon and sun icons. */
module Theme {

  const DarkMode: string := "dark-mode"
  const LightMode: string := "light-mode"
  const DarkTheme: string := "ace/theme/tomorrow_night"
  /** The light theme id exactly as the source spells it. */
  const LightTheme: string := "ace/e/github"
  const MoonIcon: string := "fa-moon"
  const SunIcon: string := "fa-sun"

  /** What the toggle reads and writes: the body's class list, the three
      editors' theme ids (markup, stylesheet, script) and the icon's class list. */
  datatype Look = Look(body: set<string>, editorThemes: seq<string>, icon: set<string>)

  /** `classList.toggle(name)`: the new list and whether `name` is now in it. */
  function Toggle(classes: set<string>, name: string): (r: (set<string>, bool))
    ensures r.1 <==> name !in classes
    ensures r.0 == if r.1 then classes + {name} else classes - {name}
  {
    if name in classes then (classes - {name}, false) else (classes + {name}, true)
  }

  /** `classList.toggle(name, force)` */
  function Force(classes: set<string>, name: string, on: bool): (r: set<string>)
    ensures name in r <==> on
    ensures r - {name} == classes - {name}
  {
    if on then classes + {name} else classes - {name}
  }

  function ThemeFor(dark: bool): string {
    if dark then DarkTheme else LightTheme
  }

  predicate IsDark(look: Look) {
    DarkMode in look.body
  }

  /** The state every click leaves behind: `light-mode` exactly when not
      dark, all three editors on the mode's theme, the moon icon when dark
      and the sun icon otherwise. */
  predicate Consistent(look: Look) {
    var dark := IsDark(look);
    && (LightMode in look.body <==> !dark)
    && look.editorThemes == [ThemeFor(dark), ThemeFor(dark), ThemeFor(dark)]
    && (MoonIcon in look.icon <==> dark)
    && (SunIcon in look.icon <==> !dark)
  }

  /** One click of the toggle button. */
  function ToggleTheme(look: Look): (r: Look)
    ensures IsDark(r) <==> !IsDark(look)
    ensures Consistent(r)
    ensures r.body - {DarkMode, LightMode} == look.body - {DarkMode, LightMode}
    ensures r.icon - {MoonIcon, SunIcon} == look.icon - {MoonIcon, SunIcon}
  {
    var (body, isDarkMode) := Toggle(look.body, DarkMode);
    var body' := Force(body, LightMode, !isDarkMode);
    var editorTheme := ThemeFor(isDarkMode);
    var icon := if isDarkMode then (look.icon - {SunIcon}) + {MoonIcon}
                else (look.icon - {MoonIcon}) + {SunIcon};
    Look(body', [editorTheme, editorTheme, editorTheme], icon)
  }

  /** Two clicks give back the original dark-mode flag, from any state. */
  lemma ToggleTwiceRestoresMode(look: Look)
    ensures IsDark(ToggleTheme(ToggleTheme(look))) == IsDark(look)
  {
  }

  /** From a state a click produced, two more clicks restore everything:
      body classes, editor themes and icon. */
  lemma ToggleTwiceRoundTrip(look: Look)
    requires Consistent(look)
    ensures ToggleTheme(ToggleTheme(look)) == look
  {
  }
}
