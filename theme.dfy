/** The theme store: a three-valued setting and the two-valued theme actually applied. */
module Theme {
  import opened Common

  datatype ThemeSetting = Dark | Light | Auto
  datatype ActualTheme = ActualDark | ActualLight

  /** `theme === 'auto' ? 'dark' : theme`: automatic falls back to dark. */
  function Effective(t: ThemeSetting): (a: ActualTheme)
    ensures t == Auto ==> a == ActualDark
    ensures t != Auto ==> AsSetting(a) == t
  {
    match t
    case Dark => ActualDark
    case Light => ActualLight
    case Auto => ActualDark
  }

  /** An applied theme read as a setting. */
  function AsSetting(a: ActualTheme): ThemeSetting {
    if a == ActualDark then Dark else Light
  }

  /** The string the setting is stored as. */
  function ThemeName(t: ThemeSetting): string {
    match t
    case Dark => "dark"
    case Light => "light"
    case Auto => "auto"
  }

  /** The start-up check on a stored value: only the three names are accepted. */
  function ParseTheme(s: string): (r: Option<ThemeSetting>)
    ensures r.Some? <==> s == "dark" || s == "light" || s == "auto"
  {
    if s == "dark" then Some(Dark)
    else if s == "light" then Some(Light)
    else if s == "auto" then Some(Auto)
    else None
  }

  /** Storing a setting and reading it back gives the setting; an accepted string names its setting. */
  lemma ThemeNameRoundTrip(t: ThemeSetting, s: string)
    ensures ParseTheme(ThemeName(t)) == Some(t)
    ensures ParseTheme(s).Some? ==> ThemeName(ParseTheme(s).value) == s
  {
  }

  class ThemeStore {
    var theme: ThemeSetting
    var actualTheme: ActualTheme

    /** The applied theme always follows the setting. */
    ghost predicate Valid()
      reads this
    {
      actualTheme == Effective(theme)
    }

    constructor ()
      ensures Valid() && theme == Dark && actualTheme == ActualDark
    {
      theme := Dark;
      actualTheme := ActualDark;
    }

    /** `setTheme(theme)`: store the setting as given and apply its effective theme. */
    method SetTheme(t: ThemeSetting)
      modifies this
      ensures Valid() && theme == t && actualTheme == Effective(t)
    {
      theme := t;
      actualTheme := Effective(t);
    }

    /** The start-up load: a stored value is applied only if it names a setting; otherwise nothing changes. */
    method ApplyStored(stored: Option<string>)
      requires Valid()
      modifies this
      ensures Valid()
      ensures stored.Some? && ParseTheme(stored.value).Some? ==> theme == ParseTheme(stored.value).value
      ensures !(stored.Some? && ParseTheme(stored.value).Some?) ==> theme == old(theme) && actualTheme == old(actualTheme)
    {
      if stored.Some? {
        var parsed := ParseTheme(stored.value);
        if parsed.Some? {
          SetTheme(parsed.value);
        }
      }
    }
  }
}
