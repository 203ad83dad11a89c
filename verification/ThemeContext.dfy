/**
 * The theme provider: the current theme, kept valid, mirrored into the
 * document's `data-theme` attribute and into storage by the effect that
 * follows every change.
 */
module ThemeContext {
  import opened Js
  import opened Theme

  /** `validateTheme` */
  function ValidateTheme(theme: string): (r: string)
    ensures IsThemeMode(r)
    ensures IsThemeMode(theme) ==> r == theme
    ensures !IsThemeMode(theme) ==> r == Light
  {
    if theme == Light || theme == Dark then theme else Light
  }

  lemma ValidateIdempotent(theme: string)
    ensures ValidateTheme(ValidateTheme(theme)) == ValidateTheme(theme)
  {
  }

  /** The `toggleTheme` updater: the other of the two themes, starting from the validated one. */
  function Toggled(prev: string): (r: string)
    ensures IsThemeMode(r) && r != ValidateTheme(prev)
  {
    var current := ValidateTheme(prev);
    if current == Light then Dark else Light
  }

  lemma ToggleTwiceRestores(theme: string)
    ensures Toggled(Toggled(theme)) == ValidateTheme(theme)
    ensures IsThemeMode(theme) ==> Toggled(Toggled(theme)) == theme
    ensures theme == Light ==> Toggled(theme) == Dark
    ensures theme == Dark ==> Toggled(theme) == Light
    ensures !IsThemeMode(theme) ==> Toggled(theme) == Dark
  {
  }

  class ThemeProvider {
    var theme: string
    /** The document's `data-theme` attribute. */
    var dataTheme: string
    /** The stored `theme` key. */
    var storedTheme: Option<string>

    ghost predicate Valid()
      reads this
    {
      IsThemeMode(theme) && dataTheme == theme && storedTheme == Some(theme)
    }

    /** The effect run after every change of `theme`. */
    method ApplyTheme()
      modifies this
      ensures theme == old(theme)
      ensures dataTheme == ValidateTheme(theme) && storedTheme == Some(ValidateTheme(theme))
    {
      var validTheme := ValidateTheme(theme);
      dataTheme := validTheme;
      storedTheme := Some(validTheme);
    }

    /** Mounting: the validated preference, then the effect. */
    constructor (saved: Outcome<Option<string>>, prefersDark: Outcome<bool>)
      ensures Valid()
      ensures theme == ValidateTheme(GetThemePreference(saved, prefersDark))
      ensures saved.Returns? && saved.value.Some? && IsThemeMode(saved.value.value) ==> theme == saved.value.value
    {
      theme := ValidateTheme(GetThemePreference(saved, prefersDark));
      dataTheme := "";
      storedTheme := None;
      new;
      ApplyTheme();
    }

    /** `toggleTheme`, followed by the effect. */
    method ToggleTheme()
      requires Valid()
      modifies this
      ensures Valid()
      ensures theme == Toggled(old(theme)) && theme != old(theme)
    {
      theme := Toggled(theme);
      ApplyTheme();
    }
  }

  /** A toggled theme survives a reload: the next mount reads it back whatever the system prefers. */
  method ToggleThenReload(p: ThemeProvider, prefersDark: Outcome<bool>) returns (reloaded: ThemeProvider)
    requires p.Valid()
    modifies p
    ensures reloaded.theme == p.theme == Toggled(old(p.theme))
  {
    p.ToggleTheme();
    reloaded := new ThemeProvider(Returns(p.storedTheme), prefersDark);
  }
}
