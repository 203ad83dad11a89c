/**
 * The start-up theme decision: a valid saved choice, else the system
 * preference, and "light" whenever reading either fails.
 */
module Theme {
  import opened Js

  const Light: string := "light"
  const Dark: string := "dark"

  predicate IsThemeMode(t: string) {
    t == Light || t == Dark
  }

  /** The result of a call into the browser that may throw. */
  datatype Outcome<T> = Returns(value: T) | Throws

  /**
   * `getThemePreference`: `saved` is what reading the stored key gave,
   * `prefersDark` what the colour-scheme media query gave; the query is
   * consulted only when there is no valid saved choice.
   */
  function GetThemePreference(saved: Outcome<Option<string>>, prefersDark: Outcome<bool>): (r: string)
    ensures IsThemeMode(r)
    ensures saved.Throws? ==> r == Light
    ensures saved.Returns? && saved.value.Some? && IsThemeMode(saved.value.value) ==> r == saved.value.value
    ensures saved.Returns? && !(saved.value.Some? && IsThemeMode(saved.value.value)) ==>
              (r == Dark <==> prefersDark == Returns(true))
  {
    match saved
    case Throws => Light
    case Returns(stored) =>
      if stored.Some? && IsThemeMode(stored.value) then stored.value
      else
        match prefersDark
        case Throws => Light
        case Returns(dark) => if dark then Dark else Light
  }

  /** Once a theme has been saved, the system preference no longer matters, even when querying it fails. */
  lemma SavedChoiceWins(t: string, a: Outcome<bool>, b: Outcome<bool>)
    requires IsThemeMode(t)
    ensures GetThemePreference(Returns(Some(t)), a) == GetThemePreference(Returns(Some(t)), b) == t
  {
  }
}
