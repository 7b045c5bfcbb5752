/**
 * The dark-mode preference of App.js: the value under the localStorage key
 * "darkMode" (None when the key is absent), read once at start-up and
 * rewritten by every toggle.
 */
module Preferences {
  import opened Wrappers

  /** The initial darkMode state: the stored value is exactly "dark". */
  function LoadDarkMode(stored: Option<string>): bool
  {
    stored == Some("dark")
  }

  /** The value setMemoryDarkMode writes: "light" after "dark", "dark" after anything else. */
  function Toggled(stored: Option<string>): (r: Option<string>)
    ensures r == Some("dark") || r == Some("light")
    ensures LoadDarkMode(r) == !LoadDarkMode(stored)
  {
    if stored == Some("dark") then Some("light") else Some("dark")
  }

  /**
   * Toggling twice restores a stored "dark" or "light"; from an absent or
   * foreign value it ends on "light", the default the load reads.
   */
  lemma ToggleTwice(stored: Option<string>)
    ensures stored == Some("dark") || stored == Some("light") ==> Toggled(Toggled(stored)) == stored
    ensures Toggled(Toggled(stored)) == Some(if LoadDarkMode(stored) then "dark" else "light")
  {
  }
}
