// The dark/light switch both theme toggles use.

module Theme {
  const Dark := "dark"
  const Light := "light"

  /** `theme === 'dark' ? 'light' : 'dark'`. */
  function Toggled(theme: string): (r: string)
    ensures r == Dark || r == Light
    ensures r == Dark <==> theme != Dark
  {
    if theme == Dark then Light else Dark
  }

  /** Toggling twice restores exactly the two known themes; any other
      stored value becomes `dark` and then `light`. */
  lemma ToggleTwice(theme: string)
    ensures Toggled(Toggled(theme)) == theme <==> theme == Dark || theme == Light
    ensures theme != Dark ==> Toggled(Toggled(theme)) == Light
  {
  }

  /** `localStorage.getItem('theme') || 'dark'`: a missing or empty stored
      value reads as dark. */
  function Saved(stored: string): (r: string)
    ensures r != ""
    ensures stored != "" ==> r == stored
    ensures stored == "" ==> r == Dark
  {
    if stored == "" then Dark else stored
  }
}
