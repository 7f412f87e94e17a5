/**
 * The light/dark theme of static/js/script.js: a `theme` storage slot and
 * whether the page body carries the `dark` class.
 */
module Theme {
  import opened Wrappers

  const DarkName: string := "dark"
  const LightName: string := "light"

  /** The theme applied at page load: the stored one, or "light" when there is none. */
  function StartupTheme(saved: Option<string>): (theme: string)
    ensures saved.None? ==> theme == LightName
    ensures theme == DarkName <==> saved == Some(DarkName)
  {
    if saved.None? || saved.value == "" then LightName else saved.value
  }

  /** The toggle's choice of the next theme from the current one. */
  function NextTheme(current: string): (next: string)
    ensures next == DarkName || next == LightName
    ensures next == DarkName <==> current != DarkName
  {
    if current == DarkName then LightName else DarkName
  }

  /** Toggling twice from either theme gives back the theme it started from. */
  lemma NextThemeTwice(current: string)
    requires current == DarkName || current == LightName
    ensures NextTheme(NextTheme(current)) == current
  {
  }

  /**
   * `storedTheme` is the `theme` storage slot (`None` when absent) and
   * `dark` whether the body carries the `dark` class.
   */
  class ThemeSwitch {
    var storedTheme: Option<string>
    var dark: bool

    /** The page shows the dark theme exactly when "dark" is stored. */
    ghost predicate Valid()
      reads this
    {
      dark <==> storedTheme == Some(DarkName)
    }

    /** Page load: apply the saved theme, defaulting to light. */
    constructor (saved: Option<string>)
      ensures Valid() && storedTheme == saved
    {
      storedTheme := saved;
      new;
      ApplyTheme(StartupTheme(saved));
    }

    /** `applyTheme`: the body is dark exactly for the name "dark". */
    method ApplyTheme(theme: string)
      modifies this`dark
      ensures dark <==> theme == DarkName
    {
      if theme == DarkName {
        dark := true;
      } else {
        dark := false;
      }
    }

    /** The theme button: store and apply the other theme. */
    method Toggle()
      modifies this
      ensures Valid()
      ensures dark == !old(dark)
      ensures storedTheme == Some(if dark then DarkName else LightName)
    {
      var currentTheme := if dark then DarkName else LightName;
      var newTheme := NextTheme(currentTheme);
      storedTheme := Some(newTheme);
      ApplyTheme(newTheme);
    }
  }

  /** Pressing the theme button twice gives the page back the theme it had. */
  method ToggleTwice(t: ThemeSwitch)
    modifies t
    ensures t.Valid() && t.dark == old(t.dark)
  {
    t.Toggle();
    t.Toggle();
  }
}
