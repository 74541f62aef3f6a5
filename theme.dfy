/**
 * The light/dark theme store: the mode starts from the persisted "theme-mode"
 * entry and every toggle flips it and writes the new mode back.
 */
module ThemeStore {
  import opened Options

  datatype Mode = Light | Dark

  /** The value persisted under "theme-mode". */
  function ModeName(m: Mode): string
  {
    match m
    case Light => "light"
    case Dark => "dark"
  }

  /** `getInitialMode`: dark only for a stored "dark"; anything else, or nothing, is light. */
  function InitialMode(saved: Option<string>): (m: Mode)
    ensures saved == Some("light") || saved == Some("dark") ==> saved == Some(ModeName(m))
    ensures saved.None? ==> m == Light
  {
    if saved == Some("dark") then Dark else Light
  }

  function Toggled(m: Mode): (r: Mode)
    ensures r != m
  {
    if m == Light then Dark else Light
  }

  lemma InitialModeSpec(saved: Option<string>)
    ensures InitialMode(saved) == Dark <==> saved == Some("dark")
    ensures InitialMode(None) == Light
  {
  }

  /** A persisted mode is read back as itself. */
  lemma InitialModeRestores(m: Mode)
    ensures InitialMode(Some(ModeName(m))) == m
  {
  }

  /** A toggle always changes the mode, and two toggles restore it. */
  lemma ToggleInvolution(m: Mode)
    ensures Toggled(m) != m
    ensures Toggled(Toggled(m)) == m
  {
  }

  class ThemeState {
    var mode: Mode
    var saved: Option<string>  // the "theme-mode" storage entry

    /** Store creation: the mode is read from storage. */
    constructor (saved: Option<string>)
      ensures this.saved == saved && mode == InitialMode(saved)
    {
      this.saved := saved;
      mode := InitialMode(saved);
    }

    /** `toggleMode`: flip the mode and persist it, so a fresh store would start in the new mode. */
    method ToggleMode()
      modifies this
      ensures mode == Toggled(old(mode))
      ensures saved == Some(ModeName(mode))
      ensures InitialMode(saved) == mode
    {
      var newMode := Toggled(mode);
      saved := Some(ModeName(newMode));
      mode := newMode;
      InitialModeRestores(mode);
    }
  }
}
