/**
 * The app-wide light/dark setting (HarvardArtAPP/Support/AppearanceManager.swift). The
 * user-defaults string under "appearance_mode" is the field `stored`.
 */
module AppearanceManagerModel {
  import opened Wrappers

  /** `AppearanceMode`, a `String`-backed enum. */
  datatype AppearanceMode = System | Light | Dark

  /** The colour schemes SwiftUI can be forced to. */
  datatype ColorScheme = LightScheme | DarkScheme

  const StorageKey := "appearance_mode"

  function RawValue(m: AppearanceMode): (r: string)
    ensures r != []
  {
    match m
    case System => "system"
    case Light => "light"
    case Dark => "dark"
  }

  /** `AppearanceMode(rawValue:)`. */
  function FromRawValue(raw: string): (r: Option<AppearanceMode>)
    ensures r.Some? ==> RawValue(r.value) == raw
  {
    if raw == "system" then Some(System)
    else if raw == "light" then Some(Light)
    else if raw == "dark" then Some(Dark)
    else None
  }

  /** Every mode survives the trip through its raw value. */
  lemma RawValueRoundTrip(m: AppearanceMode)
    ensures FromRawValue(RawValue(m)) == Some(m)
  {
  }

  /** `displayName`: the capitalised name, different for each mode. */
  function DisplayName(m: AppearanceMode): (r: string)
    ensures r != [] && r[0] in {'S', 'L', 'D'}
    ensures r[0] == 'S' <==> m == System
    ensures r[0] == 'L' <==> m == Light
  {
    match m
    case System => "System"
    case Light => "Light"
    case Dark => "Dark"
  }

  /** `colorScheme`: nothing forced for `.system`, otherwise the scheme of the same name. */
  function Scheme(m: AppearanceMode): (r: Option<ColorScheme>)
    ensures r.None? <==> m == System
    ensures r == Some(DarkScheme) <==> m == Dark
  {
    match m
    case System => None
    case Light => Some(LightScheme)
    case Dark => Some(DarkScheme)
  }

  /** The mode `toggleMode` moves to: system, light, dark, and round again. */
  function Next(m: AppearanceMode): (r: AppearanceMode)
    ensures r != m
  {
    match m
    case System => Light
    case Light => Dark
    case Dark => System
  }

  /** Three toggles come back to the start, and each of the three modes is visited on the way. */
  lemma NextCycle(m: AppearanceMode)
    ensures Next(Next(Next(m))) == m
    ensures {m, Next(m), Next(Next(m))} == {System, Light, Dark}
  {
  }

  /** The mode `init` starts in: the saved raw value when it names a mode, otherwise `.system`. */
  function InitialMode(stored: Option<string>): (m: AppearanceMode)
    ensures stored.Some? && FromRawValue(stored.value).Some? ==> m == FromRawValue(stored.value).value
    ensures stored.None? || FromRawValue(stored.value).None? ==> m == System
  {
    var saved := if stored.Some? then stored.value else RawValue(System);
    FromRawValue(saved).GetOr(System)
  }

  class AppearanceManager {
    var currentMode: AppearanceMode
    var stored: Option<string>

    /** `init`: reads the saved mode; the `didSet` observer does not run in an initialiser, so nothing is written. */
    constructor (stored: Option<string>)
      ensures currentMode == InitialMode(stored) && this.stored == stored
    {
      currentMode := InitialMode(stored);
      this.stored := stored;
    }

    /** Assigning `currentMode`: the `didSet` observer saves the new raw value. */
    method SetMode(mode: AppearanceMode)
      modifies this
      ensures currentMode == mode && stored == Some(RawValue(mode))
    {
      currentMode := mode;
      stored := Some(RawValue(mode));
    }

    /** `toggleMode`: one step of the cycle, saved. */
    method ToggleMode()
      modifies this
      ensures currentMode == Next(old(currentMode)) && stored == Some(RawValue(currentMode))
    {
      match currentMode
      case System => SetMode(Light);
      case Light => SetMode(Dark);
      case Dark => SetMode(System);
    }
  }

  /** What a toggle saves is what the next launch starts in. */
  method ToggleThenRelaunch(stored: Option<string>) returns (before: AppearanceMode, after: AppearanceMode)
    ensures after == Next(before) && before == InitialMode(stored)
  {
    var manager := new AppearanceManager(stored);
    before := manager.currentMode;
    manager.ToggleMode();
    var relaunched := new AppearanceManager(manager.stored);
    after := relaunched.currentMode;
  }

  /** Three toggles after launch save the mode the app launched in. */
  method ToggleThrice(stored: Option<string>) returns (saved: Option<string>)
    ensures saved == Some(RawValue(InitialMode(stored)))
  {
    var manager := new AppearanceManager(stored);
    manager.ToggleMode();
    manager.ToggleMode();
    manager.ToggleMode();
    NextCycle(InitialMode(stored));
    saved := manager.stored;
  }
}
