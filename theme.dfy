// ThemeContext (ThemeContext.tsx, Colors.ts): the hour-band theme
// recommendation, its schedule, and the provider's state: the chosen mode,
// the theme in effect and the dark/comfort flags. The clock's hour and the
// stored preference are parameters; React's effects are the methods below.
module Themes {
  import opened Wrappers
  import opened Strings

  datatype Theme = Light | Comfort | Dark

  datatype ThemeMode = Manual(theme: Theme) | Auto

  /** getRecommendedTheme for the current hour. */
  function RecommendedTheme(hour: int): Theme
  {
    if hour >= 22 || hour < 6 then Dark
    else if hour >= 18 then Comfort
    else Light
  }

  /** A schedule window of ThemeSchedule, "HH:MM" to "HH:MM"; a window may wrap past midnight. */
  datatype Window = Window(start: string, end: string)

  /** ThemeSchedule. */
  function Schedule(t: Theme): Window
  {
    match t
    case Light => Window("06:00", "18:00")
    case Comfort => Window("18:00", "22:00")
    case Dark => Window("22:00", "06:00")
  }

  /** The hour of an "HH:MM" time. */
  function HourOf(time: string): int
  {
    if |time| >= 2 && AllDigits(time[..2]) then DigitsValue(time[..2]) else -1
  }

  /** The hour lies in the window, start included and end excluded. */
  predicate InWindow(hour: int, w: Window)
  {
    var s := HourOf(w.start);
    var e := HourOf(w.end);
    if s <= e then s <= hour < e else hour >= s || hour < e
  }

  /** "HH:MM" literals of the schedule read as their hours. */
  lemma ScheduleHours()
    ensures HourOf("06:00") == 6 && HourOf("18:00") == 18 && HourOf("22:00") == 22
  {
    assert "06:00"[..2] == "06";
    assert "18:00"[..2] == "18";
    assert "22:00"[..2] == "22";
    assert "06"[..1] == "0" && "18"[..1] == "1" && "22"[..1] == "2";
  }

  /** Every hour of the day has exactly one theme, and it is the theme whose scheduled window holds the hour. */
  lemma RecommendationFollowsSchedule(hour: int, t: Theme)
    requires 0 <= hour < 24
    ensures RecommendedTheme(hour) == t <==> InWindow(hour, Schedule(t))
  {
    ScheduleHours();
  }

  /** The theme in effect: the recommendation in auto mode, else the chosen theme. */
  function Effective(mode: ThemeMode, hour: int): Theme
  {
    if mode.Auto? then RecommendedTheme(hour) else mode.theme
  }

  /** The stored theme mode string for a mode. */
  function ModeText(mode: ThemeMode): string
  {
    match mode
    case Auto => "auto"
    case Manual(Light) => "light"
    case Manual(Comfort) => "comfort"
    case Manual(Dark) => "dark"
  }

  /** A stored preference, if it is one of light, comfort, dark and auto. */
  function ParseMode(saved: Option<string>): (r: Option<ThemeMode>)
    ensures r.Some? ==> saved == Some(ModeText(r.value))
  {
    if saved == Some("light") then Some(Manual(Light))
    else if saved == Some("comfort") then Some(Manual(Comfort))
    else if saved == Some("dark") then Some(Manual(Dark))
    else if saved == Some("auto") then Some(Auto)
    else None
  }

  /** Storing a mode and loading it back gives the mode; any other text is ignored. */
  lemma ParseModeRule(mode: ThemeMode, saved: Option<string>)
    ensures ParseMode(Some(ModeText(mode))) == Some(mode)
    ensures ParseMode(saved).None? <==> saved.None? || saved.value !in ["light", "comfort", "dark", "auto"]
  {
  }

  /** ThemeProvider's state and the stored preference. */
  class ThemeProvider {
    var themeMode: ThemeMode
    var currentTheme: Theme
    var isDarkMode: bool
    var isComfortMode: bool
    var saved: Option<string>

    /** The flags follow the theme in effect. */
    predicate Valid()
      reads this
    {
      isDarkMode == (currentTheme == Dark) && isComfortMode == (currentTheme == Comfort)
    }

    /** The initial state: auto mode showing the light theme, until the effects run. */
    constructor (saved: Option<string>)
      ensures Valid()
      ensures themeMode == Auto && currentTheme == Light && !isDarkMode && !isComfortMode && this.saved == saved
    {
      themeMode := Auto;
      currentTheme := Light;
      isDarkMode := false;
      isComfortMode := false;
      this.saved := saved;
    }

    /** loadThemePreference: adopt the stored mode only when it is one of the four. */
    method LoadThemePreference()
      modifies this
      ensures themeMode == (if ParseMode(saved).Some? then ParseMode(saved).value else old(themeMode))
      ensures currentTheme == old(currentTheme) && isDarkMode == old(isDarkMode) && isComfortMode == old(isComfortMode)
      ensures saved == old(saved)
    {
      var mode := ParseMode(saved);
      if mode.Some? {
        themeMode := mode.value;
      }
    }

    /** The effect on themeMode: show the mode's theme and set both flags from it. */
    method ApplyThemeMode(hour: int)
      modifies this
      ensures Valid() && currentTheme == Effective(themeMode, hour)
      ensures themeMode == old(themeMode) && saved == old(saved)
    {
      var actual := if themeMode.Auto? then RecommendedTheme(hour) else themeMode.theme;
      currentTheme := actual;
      isDarkMode := actual == Dark;
      isComfortMode := actual == Comfort;
    }

    /** The minute timer: in auto mode, switch to the recommendation when it differs. */
    method Tick(hour: int)
      requires Valid()
      modifies this
      ensures Valid()
      ensures themeMode.Auto? ==> currentTheme == RecommendedTheme(hour)
      ensures !themeMode.Auto? ==> currentTheme == old(currentTheme)
      ensures themeMode == old(themeMode) && saved == old(saved)
    {
      if !themeMode.Auto? {
        return;
      }
      var recommended := RecommendedTheme(hour);
      if recommended != currentTheme {
        currentTheme := recommended;
        isDarkMode := recommended == Dark;
        isComfortMode := recommended == Comfort;
      }
    }

    /**
     * setThemeMode: set the mode and store its text. `writable` is whether
     * AsyncStorage accepts the write; a failed write is caught and logged, so
     * the mode is set but the stored preference keeps its old text.
     */
    method SetThemeMode(mode: ThemeMode, writable: bool)
      modifies this
      ensures themeMode == mode && saved == (if writable then Some(ModeText(mode)) else old(saved))
      ensures currentTheme == old(currentTheme) && isDarkMode == old(isDarkMode) && isComfortMode == old(isComfortMode)
    {
      themeMode := mode;
      if writable {
        saved := Some(ModeText(mode));
      }
    }
  }

  /** While the flags follow the theme, dark and comfort are never both on. */
  lemma FlagsExclusive(p: ThemeProvider)
    requires p.Valid()
    ensures !(p.isDarkMode && p.isComfortMode)
    ensures p.isDarkMode <==> p.currentTheme == Dark
  {
  }

  /**
   * Setting a mode, reloading the stored preference and applying it shows that
   * mode's theme when the write was stored; after a failed write the reload
   * brings back the mode stored before, if there was a valid one.
   */
  method SetThenReload(p: ThemeProvider, mode: ThemeMode, writable: bool, hour: int)
    modifies p
    ensures p.Valid() && p.currentTheme == Effective(p.themeMode, hour)
    ensures writable ==> p.themeMode == mode
    ensures !writable ==>
      p.themeMode == (if ParseMode(old(p.saved)).Some? then ParseMode(old(p.saved)).value else mode)
  {
    p.SetThemeMode(mode, writable);
    ParseModeRule(mode, p.saved);
    p.LoadThemePreference();
    p.ApplyThemeMode(hour);
  }
}
