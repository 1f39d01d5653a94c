/**
 * The helpers of the menu-bar settings view (MenuBarSettings): its local
 * state variables, how edits are written to the shared Settings object and
 * how that object is read back.  The view's layout is not modelled.
 */
module MenuBar {
  import opened AppSettings

  /**
   * The upper bound stored for a range the user edited: raised to the lower
   * bound when the sliders cross, otherwise kept.
   */
  function NormalizedRange(lower: real, upper: real): (r: ClosedRange)
    ensures r.lower == lower
    ensures lower <= upper ==> r.upper == upper
    ensures lower > upper ==> r.upper == lower
  {
    if lower > upper then FloatRange(lower, lower) else FloatRange(lower, upper)
  }

  /** Int(Float): conversion toward zero. */
  function Truncate(x: real): (n: int)
    ensures x >= 0.0 ==> n >= 0 && n as real <= x < n as real + 1.0
    ensures x < 0.0 ==> n <= 0 && n as real - 1.0 < x <= n as real
  {
    if x >= 0.0 then x.Floor else -((-x).Floor)
  }

  /** The display toggle: the name's membership flips. */
  function Toggled(displays: set<string>, name: string): (r: set<string>)
    ensures name in r <==> name !in displays
    ensures forall other :: other != name ==> (other in r <==> other in displays)
  {
    if name in displays then displays - {name} else displays + {name}
  }

  /** Toggling the same name twice restores the set. */
  lemma ToggledTwice(displays: set<string>, name: string)
    ensures Toggled(Toggled(displays, name), name) == displays
  {
  }

  class MenuBarSettings {
    const settings: Settings
    var selectedPreset: SnowPreset
    var minSpeed: real
    var maxSpeed: real
    var minSize: real
    var maxSize: real
    /** The count slider's value. */
    var maxSnowflakes: real
    var windowInteraction: bool
    /** The wind slider's value: one hundred times the stored strength. */
    var windStrength: real
    var displayMode: DisplayMode
    var selectedDisplays: set<string>
    var allDisplays: seq<string>

    /** The local values loadValues reads, except selectedDisplays and allDisplays. */
    predicate MirrorsSettings(s: SettingsRecord)
      reads this
    {
      selectedPreset == s.currentPreset &&
      minSpeed == s.snowflakeSpeedRange.lower && maxSpeed == s.snowflakeSpeedRange.upper &&
      minSize == s.snowflakeSizeRange.lower && maxSize == s.snowflakeSizeRange.upper &&
      maxSnowflakes == s.maxSnowflakes as real &&
      windowInteraction == s.windowInteraction &&
      windStrength == s.windStrength * 100.0 &&
      displayMode == s.displayMode
    }

    /** The initial values of the view's state, read from the settings. */
    constructor (settings: Settings)
      ensures this.settings == settings
      ensures MirrorsSettings(settings.Snapshot())
      ensures selectedDisplays == settings.selectedMonitors && allDisplays == []
    {
      this.settings := settings;
      selectedPreset := settings.currentPreset;
      minSpeed := settings.snowflakeSpeedRange.lower;
      maxSpeed := settings.snowflakeSpeedRange.upper;
      minSize := settings.snowflakeSizeRange.lower;
      maxSize := settings.snowflakeSizeRange.upper;
      maxSnowflakes := settings.maxSnowflakes as real;
      windowInteraction := settings.windowInteraction;
      windStrength := settings.windStrength * 100.0;
      displayMode := settings.displayMode;
      selectedDisplays := settings.selectedMonitors;
      allDisplays := [];
    }

    /**
     * switchToCustom: nothing when the picker already shows custom;
     * otherwise both the picker and the settings switch to custom, and the
     * settings are saved.
     */
    method SwitchToCustom()
      modifies this`selectedPreset, settings
      ensures old(selectedPreset) == Custom ==>
                selectedPreset == Custom && settings.Snapshot() == old(settings.Snapshot()) &&
                settings.stored == old(settings.stored)
      ensures old(selectedPreset) != Custom ==>
                selectedPreset == Custom &&
                settings.Snapshot() == old(settings.Snapshot()).(currentPreset := Custom) &&
                settings.stored == Encoded(settings.Snapshot())
    {
      if selectedPreset == Custom {
        return;
      }
      selectedPreset := Custom;
      settings.currentPreset := Custom;
      settings.Save();
    }

    /** applyPreset: apply through the settings, then reload the local state. */
    method ApplyPreset(p: SnowPreset, screenNames: seq<string>)
      modifies this, settings
      ensures settings.Snapshot() == PresetSelected(p, old(settings.Snapshot()))
      ensures settings.stored == Encoded(settings.Snapshot())
      ensures MirrorsSettings(settings.Snapshot())
      ensures selectedDisplays == old(selectedDisplays) && allDisplays == screenNames
    {
      settings.ApplyPreset(p);
      LoadValues(screenNames);
    }

    /**
     * updateSettings: order each range, then store the ranges, the count,
     * the wind (slider / 100) and the display choice, and save.
     */
    method UpdateSettings()
      modifies this`maxSpeed, this`maxSize, settings
      ensures maxSpeed == NormalizedRange(minSpeed, old(maxSpeed)).upper
      ensures maxSize == NormalizedRange(minSize, old(maxSize)).upper
      ensures settings.Snapshot() == old(settings.Snapshot()).(
                snowflakeSpeedRange := NormalizedRange(minSpeed, old(maxSpeed)),
                snowflakeSizeRange := NormalizedRange(minSize, old(maxSize)),
                maxSnowflakes := Truncate(maxSnowflakes),
                windStrength := windStrength / 100.0,
                displayMode := displayMode,
                selectedMonitors := selectedDisplays)
      ensures settings.stored == Encoded(settings.Snapshot())
    {
      if minSpeed > maxSpeed { maxSpeed := minSpeed; }
      if minSize > maxSize { maxSize := minSize; }

      settings.snowflakeSpeedRange := FloatRange(minSpeed, maxSpeed);
      settings.snowflakeSizeRange := FloatRange(minSize, maxSize);
      settings.maxSnowflakes := Truncate(maxSnowflakes);
      settings.windStrength := windStrength / 100.0;
      settings.displayMode := displayMode;
      settings.selectedMonitors := selectedDisplays;
      settings.Save();
    }

    /**
     * loadValues: every local value from the settings, except
     * selectedDisplays, which is assigned to itself; the display names come
     * from the current screens.
     */
    method LoadValues(screenNames: seq<string>)
      modifies this
      ensures MirrorsSettings(settings.Snapshot())
      ensures selectedDisplays == old(selectedDisplays) && allDisplays == screenNames
    {
      var s := settings;
      selectedPreset := s.currentPreset;
      minSpeed := s.snowflakeSpeedRange.lower;
      maxSpeed := s.snowflakeSpeedRange.upper;
      minSize := s.snowflakeSizeRange.lower;
      maxSize := s.snowflakeSizeRange.upper;
      maxSnowflakes := s.maxSnowflakes as real;
      windowInteraction := s.windowInteraction;
      windStrength := s.windStrength * 100.0;
      displayMode := s.displayMode;
      selectedDisplays := selectedDisplays;
      allDisplays := screenNames;
    }

    /** The display toggle's setter. */
    method ToggleDisplay(name: string)
      modifies this`selectedDisplays
      ensures selectedDisplays == Toggled(old(selectedDisplays), name)
    {
      if name in selectedDisplays {
        selectedDisplays := selectedDisplays - {name};
      } else {
        selectedDisplays := selectedDisplays + {name};
      }
    }

    /**
     * The preset picker's change handler: a preset other than custom is
     * applied and reloaded; custom only records custom in the settings.
     */
    method PresetPicked(newPreset: SnowPreset, screenNames: seq<string>)
      modifies this, settings
      ensures newPreset != Custom ==>
                settings.Snapshot() == PresetSelected(newPreset, old(settings.Snapshot())) &&
                MirrorsSettings(settings.Snapshot()) && allDisplays == screenNames
      ensures newPreset == Custom ==>
                settings.Snapshot() == old(settings.Snapshot()).(currentPreset := Custom) &&
                selectedPreset == old(selectedPreset) && minSpeed == old(minSpeed) &&
                maxSpeed == old(maxSpeed) && minSize == old(minSize) && maxSize == old(maxSize) &&
                maxSnowflakes == old(maxSnowflakes) && windStrength == old(windStrength) &&
                windowInteraction == old(windowInteraction) && displayMode == old(displayMode) &&
                allDisplays == old(allDisplays)
      ensures selectedDisplays == old(selectedDisplays)
      ensures settings.stored == Encoded(settings.Snapshot())
    {
      if newPreset != Custom {
        ApplyPreset(newPreset, screenNames);
      } else {
        settings.currentPreset := Custom;
        settings.Save();
      }
    }

    /** The reset button: the comfort preset. */
    method ResetPressed(screenNames: seq<string>)
      modifies this, settings
      ensures settings.Snapshot() == PresetSelected(Comfort, old(settings.Snapshot()))
      ensures settings.stored == Encoded(settings.Snapshot())
      ensures MirrorsSettings(settings.Snapshot())
      ensures selectedDisplays == old(selectedDisplays) && allDisplays == screenNames
    {
      ApplyPreset(Comfort, screenNames);
    }

    /** The interaction toggle's change handler. */
    method WindowInteractionChanged(value: bool)
      modifies settings
      ensures settings.Snapshot() == old(settings.Snapshot()).(windowInteraction := value)
      ensures settings.stored == Encoded(settings.Snapshot())
    {
      settings.windowInteraction := value;
      settings.Save();
    }
  }

  /** switchToCustom twice is switchToCustom once. */
  method SwitchToCustomTwice(view: MenuBarSettings)
    modifies view`selectedPreset, view.settings
    ensures view.selectedPreset == Custom
    ensures old(view.selectedPreset) != Custom ==>
              view.settings.Snapshot() == old(view.settings.Snapshot()).(currentPreset := Custom) &&
              view.settings.stored == Encoded(view.settings.Snapshot())
    ensures old(view.selectedPreset) == Custom ==>
              view.settings.Snapshot() == old(view.settings.Snapshot()) &&
              view.settings.stored == old(view.settings.stored)
  {
    view.SwitchToCustom();
    view.SwitchToCustom();
  }
}
