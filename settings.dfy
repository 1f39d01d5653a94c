/**
 * The shared preferences object (Settings), its presets (SnowPreset.apply)
 * and its persistence under the "settings" key of the user defaults.
 */
module AppSettings {

  datatype DisplayMode = AllMonitors | Selected

  datatype SnowPreset = Light | Comfort | Blizzard | Custom

  /** Range bounds; a ClosedRange can only hold lower <= upper. */
  datatype FloatRange = FloatRange(lower: real, upper: real)

  type ClosedRange = r: FloatRange | r.lower <= r.upper witness FloatRange(0.0, 0.0)

  /** The eleven persisted fields of Settings, as one value. */
  datatype SettingsRecord = SettingsRecord(
    currentPreset: SnowPreset,
    isPaused: bool,
    displayMode: DisplayMode,
    selectedMonitors: set<string>,
    pauseInFullscreen: bool,
    snowflakeSizeRange: ClosedRange,
    maxSnowflakes: int,
    snowflakeSpeedRange: ClosedRange,
    windStrength: real,
    meltingSpeed: real,
    windowInteraction: bool)

  /**
   * What the user defaults hold under the "settings" key: nothing, data that
   * does not decode as Settings, or an encoded record (the JSON round trip is
   * taken to be exact).
   */
  datatype Stored = Absent | Undecodable | Encoded(record: SettingsRecord)

  /** The record of a freshly constructed Settings before load runs. */
  const Defaults: SettingsRecord := SettingsRecord(
    currentPreset := Comfort,
    isPaused := false,
    displayMode := AllMonitors,
    selectedMonitors := {},
    pauseInFullscreen := true,
    snowflakeSizeRange := FloatRange(3.0, 10.0),
    maxSnowflakes := 2000,
    snowflakeSpeedRange := FloatRange(0.5, 3.0),
    windStrength := 1.0,
    meltingSpeed := 0.05,
    windowInteraction := true)

  /** The fields no preset touches. */
  predicate SameUntunedFields(a: SettingsRecord, b: SettingsRecord)
  {
    a.currentPreset == b.currentPreset &&
    a.isPaused == b.isPaused &&
    a.displayMode == b.displayMode &&
    a.selectedMonitors == b.selectedMonitors &&
    a.pauseInFullscreen == b.pauseInFullscreen &&
    a.meltingSpeed == b.meltingSpeed &&
    a.windowInteraction == b.windowInteraction
  }

  /**
   * SnowPreset.apply, stated on values: a preset assigns only the count, the
   * two ranges and the wind; custom assigns nothing.
   */
  function PresetApplied(p: SnowPreset, s: SettingsRecord): (r: SettingsRecord)
    ensures SameUntunedFields(r, s)
    ensures p == Custom ==> r == s
  {
    match p
    case Light =>
      s.(maxSnowflakes := 800, snowflakeSpeedRange := FloatRange(0.2, 1.5),
         snowflakeSizeRange := FloatRange(2.0, 12.0), windStrength := 0.5)
    case Comfort =>
      s.(maxSnowflakes := 2000, snowflakeSpeedRange := FloatRange(0.5, 3.0),
         snowflakeSizeRange := FloatRange(3.0, 15.0), windStrength := 1.0)
    case Blizzard =>
      s.(maxSnowflakes := 6000, snowflakeSpeedRange := FloatRange(2.0, 8.0),
         snowflakeSizeRange := FloatRange(2.0, 20.0), windStrength := 4.0)
    case Custom => s
  }

  /**
   * Settings.applyPreset on values: record the preset, then apply it.  The
   * result names the preset and keeps every field no preset touches;
   * selecting custom changes only the recorded preset.
   */
  function PresetSelected(p: SnowPreset, s: SettingsRecord): (r: SettingsRecord)
    ensures r.currentPreset == p
    ensures SameUntunedFields(r, s.(currentPreset := p))
    ensures p == Custom ==> r == s.(currentPreset := Custom)
  {
    PresetApplied(p, s.(currentPreset := p))
  }

  /** The comfort preset, field by field. */
  lemma ComfortValues(s: SettingsRecord)
    ensures var r := PresetApplied(Comfort, s);
      r.maxSnowflakes == 2000 && r.windStrength == 1.0 &&
      r.snowflakeSpeedRange == FloatRange(0.5, 3.0) && r.snowflakeSizeRange == FloatRange(3.0, 15.0)
  {
  }

  /** The blizzard preset, field by field. */
  lemma BlizzardValues(s: SettingsRecord)
    ensures var r := PresetApplied(Blizzard, s);
      r.maxSnowflakes == 6000 && r.windStrength == 4.0 &&
      r.snowflakeSpeedRange == FloatRange(2.0, 8.0) && r.snowflakeSizeRange == FloatRange(2.0, 20.0)
  {
  }

  /** The light preset, field by field. */
  lemma LightValues(s: SettingsRecord)
    ensures var r := PresetApplied(Light, s);
      r.maxSnowflakes == 800 && r.windStrength == 0.5 &&
      r.snowflakeSpeedRange == FloatRange(0.2, 1.5) && r.snowflakeSizeRange == FloatRange(2.0, 12.0)
  {
  }

  /** Selecting a preset twice is the same as selecting it once. */
  lemma PresetSelectedIdempotent(p: SnowPreset, s: SettingsRecord)
    ensures PresetSelected(p, PresetSelected(p, s)) == PresetSelected(p, s)
  {
  }

  /**
   * Every preset other than custom yields a positive count, a non-negative
   * wind and strictly ordered, positive ranges.
   */
  lemma PresetsAreWellFormed(p: SnowPreset, s: SettingsRecord)
    requires p != Custom
    ensures var r := PresetApplied(p, s);
      r.maxSnowflakes > 0 && r.windStrength >= 0.0 &&
      0.0 < r.snowflakeSpeedRange.lower < r.snowflakeSpeedRange.upper &&
      0.0 < r.snowflakeSizeRange.lower < r.snowflakeSizeRange.upper
  {
  }

  /** The shared Settings object. */
  class Settings {
    var currentPreset: SnowPreset
    var isPaused: bool
    var displayMode: DisplayMode
    var selectedMonitors: set<string>
    var pauseInFullscreen: bool
    var snowflakeSizeRange: ClosedRange
    var maxSnowflakes: int
    var snowflakeSpeedRange: ClosedRange
    var windStrength: real
    var meltingSpeed: real
    var windowInteraction: bool
    /** The "settings" entry of the user defaults. */
    var stored: Stored

    /** The current values of the eleven fields. */
    function Snapshot(): SettingsRecord
      reads this
    {
      SettingsRecord(currentPreset, isPaused, displayMode, selectedMonitors, pauseInFullscreen,
                     snowflakeSizeRange, maxSnowflakes, snowflakeSpeedRange, windStrength,
                     meltingSpeed, windowInteraction)
    }

    /** Overwrites the eleven fields with the values of r. */
    method Assign(r: SettingsRecord)
      modifies this
      ensures Snapshot() == r && stored == old(stored)
    {
      currentPreset := r.currentPreset;
      isPaused := r.isPaused;
      displayMode := r.displayMode;
      pauseInFullscreen := r.pauseInFullscreen;
      snowflakeSizeRange := r.snowflakeSizeRange;
      maxSnowflakes := r.maxSnowflakes;
      snowflakeSpeedRange := r.snowflakeSpeedRange;
      windStrength := r.windStrength;
      meltingSpeed := r.meltingSpeed;
      windowInteraction := r.windowInteraction;
      selectedMonitors := r.selectedMonitors;
    }

    /**
     * The private initializer: field defaults, then load from what the user
     * defaults hold when the object is created.
     */
    constructor (initial: Stored)
      ensures initial.Encoded? ==> Snapshot() == initial.record && stored == initial
      ensures !initial.Encoded? ==>
                Snapshot() == PresetSelected(Comfort, Defaults) && stored == Encoded(Snapshot())
    {
      currentPreset := Comfort;
      isPaused := false;
      displayMode := AllMonitors;
      selectedMonitors := {};
      pauseInFullscreen := true;
      snowflakeSizeRange := FloatRange(3.0, 10.0);
      maxSnowflakes := 2000;
      snowflakeSpeedRange := FloatRange(0.5, 3.0);
      windStrength := 1.0;
      meltingSpeed := 0.05;
      windowInteraction := true;
      stored := initial;
      new;
      Load();
    }

    /** applyPreset: record the preset, apply its values, save. */
    method ApplyPreset(p: SnowPreset)
      modifies this
      ensures currentPreset == p
      ensures Snapshot() == PresetSelected(p, old(Snapshot()))
      ensures stored == Encoded(Snapshot())
    {
      currentPreset := p;
      Apply(p, this);
      Save();
    }

    /** reset: every user-defaults key is removed, then load runs. */
    method Reset()
      modifies this
      ensures Snapshot() == PresetSelected(Comfort, old(Snapshot()))
      ensures stored == Encoded(Snapshot())
    {
      stored := Absent;
      Load();
    }

    /** save: writes the encoded fields under the "settings" key. */
    method Save()
      modifies this`stored
      ensures stored == Encoded(Snapshot())
    {
      stored := Encoded(Snapshot());
    }

    /**
     * load: with nothing stored, or data that does not decode, falls back to
     * the comfort preset (which also saves); otherwise copies every field of
     * the decoded value.
     */
    method Load()
      modifies this
      ensures old(stored).Encoded? ==> Snapshot() == old(stored).record && stored == old(stored)
      ensures !old(stored).Encoded? ==>
                Snapshot() == PresetSelected(Comfort, old(Snapshot())) && stored == Encoded(Snapshot())
    {
      match stored
      case Encoded(settings) =>
        Assign(settings);
      case _ =>
        ApplyPreset(Comfort);
    }
  }

  /** SnowPreset.apply(to:): assigns the preset's four tuning fields. */
  method Apply(p: SnowPreset, settings: Settings)
    modifies settings
    ensures settings.Snapshot() == PresetApplied(p, old(settings.Snapshot()))
    ensures settings.stored == old(settings.stored)
  {
    match p
    case Light =>
      settings.maxSnowflakes := 800;
      settings.snowflakeSpeedRange := FloatRange(0.2, 1.5);
      settings.snowflakeSizeRange := FloatRange(2.0, 12.0);
      settings.windStrength := 0.5;
    case Comfort =>
      settings.maxSnowflakes := 2000;
      settings.snowflakeSpeedRange := FloatRange(0.5, 3.0);
      settings.snowflakeSizeRange := FloatRange(3.0, 15.0);
      settings.windStrength := 1.0;
    case Blizzard =>
      settings.maxSnowflakes := 6000;
      settings.snowflakeSpeedRange := FloatRange(2.0, 8.0);
      settings.snowflakeSizeRange := FloatRange(2.0, 20.0);
      settings.windStrength := 4.0;
    case Custom =>
  }

  /** Applying a preset twice leaves the object as applying it once. */
  method ApplyPresetTwice(settings: Settings, p: SnowPreset)
    modifies settings
    ensures settings.Snapshot() == PresetSelected(p, old(settings.Snapshot()))
    ensures settings.stored == Encoded(settings.Snapshot())
  {
    settings.ApplyPreset(p);
    settings.ApplyPreset(p);
    PresetSelectedIdempotent(p, old(settings.Snapshot()));
  }

  /** A save followed by a reload restores every field. */
  method SaveThenLoad(settings: Settings)
    modifies settings
    ensures settings.Snapshot() == old(settings.Snapshot())
  {
    settings.Save();
    settings.Load();
  }
}
