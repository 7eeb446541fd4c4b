/** The settings record store (stores/settingsStore.ts): one `settings`
    record and three ways to overwrite it. */
module SettingsStore {

  datatype Theme = SystemTheme | LightTheme | DarkTheme
  datatype Lofi = LofiOn | LofiOff
  datatype Sound = SystemSound | SoundOn | SoundOff
  datatype Skip = Manual | Auto

  /** SettingsType. Durations are in seconds. */
  datatype Settings = Settings(
    theme: Theme,
    lofi: Lofi,
    sound: Sound,
    skip: Skip,
    focusDuration: int,
    shortBreakDuration: int,
    longBreakDuration: int)

  /** defaultSettings */
  const DefaultSettings: Settings :=
    Settings(LightTheme, LofiOff, SystemSound, Manual, 1500, 300, 900)

  /** `keyof SettingsType` */
  datatype Key = ThemeKey | LofiKey | SoundKey | SkipKey
               | FocusDurationKey | ShortBreakDurationKey | LongBreakDurationKey

  /** A value of some field, `SettingsType[K]` for one K or another. */
  datatype Value = ThemeValue(theme: Theme) | LofiValue(lofi: Lofi)
                 | SoundValue(sound: Sound) | SkipValue(skip: Skip)
                 | DurationValue(seconds: int)

  /** `value: SettingsType[K]`: the value has the type of the key's field. */
  predicate Fits(k: Key, v: Value) {
    match k
    case ThemeKey => v.ThemeValue?
    case LofiKey => v.LofiValue?
    case SoundKey => v.SoundValue?
    case SkipKey => v.SkipValue?
    case FocusDurationKey => v.DurationValue?
    case ShortBreakDurationKey => v.DurationValue?
    case LongBreakDurationKey => v.DurationValue?
  }

  /** `settings[key]` */
  function Get(s: Settings, k: Key): (v: Value)
    ensures Fits(k, v)
  {
    match k
    case ThemeKey => ThemeValue(s.theme)
    case LofiKey => LofiValue(s.lofi)
    case SoundKey => SoundValue(s.sound)
    case SkipKey => SkipValue(s.skip)
    case FocusDurationKey => DurationValue(s.focusDuration)
    case ShortBreakDurationKey => DurationValue(s.shortBreakDuration)
    case LongBreakDurationKey => DurationValue(s.longBreakDuration)
  }

  /** A settings record is determined by its seven fields. */
  lemma SameFieldsSameSettings(s: Settings, t: Settings)
    requires forall k :: Get(s, k) == Get(t, k)
    ensures s == t
  {
    assert Get(s, ThemeKey) == Get(t, ThemeKey);
    assert Get(s, LofiKey) == Get(t, LofiKey);
    assert Get(s, SoundKey) == Get(t, SoundKey);
    assert Get(s, SkipKey) == Get(t, SkipKey);
    assert Get(s, FocusDurationKey) == Get(t, FocusDurationKey);
    assert Get(s, ShortBreakDurationKey) == Get(t, ShortBreakDurationKey);
    assert Get(s, LongBreakDurationKey) == Get(t, LongBreakDurationKey);
  }

  /** `{...settings, [key]: value}`: field `k` becomes `v`, every other field
      keeps its value. */
  function With(s: Settings, k: Key, v: Value): (r: Settings)
    requires Fits(k, v)
    ensures Get(r, k) == v
    ensures forall j :: j != k ==> Get(r, j) == Get(s, j)
  {
    match k
    case ThemeKey => s.(theme := v.theme)
    case LofiKey => s.(lofi := v.lofi)
    case SoundKey => s.(sound := v.sound)
    case SkipKey => s.(skip := v.skip)
    case FocusDurationKey => s.(focusDuration := v.seconds)
    case ShortBreakDurationKey => s.(shortBreakDuration := v.seconds)
    case LongBreakDurationKey => s.(longBreakDuration := v.seconds)
  }

  /** Writing back a field's current value changes nothing. */
  lemma WithCurrentValue(s: Settings, k: Key)
    ensures With(s, k, Get(s, k)) == s
  {
    SameFieldsSameSettings(With(s, k, Get(s, k)), s);
  }

  /** Updates of two different fields commute. */
  lemma WithCommutes(s: Settings, k: Key, v: Value, j: Key, w: Value)
    requires Fits(k, v) && Fits(j, w) && k != j
    ensures With(With(s, k, v), j, w) == With(With(s, j, w), k, v)
  {
    SameFieldsSameSettings(With(With(s, k, v), j, w), With(With(s, j, w), k, v));
  }

  /** A later update of the same field overrides an earlier one. */
  lemma WithOverrides(s: Settings, k: Key, v: Value, w: Value)
    requires Fits(k, v) && Fits(k, w)
    ensures With(With(s, k, v), k, w) == With(s, k, w)
  {
    SameFieldsSameSettings(With(With(s, k, v), k, w), With(s, k, w));
  }

  /** useSettingsStore */
  class Store {
    var settings: Settings

    /** The store starts from the defaults. */
    constructor ()
      ensures settings == DefaultSettings
    {
      settings := DefaultSettings;
    }

    /** saveSettings: replace the whole record. */
    method SaveSettings(newSettings: Settings)
      modifies this
      ensures settings == newSettings
    {
      settings := newSettings;
    }

    /** updateSetting: change one field; the others keep their values. */
    method UpdateSetting(key: Key, value: Value)
      requires Fits(key, value)
      modifies this
      ensures Get(settings, key) == value
      ensures forall j :: j != key ==> Get(settings, j) == Get(old(settings), j)
    {
      settings := With(settings, key, value);
    }

    /** resetToDefaults: the defaults, whatever the record was before; so a
        second reset changes nothing. */
    method ResetToDefaults()
      modifies this
      ensures settings == DefaultSettings
    {
      settings := DefaultSettings;
    }
  }
}
