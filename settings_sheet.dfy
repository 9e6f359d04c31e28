/** The driver settings sheet: six on/off preferences. */
module SettingsSheet {

  datatype Key = Notifications | SoundAlerts | DarkMode | LocationSharing | Vibration | AutoRouting

  datatype Settings = Settings(
    notifications: bool,
    soundAlerts: bool,
    darkMode: bool,
    locationSharing: bool,
    vibration: bool,
    autoRouting: bool)

  /** `settings[key]`. */
  function Get(s: Settings, k: Key): bool {
    match k
    case Notifications => s.notifications
    case SoundAlerts => s.soundAlerts
    case DarkMode => s.darkMode
    case LocationSharing => s.locationSharing
    case Vibration => s.vibration
    case AutoRouting => s.autoRouting
  }

  /** The record the sheet starts with: every preference is on. */
  function InitialSettings(): (r: Settings)
    ensures forall k :: Get(r, k)
  {
    Settings(true, true, true, true, true, true)
  }

  /** `{ ...prev, [key]: !prev[key] }`: flips one preference and keeps the
      others. */
  function Toggle(s: Settings, key: Key): (r: Settings)
    ensures Get(r, key) == !Get(s, key)
    ensures forall k :: k != key ==> Get(r, k) == Get(s, k)
  {
    Settings(
      if key == Notifications then !s.notifications else s.notifications,
      if key == SoundAlerts then !s.soundAlerts else s.soundAlerts,
      if key == DarkMode then !s.darkMode else s.darkMode,
      if key == LocationSharing then !s.locationSharing else s.locationSharing,
      if key == Vibration then !s.vibration else s.vibration,
      if key == AutoRouting then !s.autoRouting else s.autoRouting)
  }

  /** Flipping the same switch twice restores the record. */
  lemma ToggleTwiceRestores(s: Settings, key: Key)
    ensures Toggle(Toggle(s, key), key) == s
  {
  }

  /** Flips of two switches commute. */
  lemma TogglesCommute(s: Settings, j: Key, k: Key)
    ensures Toggle(Toggle(s, j), k) == Toggle(Toggle(s, k), j)
  {
  }

  /** The sheet's state field. */
  class SettingsPanel {
    var settings: Settings

    constructor ()
      ensures settings == InitialSettings()
    {
      settings := InitialSettings();
    }

    /** updateSetting. */
    method UpdateSetting(key: Key)
      modifies this
      ensures settings == Toggle(old(settings), key)
      ensures Get(settings, key) == !Get(old(settings), key)
      ensures forall k :: k != key ==> Get(settings, k) == Get(old(settings), k)
    {
      settings := Toggle(settings, key);
    }
  }
}
