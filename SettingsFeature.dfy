/** src/features/settings/store.ts: the settings the screens show, with
    their loading flag and last error. Loading falls back to the store's
    defaults; an update is applied over the current settings and saved
    through the storage service, which is foreign: what each call resolves
    to, or throws, is an input. */
module SettingsFeature {
  import opened Common
  import opened Models
  import opened StoreCommon

  /** The settings as the store holds them. The store's own defaults give
      the relays as bare urls, the meal type as free text and no currency,
      so that is the shape kept here. */
  datatype StoreSettings = StoreSettings(
    relays: seq<string>,
    theme: Theme,
    biometricEnabled: bool,
    defaultMealType: string,
    defaultCurrency: Option<string>)

  /** `defaultSettings`. */
  const DefaultSettings: StoreSettings := StoreSettings(
    ["wss://relay.damus.io", "wss://nostr.wine", "wss://relay.nostr.info", "wss://offchain.pub"],
    System, true, "lunch", None)

  /** The fields a `Partial<Settings>` carries; None is an absent key. */
  datatype SettingsPatch = SettingsPatch(
    relays: Option<seq<string>>,
    theme: Option<Theme>,
    biometricEnabled: Option<bool>,
    defaultMealType: Option<string>,
    defaultCurrency: Option<string>)

  /** `{ ...base, ...updates }`. */
  function MergeSettings(base: StoreSettings, u: SettingsPatch): StoreSettings
  {
    StoreSettings(Over(base.relays, u.relays), Over(base.theme, u.theme), Over(base.biometricEnabled, u.biometricEnabled),
                  Over(base.defaultMealType, u.defaultMealType),
                  if u.defaultCurrency.Some? then u.defaultCurrency else base.defaultCurrency)
  }

  /** `settings || defaultSettings`. */
  function OrDefault(s: Option<StoreSettings>): StoreSettings
  {
    if s.Some? then s.value else DefaultSettings
  }

  /** The settings `updateSettings` saves: the patch over the current
      settings, or over the defaults when none are loaded. */
  function UpdatedSettings(current: Option<StoreSettings>, u: SettingsPatch): StoreSettings
  {
    MergeSettings(OrDefault(current), u)
  }

  /** Each field of the update is taken from the patch when it carries one
      and from the current settings (the defaults when none) otherwise;
      an empty patch therefore saves the current settings unchanged. */
  lemma UpdatedSettingsFields(current: Option<StoreSettings>, u: SettingsPatch)
    ensures var r := UpdatedSettings(current, u);
            var base := if current.Some? then current.value else DefaultSettings;
            (u.relays.Some? ==> r.relays == u.relays.value) && (u.relays.None? ==> r.relays == base.relays) &&
            (u.theme.Some? ==> r.theme == u.theme.value) && (u.theme.None? ==> r.theme == base.theme) &&
            (u.biometricEnabled.Some? ==> r.biometricEnabled == u.biometricEnabled.value) &&
            (u.biometricEnabled.None? ==> r.biometricEnabled == base.biometricEnabled) &&
            (u.defaultMealType.Some? ==> r.defaultMealType == u.defaultMealType.value) &&
            (u.defaultMealType.None? ==> r.defaultMealType == base.defaultMealType) &&
            (u.defaultCurrency.Some? ==> r.defaultCurrency == u.defaultCurrency) &&
            (u.defaultCurrency.None? ==> r.defaultCurrency == base.defaultCurrency)
    ensures UpdatedSettings(current, SettingsPatch(None, None, None, None, None)) == OrDefault(current)
  {
  }

  /** Applying the same update twice is applying it once. */
  lemma UpdateIdempotent(current: Option<StoreSettings>, u: SettingsPatch)
    ensures UpdatedSettings(Some(UpdatedSettings(current, u)), u) == UpdatedSettings(current, u)
  {
  }

  /** The defaults: four relays, the system theme, biometrics on, lunch. */
  lemma DefaultsAre()
    ensures |DefaultSettings.relays| == 4 && DefaultSettings.theme == System
    ensures DefaultSettings.biometricEnabled && DefaultSettings.defaultMealType == "lunch"
  {
  }

  class SettingsStore {
    var settings: Option<StoreSettings>
    var loading: bool
    var error: Option<string>

    constructor()
      ensures settings == None && !loading && error == None
    {
      settings := None;
      loading := false;
      error := None;
    }

    /** `loadSettings`: `stored` is what getSettings resolved to. The
        stored settings are used, or the defaults when there are none; a
        failure also falls back to the defaults and records the error. */
    method LoadSettings(stored: Result<Option<StoreSettings>, Thrown>)
      modifies this
      ensures !loading
      ensures stored.Success? ==> settings == Some(OrDefault(stored.value)) && error == None
      ensures stored.Failure? ==> settings == Some(DefaultSettings) &&
                                  error == Some(ErrorMessage(stored.error, "Failed to load settings"))
    {
      loading, error := true, None;
      if stored.Success? {
        settings, loading := Some(OrDefault(stored.value)), false;
      } else {
        error, loading, settings := Some(ErrorMessage(stored.error, "Failed to load settings")), false, Some(DefaultSettings);
      }
    }

    /** `updateSettings`: the merged settings are handed to `save`, the
        storage service's save; they are installed once it succeeds, and a
        failure is recorded and rethrown with the settings unchanged. */
    method UpdateSettings(updates: SettingsPatch, save: StoreSettings -> Result<(), Thrown>)
      returns (r: Result<(), Thrown>)
      modifies this
      ensures r == save(UpdatedSettings(old(settings), updates)) && !loading
      ensures r.Success? ==> settings == Some(UpdatedSettings(old(settings), updates)) && error == None
      ensures r.Failure? ==> settings == old(settings) &&
                             error == Some(ErrorMessage(r.error, "Failed to update settings"))
    {
      loading, error := true, None;
      var newSettings := MergeSettings(OrDefault(settings), updates);
      r := save(newSettings);
      if r.Success? {
        settings, loading := Some(newSettings), false;
      } else {
        error, loading := Some(ErrorMessage(r.error, "Failed to update settings")), false;
      }
    }
  }
}
