/**
 * The settings action of src/store/actions/settingsActions.ts: merge a partial
 * into the store's current settings, save, replace the snapshot's settings,
 * and mirror the result into the `appSettings` key of `localStorage`. The
 * source imports `appState` from the store module, which does not export it;
 * here the current settings are the store's snapshot settings.
 */
module SettingsActions {
  import opened Wrappers
  import opened Runtime
  import opened AppData
  import opened Validation
  import opened ErrorLogging
  import opened Gateway
  import opened AppStore

  const UpdateFailed: string := "Ошибка при обновлении настроек"

  /** The `appSettings` key of `localStorage`: a fallback copy of the settings. */
  class FallbackCache {
    var appSettings: Option<Settings>

    constructor ()
      ensures appSettings == None
    {
      appSettings := None;
    }
  }

  /**
   * `updateSettings`: no validation. Saves the merged settings; only then
   * replaces the snapshot's settings (and notifies) and writes the fallback
   * copy, whose failure is swallowed. Returns the merged settings; a failing
   * save is logged and rethrown with the snapshot and the cache untouched.
   */
  method UpdateSettings(store: Store, log: ErrorLog, cache: FallbackCache, patch: SettingsPatch,
                        saveFails: bool, cacheFails: bool, now: string, logFails: bool)
    returns (r: Result<Settings, Failure>)
    requires store.Valid()
    modifies store, store.db, store.bus.trace, log, cache
    ensures store.Valid()
    ensures store.listeners == old(store.listeners) && store.initialized == old(store.initialized)
    ensures !saveFails ==>
      && r == Success(MergeSettings(old(store.state.settings), patch))
      && store.db.settings == Some(r.value)
      && store.state == old(store.state).(settings := r.value)
      && store.bus.trace.calls == old(store.bus.trace.calls) + store.Notification()
      && cache.appSettings == (if cacheFails then old(cache.appSettings) else Some(r.value))
      && unchanged(log)
    ensures saveFails ==>
      && r == Failure(DatabaseFailure)
      && store.db.settings == old(store.db.settings) && store.state == old(store.state)
      && store.bus.trace.calls == old(store.bus.trace.calls) && unchanged(cache)
      && log.logs == KeepNewest(old(log.LoadedLogs()) + [FailureEntry(now, UpdateFailed, DatabaseFailure)], MaxEntries)
  {
    var updated := MergeSettings(store.state.settings, patch);
    var saved := store.db.SaveSettings(updated, saveFails);
    assert store.Valid();
    if saved.Failure? {
      log.LogError(UpdateFailed, Some(Thrown(saved.error)), now, logFails);
      return Failure(saved.error);
    }
    store.SetAppState(NoStateChange.(settings := Some(updated)));
    assert store.Valid();
    if !cacheFails {
      cache.appSettings := Some(updated);
    }
    return Success(updated);
  }

  /** Nothing is validated: from valid settings, a partial can produce settings that `validateSettings` rejects. */
  lemma MergeCanBreakValidation(s: Settings)
    requires ValidateSettings(s).valid
    ensures !ValidateSettings(MergeSettings(s, NoChange.(height := Some(0)))).valid
  {
    ValidateSettingsAccepts(s);
    ValidateSettingsAccepts(MergeSettings(s, NoChange.(height := Some(0))));
  }
}
